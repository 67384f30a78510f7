/** gov.usgs.processingformats.Site of the Java library: four codes and three
    coordinates, each of which may be null. Unlike the C++ Site it carries a
    position, tells a missing code from an empty one, checks the ranges of
    latitude and longitude, and its JSON constructor can throw. */
module JavaSite {
  import opened Wrappers
  import opened JsonSimple

  const StationKey := "Station"
  const ChannelKey := "Channel"
  const NetworkKey := "Network"
  const LocationKey := "Location"
  const LatitudeKey := "Latitude"
  const LongitudeKey := "Longitude"
  const ElevationKey := "Elevation"

  const NoStationMessage := "No Station in Site Class."
  const EmptyStationMessage := "Empty Station in Site Class."
  const NoNetworkMessage := "No Network in Site Class."
  const EmptyNetworkMessage := "Empty Network in Site Class."
  const NoLatitudeMessage := "No Latitude in Site Class."
  const LatitudeRangeMessage := "Latitude in Site Class not in the range of -90 to 90."
  const NoLongitudeMessage := "No Longitude in Site Class."
  const LongitudeRangeMessage := "Longitude in Site Class not in the range of -180 to 180."
  const NoElevationMessage := "No Elevation in Site Class."

  /** The abstract value of a Site; None is Java's null. The Doubles are
      reals: the class only stores and compares them. */
  datatype SiteValue = SiteValue(
    station: Option<string>, channel: Option<string>,
    network: Option<string>, location: Option<string>,
    latitude: Option<real>, longitude: Option<real>, elevation: Option<real>)

  const AllNull := SiteValue(None, None, None, None, None, None, None)

  /** The exceptions the JSON constructor can throw, with the key it was
      reading at the time. */
  datatype Exception = NullPointerException(key: string) | ClassCastException(key: string)

  // ---------------------------------------------------------------------
  // The JSON constructor

  /** Java's toString() on a member value: a String renders as itself; any
      other value as `render` (json-simple's and the JDK's text forms, which
      are not modelled). */
  function JavaToString(v: JValue, render: JValue -> string): string
    requires v != JNull
  {
    if v.JString? then v.str else render(v)
  }

  /** `containsKey(key) ? get(key).toString() : null` */
  function StringField(obj: JSONObject, key: string, render: JValue -> string): Result<Option<string>, Exception>
  {
    if key !in obj then Success(None)
    else if obj[key] == JNull then Failure(NullPointerException(key))
    else Success(Some(JavaToString(obj[key], render)))
  }

  /** `containsKey(key) ? (double) get(key) : null`: the cast unboxes a
      Double and throws on null and on every other class, Long included. */
  function NumberField(obj: JSONObject, key: string): Result<Option<real>, Exception>
  {
    if key !in obj then Success(None)
    else match obj[key]
      case JDouble(d) => Success(Some(d))
      case JNull => Failure(NullPointerException(key))
      case _ => Failure(ClassCastException(key))
  }

  /** What the JSON constructor builds, or the exception it throws first;
      it reads the keys in the order below. */
  function Decode(obj: JSONObject, render: JValue -> string): (r: Result<SiteValue, Exception>)
    ensures r.Failure? ==> r.error.key in obj
    ensures obj == map[] ==> r == Success(AllNull)
  {
    var station :- StringField(obj, StationKey, render);
    var network :- StringField(obj, NetworkKey, render);
    var latitude :- NumberField(obj, LatitudeKey);
    var longitude :- NumberField(obj, LongitudeKey);
    var elevation :- NumberField(obj, ElevationKey);
    var channel :- StringField(obj, ChannelKey, render);
    var location :- StringField(obj, LocationKey, render);
    Success(SiteValue(station, channel, network, location, latitude, longitude, elevation))
  }

  /** The keys in the order the JSON constructor reads them, each marked
      with whether it is cast to double. */
  const ReadOrder: seq<(string, bool)> := [
    (StationKey, false), (NetworkKey, false), (LatitudeKey, true),
    (LongitudeKey, true), (ElevationKey, true), (ChannelKey, false), (LocationKey, false)]

  /** Reading `field` throws: its key holds null, or it is cast to double and
      holds something other than a Double. */
  ghost predicate Throws(obj: JSONObject, field: (string, bool))
  {
    field.0 in obj && (obj[field.0] == JNull || (field.1 && !obj[field.0].JDouble?))
  }

  /** The i-th key read is the first one that throws. */
  ghost predicate FirstThrow(obj: JSONObject, i: int)
  {
    && 0 <= i < |ReadOrder|
    && Throws(obj, ReadOrder[i])
    && forall j :: 0 <= j < i ==> !Throws(obj, ReadOrder[j])
  }

  /** The constructor throws exactly when some key it reads throws, and then
      it is the first such key in reading order that is reported: a
      NullPointerException when that key holds null, a ClassCastException
      otherwise. */
  lemma DecodeOutcome(obj: JSONObject, render: JValue -> string)
    ensures Decode(obj, render).Success? <==>
              forall i :: 0 <= i < |ReadOrder| ==> !Throws(obj, ReadOrder[i])
    ensures Decode(obj, render).Failure? ==>
              exists i :: FirstThrow(obj, i)
                && Decode(obj, render).error.key == ReadOrder[i].0
                && (Decode(obj, render).error.NullPointerException? <==> obj[ReadOrder[i].0] == JNull)
  {
    var r := Decode(obj, render);
    if !Throws(obj, ReadOrder[0]) && !Throws(obj, ReadOrder[1]) && !Throws(obj, ReadOrder[2])
       && !Throws(obj, ReadOrder[3]) && !Throws(obj, ReadOrder[4]) && !Throws(obj, ReadOrder[5])
       && !Throws(obj, ReadOrder[6])
    {
      assert r.Success?;
    } else if Throws(obj, ReadOrder[0]) {
      assert FirstThrow(obj, 0);
    } else if Throws(obj, ReadOrder[1]) {
      assert FirstThrow(obj, 1);
    } else if Throws(obj, ReadOrder[2]) {
      assert FirstThrow(obj, 2);
    } else if Throws(obj, ReadOrder[3]) {
      assert FirstThrow(obj, 3);
    } else if Throws(obj, ReadOrder[4]) {
      assert FirstThrow(obj, 4);
    } else if Throws(obj, ReadOrder[5]) {
      assert FirstThrow(obj, 5);
    } else {
      assert FirstThrow(obj, 6);
    }
  }

  /** When the constructor does not throw, a field is null exactly when its
      key is absent, and otherwise holds the member's value: the member's
      toString() for a code, the Double for a coordinate. */
  lemma DecodeFields(obj: JSONObject, render: JValue -> string)
    requires Decode(obj, render).Success?
    ensures var s := Decode(obj, render).value;
      && (s.station.None? <==> StationKey !in obj)
      && (s.network.None? <==> NetworkKey !in obj)
      && (s.channel.None? <==> ChannelKey !in obj)
      && (s.location.None? <==> LocationKey !in obj)
      && (s.latitude.None? <==> LatitudeKey !in obj)
      && (s.longitude.None? <==> LongitudeKey !in obj)
      && (s.elevation.None? <==> ElevationKey !in obj)
    ensures var s := Decode(obj, render).value;
      && (StationKey in obj ==> s.station == Some(JavaToString(obj[StationKey], render)))
      && (NetworkKey in obj ==> s.network == Some(JavaToString(obj[NetworkKey], render)))
      && (ChannelKey in obj ==> s.channel == Some(JavaToString(obj[ChannelKey], render)))
      && (LocationKey in obj ==> s.location == Some(JavaToString(obj[LocationKey], render)))
    ensures var s := Decode(obj, render).value;
      && (LatitudeKey in obj ==> obj[LatitudeKey] == JDouble(s.latitude.value))
      && (LongitudeKey in obj ==> obj[LongitudeKey] == JDouble(s.longitude.value))
      && (ElevationKey in obj ==> obj[ElevationKey] == JDouble(s.elevation.value))
  {
  }

  // ---------------------------------------------------------------------
  // toJSON

  /** A code toJSON writes: neither null nor empty. */
  predicate Present(code: Option<string>)
  {
    code.Some? && code.value != ""
  }

  /** One put of a code: only a code that is neither null nor empty. */
  function PutCode(o: JSONObject, key: string, code: Option<string>): JSONObject
  {
    if Present(code) then o[key := JString(code.value)] else o
  }

  /** One put of a coordinate: only a non-null one. */
  function PutNumber(o: JSONObject, key: string, x: Option<real>): JSONObject
  {
    if x.Some? then o[key := JDouble(x.value)] else o
  }

  /** The JSONObject toJSON returns, filled by successive puts. */
  function Encode(s: SiteValue): (o: JSONObject)
    ensures forall k :: k in o ==> o[k].JString? || o[k].JDouble?
  {
    var o := PutCode(map[], StationKey, s.station);
    var o := PutCode(o, NetworkKey, s.network);
    var o := PutNumber(o, LatitudeKey, s.latitude);
    var o := PutNumber(o, LongitudeKey, s.longitude);
    var o := PutNumber(o, ElevationKey, s.elevation);
    var o := PutCode(o, ChannelKey, s.channel);
    PutCode(o, LocationKey, s.location)
  }

  const AllKeys := {StationKey, ChannelKey, NetworkKey, LocationKey, LatitudeKey, LongitudeKey, ElevationKey}

  /** toJSON writes a code's key exactly when the code is neither null nor
      empty, and a coordinate's key exactly when it is not null, each holding
      the field's value; it writes no other key. */
  lemma EncodeKeys(s: SiteValue)
    ensures (StationKey in Encode(s) <==> Present(s.station))
      && (NetworkKey in Encode(s) <==> Present(s.network))
      && (ChannelKey in Encode(s) <==> Present(s.channel))
      && (LocationKey in Encode(s) <==> Present(s.location))
      && (LatitudeKey in Encode(s) <==> s.latitude.Some?)
      && (LongitudeKey in Encode(s) <==> s.longitude.Some?)
      && (ElevationKey in Encode(s) <==> s.elevation.Some?)
    ensures (StationKey in Encode(s) ==> Encode(s)[StationKey] == JString(s.station.value))
      && (NetworkKey in Encode(s) ==> Encode(s)[NetworkKey] == JString(s.network.value))
      && (ChannelKey in Encode(s) ==> Encode(s)[ChannelKey] == JString(s.channel.value))
      && (LocationKey in Encode(s) ==> Encode(s)[LocationKey] == JString(s.location.value))
      && (LatitudeKey in Encode(s) ==> Encode(s)[LatitudeKey] == JDouble(s.latitude.value))
      && (LongitudeKey in Encode(s) ==> Encode(s)[LongitudeKey] == JDouble(s.longitude.value))
      && (ElevationKey in Encode(s) ==> Encode(s)[ElevationKey] == JDouble(s.elevation.value))
    ensures Encode(s).Keys <= AllKeys
  {
  }

  /** An empty code reads back as null: it is dropped by toJSON. */
  function Blank(code: Option<string>): (r: Option<string>)
  {
    if code == Some("") then None else code
  }

  /** What survives a round trip through toJSON and the JSON constructor. */
  function Normalize(s: SiteValue): SiteValue
  {
    s.(station := Blank(s.station), channel := Blank(s.channel),
       network := Blank(s.network), location := Blank(s.location))
  }

  /** Building a Site from toJSON(s) never throws and gives back every field
      of s, except that an empty code comes back as null. */
  lemma RoundTrip(s: SiteValue, render: JValue -> string)
    ensures Decode(Encode(s), render) == Success(Normalize(s))
  {
    EncodeKeys(s);
    DecodeOutcome(Encode(s), render);
    DecodeFields(Encode(s), render);
  }

  /** A Site with no empty code survives the round trip unchanged. */
  lemma RoundTripExact(s: SiteValue, render: JValue -> string)
    requires s.station != Some("") && s.channel != Some("")
    requires s.network != Some("") && s.location != Some("")
    ensures Decode(Encode(s), render) == Success(s)
  {
    RoundTrip(s, render);
  }

  // ---------------------------------------------------------------------
  // getErrors

  /** The check of a required code: "No X" for null, "Empty X" for "". */
  function CodeErrors(code: Option<string>, missing: string, empty: string): seq<string>
  {
    match code
    case None => [missing]
    case Some(v) => if v == "" then [empty] else []
  }

  /** The check of a coordinate: "No X" for null, the range message outside
      [-bound, bound]. */
  function RangeErrors(x: Option<real>, bound: real, missing: string, outOfRange: string): seq<string>
  {
    match x
    case None => [missing]
    case Some(v) => if v < -bound || v > bound then [outOfRange] else []
  }

  /** The check of the elevation: only that it is not null. */
  function ElevationErrors(x: Option<real>): seq<string>
  {
    if x.None? then [NoElevationMessage] else []
  }

  /** The list getErrors returns. */
  function Errors(s: SiteValue): (r: seq<string>)
    ensures |r| <= 5
  {
    CodeErrors(s.station, NoStationMessage, EmptyStationMessage)
    + CodeErrors(s.network, NoNetworkMessage, EmptyNetworkMessage)
    + RangeErrors(s.latitude, 90.0, NoLatitudeMessage, LatitudeRangeMessage)
    + RangeErrors(s.longitude, 180.0, NoLongitudeMessage, LongitudeRangeMessage)
    + ElevationErrors(s.elevation)
  }

  /** The field a message is about, in the order getErrors checks them:
      station, network, latitude, longitude, elevation; 5 for any other text. */
  function MessageRank(message: string): nat
  {
    if message == NoStationMessage || message == EmptyStationMessage then 0
    else if message == NoNetworkMessage || message == EmptyNetworkMessage then 1
    else if message == NoLatitudeMessage || message == LatitudeRangeMessage then 2
    else if message == NoLongitudeMessage || message == LongitudeRangeMessage then 3
    else if message == NoElevationMessage then 4
    else 5
  }

  /** The site passes every check of getErrors. */
  predicate Acceptable(s: SiteValue)
  {
    && Present(s.station) && Present(s.network)
    && s.latitude.Some? && -90.0 <= s.latitude.value <= 90.0
    && s.longitude.Some? && -180.0 <= s.longitude.value <= 180.0
    && s.elevation.Some?
  }

  /** The nine messages are pairwise different texts; MessageRank tells
      the field apart. */
  lemma MessageRanks()
    ensures MessageRank(NoStationMessage) == 0 && MessageRank(EmptyStationMessage) == 0
    ensures MessageRank(NoNetworkMessage) == 1 && MessageRank(EmptyNetworkMessage) == 1
    ensures MessageRank(NoLatitudeMessage) == 2 && MessageRank(LatitudeRangeMessage) == 2
    ensures MessageRank(NoLongitudeMessage) == 3 && MessageRank(LongitudeRangeMessage) == 3
    ensures MessageRank(NoElevationMessage) == 4
    ensures NoStationMessage != EmptyStationMessage && NoNetworkMessage != EmptyNetworkMessage
    ensures NoLatitudeMessage != LatitudeRangeMessage && NoLongitudeMessage != LongitudeRangeMessage
  {
    assert NoNetworkMessage[3] != NoStationMessage[3];
    assert EmptyNetworkMessage[6] != EmptyStationMessage[6];
    assert NoElevationMessage[3] != NoLongitudeMessage[3];
  }

  /** Each message about a code appears exactly when its condition holds. */
  lemma ErrorsCodeMessages(s: SiteValue)
    ensures NoStationMessage in Errors(s) <==> s.station.None?
    ensures EmptyStationMessage in Errors(s) <==> s.station == Some("")
    ensures NoNetworkMessage in Errors(s) <==> s.network.None?
    ensures EmptyNetworkMessage in Errors(s) <==> s.network == Some("")
  {
    MessageRanks();
    ErrorsRanks(s);
  }

  /** Each message about a coordinate appears exactly when its condition holds. */
  lemma ErrorsCoordinateMessages(s: SiteValue)
    ensures NoLatitudeMessage in Errors(s) <==> s.latitude.None?
    ensures LatitudeRangeMessage in Errors(s) <==>
              s.latitude.Some? && (s.latitude.value < -90.0 || s.latitude.value > 90.0)
    ensures NoLongitudeMessage in Errors(s) <==> s.longitude.None?
    ensures LongitudeRangeMessage in Errors(s) <==>
              s.longitude.Some? && (s.longitude.value < -180.0 || s.longitude.value > 180.0)
    ensures NoElevationMessage in Errors(s) <==> s.elevation.None?
  {
    MessageRanks();
    ErrorsRanks(s);
  }

  /** Every message of the list for one field has that field's rank. */
  lemma ErrorsRanks(s: SiteValue)
    ensures forall m :: m in CodeErrors(s.station, NoStationMessage, EmptyStationMessage) ==> MessageRank(m) == 0
    ensures forall m :: m in CodeErrors(s.network, NoNetworkMessage, EmptyNetworkMessage) ==> MessageRank(m) == 1
    ensures forall m :: m in RangeErrors(s.latitude, 90.0, NoLatitudeMessage, LatitudeRangeMessage) ==> MessageRank(m) == 2
    ensures forall m :: m in RangeErrors(s.longitude, 180.0, NoLongitudeMessage, LongitudeRangeMessage) ==> MessageRank(m) == 3
    ensures forall m :: m in ElevationErrors(s.elevation) ==> MessageRank(m) == 4
  {
    MessageRanks();
  }

  /** getErrors gives at most one message per field, in the order station,
      network, latitude, longitude, elevation, and is empty exactly when the
      site passes every check. */
  lemma ErrorsOrder(s: SiteValue)
    ensures MessagesRanked(Errors(s), 0, 5)
    ensures MessagesAscending(Errors(s))
    ensures |Errors(s)| <= 5
    ensures Errors(s) == [] <==> Acceptable(s)
  {
    var a := CodeErrors(s.station, NoStationMessage, EmptyStationMessage);
    var b := CodeErrors(s.network, NoNetworkMessage, EmptyNetworkMessage);
    var c := RangeErrors(s.latitude, 90.0, NoLatitudeMessage, LatitudeRangeMessage);
    var d := RangeErrors(s.longitude, 180.0, NoLongitudeMessage, LongitudeRangeMessage);
    var e := ElevationErrors(s.elevation);
    ErrorsRanks(s);
    SingleRanked(a, 0);
    SingleRanked(b, 1);
    SingleRanked(c, 2);
    SingleRanked(d, 3);
    SingleRanked(e, 4);
    ConcatMessages(a, b, 0, 1, 2);
    ConcatMessages(a + b, c, 0, 2, 3);
    ConcatMessages(a + b + c, d, 0, 3, 4);
    ConcatMessages(a + b + c + d, e, 0, 4, 5);
  }

  /** The messages of `errors` strictly increase in MessageRank: at most one
      per field, in the order the fields are checked. */
  ghost predicate MessagesAscending(errors: seq<string>)
  {
    forall i, j :: 0 <= i < j < |errors| ==> MessageRank(errors[i]) < MessageRank(errors[j])
  }

  /** Every message of `errors` has a MessageRank in [lo, hi). */
  ghost predicate MessagesRanked(errors: seq<string>, lo: nat, hi: nat)
  {
    forall i :: 0 <= i < |errors| ==> lo <= MessageRank(errors[i]) < hi
  }

  lemma SingleRanked(errors: seq<string>, rank: nat)
    requires |errors| <= 1
    requires forall m :: m in errors ==> MessageRank(m) == rank
    ensures MessagesAscending(errors) && MessagesRanked(errors, rank, rank + 1)
  {
    if |errors| == 1 {
      assert errors[0] in errors;
    }
  }

  lemma ConcatMessages(p: seq<string>, q: seq<string>, lo: nat, mid: nat, hi: nat)
    requires lo <= mid <= hi
    requires MessagesAscending(p) && MessagesRanked(p, lo, mid)
    requires MessagesAscending(q) && MessagesRanked(q, mid, hi)
    ensures MessagesAscending(p + q) && MessagesRanked(p + q, lo, hi)
  {
    forall i, j | 0 <= i < j < |p + q|
      ensures MessageRank((p + q)[i]) < MessageRank((p + q)[j])
    {
      if j < |p| {
        assert (p + q)[i] == p[i] && (p + q)[j] == p[j];
      } else if i < |p| {
        assert (p + q)[i] == p[i] && (p + q)[j] == q[j - |p|];
      } else {
        assert (p + q)[i] == q[i - |p|] && (p + q)[j] == q[j - |p|];
      }
    }
    forall i | 0 <= i < |p + q|
      ensures lo <= MessageRank((p + q)[i]) < hi
    {
      if i < |p| {
        assert (p + q)[i] == p[i];
      } else {
        assert (p + q)[i] == q[i - |p|];
      }
    }
  }

  /** getErrors does not look at the channel or the location. */
  lemma ErrorsIgnoreOptional(s: SiteValue, channel: Option<string>, location: Option<string>)
    ensures Errors(s.(channel := channel, location := location)) == Errors(s)
  {
  }

  // ---------------------------------------------------------------------
  // The cases the unit tests exercise

  const BozSite := SiteValue(Some("BOZ"), Some("BHZ"), Some("US"), Some("00"),
                             Some(45.59697), Some(-111.62967), Some(1589.0))

  /** The fully populated test site is valid; the all-null site is not, and
      gets a message for each required field. */
  lemma ValidateCases()
    ensures Errors(BozSite) == []
    ensures Errors(AllNull) == [NoStationMessage, NoNetworkMessage, NoLatitudeMessage,
                                NoLongitudeMessage, NoElevationMessage]
  {
  }

  /** The test's JSON object, once parsed, builds the test site. */
  lemma ReadsJsonCase(render: JValue -> string)
    ensures Decode(map[StationKey := JString("BOZ"), ChannelKey := JString("BHZ"),
                       NetworkKey := JString("US"), LocationKey := JString("00"),
                       LatitudeKey := JDouble(45.59697), LongitudeKey := JDouble(-111.62967),
                       ElevationKey := JDouble(1589.0)], render) == Success(BozSite)
  {
  }

  /** The test site survives toJSON and the JSON constructor. */
  lemma WritesJsonCase(render: JValue -> string)
    ensures Decode(Encode(BozSite), render) == Success(BozSite)
  {
    RoundTripExact(BozSite, render);
  }

  // ---------------------------------------------------------------------
  // The class

  class Site {
    var station: Option<string>
    var channel: Option<string>
    var network: Option<string>
    var location: Option<string>
    var latitude: Option<real>
    var longitude: Option<real>
    var elevation: Option<real>

    function Value(): SiteValue
      reads this
    {
      SiteValue(station, channel, network, location, latitude, longitude, elevation)
    }

    /** The default constructor sets every field to null. */
    constructor ()
      ensures Value() == AllNull
    {
      station := None;
      channel := None;
      network := None;
      location := None;
      latitude := None;
      longitude := None;
      elevation := None;
    }

    /** The advanced constructor hands its arguments to Reload. */
    constructor Init(newStation: Option<string>, newChannel: Option<string>,
                     newNetwork: Option<string>, newLocation: Option<string>,
                     newLatitude: Option<real>, newLongitude: Option<real>,
                     newElevation: Option<real>)
      ensures Value() == SiteValue(newStation, newChannel, newNetwork, newLocation,
                                   newLatitude, newLongitude, newElevation)
    {
      new;
      Reload(newStation, newChannel, newNetwork, newLocation, newLatitude, newLongitude, newElevation);
    }

    /** Overwrites every field with the matching argument. */
    method Reload(newStation: Option<string>, newChannel: Option<string>,
                  newNetwork: Option<string>, newLocation: Option<string>,
                  newLatitude: Option<real>, newLongitude: Option<real>,
                  newElevation: Option<real>)
      modifies this
      ensures Value() == SiteValue(newStation, newChannel, newNetwork, newLocation,
                                   newLatitude, newLongitude, newElevation)
    {
      station := newStation;
      channel := newChannel;
      network := newNetwork;
      location := newLocation;
      latitude := newLatitude;
      longitude := newLongitude;
      elevation := newElevation;
    }

    /** The JSON constructor, for the objects it does not throw on (Decode
        says which those are and what is thrown otherwise). */
    constructor FromJSONObject(newJSONObject: JSONObject, render: JValue -> string)
      requires Decode(newJSONObject, render).Success?
      ensures Value() == Decode(newJSONObject, render).value
    {
      DecodeOutcome(newJSONObject, render);
      assert !Throws(newJSONObject, ReadOrder[0]) && !Throws(newJSONObject, ReadOrder[1]);
      assert !Throws(newJSONObject, ReadOrder[2]) && !Throws(newJSONObject, ReadOrder[3]);
      assert !Throws(newJSONObject, ReadOrder[4]) && !Throws(newJSONObject, ReadOrder[5]);
      assert !Throws(newJSONObject, ReadOrder[6]);
      if StationKey in newJSONObject {
        station := Some(JavaToString(newJSONObject[StationKey], render));
      } else {
        station := None;
      }
      if NetworkKey in newJSONObject {
        network := Some(JavaToString(newJSONObject[NetworkKey], render));
      } else {
        network := None;
      }
      if LatitudeKey in newJSONObject {
        latitude := Some(newJSONObject[LatitudeKey].d);
      } else {
        latitude := None;
      }
      if LongitudeKey in newJSONObject {
        longitude := Some(newJSONObject[LongitudeKey].d);
      } else {
        longitude := None;
      }
      if ElevationKey in newJSONObject {
        elevation := Some(newJSONObject[ElevationKey].d);
      } else {
        elevation := None;
      }
      if ChannelKey in newJSONObject {
        channel := Some(JavaToString(newJSONObject[ChannelKey], render));
      } else {
        channel := None;
      }
      if LocationKey in newJSONObject {
        location := Some(JavaToString(newJSONObject[LocationKey], render));
      } else {
        location := None;
      }
    }

    /** A new JSONObject holding the fields toJSON writes. */
    method ToJSON() returns (newJSONObject: JSONObject)
      ensures newJSONObject == Encode(Value())
    {
      newJSONObject := map[];
      var jsonStation := GetStation();
      var jsonNetwork := GetNetwork();
      var jsonChannel := GetChannel();
      var jsonLocation := GetLocation();
      var jsonLatitude := GetLatitude();
      var jsonLongitude := GetLongitude();
      var jsonElevation := GetElevation();
      ghost var o := newJSONObject;
      if jsonStation.Some? && jsonStation.value != "" {
        newJSONObject := newJSONObject[StationKey := JString(jsonStation.value)];
      }
      assert newJSONObject == PutCode(o, StationKey, station);
      o := newJSONObject;
      if jsonNetwork.Some? && jsonNetwork.value != "" {
        newJSONObject := newJSONObject[NetworkKey := JString(jsonNetwork.value)];
      }
      assert newJSONObject == PutCode(o, NetworkKey, network);
      o := newJSONObject;
      if jsonLatitude.Some? {
        newJSONObject := newJSONObject[LatitudeKey := JDouble(jsonLatitude.value)];
      }
      assert newJSONObject == PutNumber(o, LatitudeKey, latitude);
      o := newJSONObject;
      if jsonLongitude.Some? {
        newJSONObject := newJSONObject[LongitudeKey := JDouble(jsonLongitude.value)];
      }
      assert newJSONObject == PutNumber(o, LongitudeKey, longitude);
      o := newJSONObject;
      if jsonElevation.Some? {
        newJSONObject := newJSONObject[ElevationKey := JDouble(jsonElevation.value)];
      }
      assert newJSONObject == PutNumber(o, ElevationKey, elevation);
      o := newJSONObject;
      if jsonChannel.Some? && jsonChannel.value != "" {
        newJSONObject := newJSONObject[ChannelKey := JString(jsonChannel.value)];
      }
      assert newJSONObject == PutCode(o, ChannelKey, channel);
      o := newJSONObject;
      if jsonLocation.Some? && jsonLocation.value != "" {
        newJSONObject := newJSONObject[LocationKey := JString(jsonLocation.value)];
      }
      assert newJSONObject == PutCode(o, LocationKey, location);
    }

    /** True exactly when getErrors finds nothing. */
    method IsValid() returns (valid: bool)
      ensures valid <==> Errors(Value()) == []
    {
      // getErrors never returns null, so only its size decides.
      var errors := GetErrors();
      valid := |errors| == 0;
    }

    /** The validation errors, one check per required field in turn. */
    method GetErrors() returns (errorList: seq<string>)
      ensures errorList == Errors(Value())
    {
      var jsonStation := GetStation();
      var jsonNetwork := GetNetwork();
      var jsonLatitude := GetLatitude();
      var jsonLongitude := GetLongitude();
      var jsonElevation := GetElevation();
      ghost var v := Value();
      errorList := [];
      if jsonStation.None? {
        errorList := errorList + [NoStationMessage];
      } else if jsonStation.value == "" {
        errorList := errorList + [EmptyStationMessage];
      }
      assert errorList == CodeErrors(v.station, NoStationMessage, EmptyStationMessage);
      ghost var before := errorList;
      if jsonNetwork.None? {
        errorList := errorList + [NoNetworkMessage];
      } else if jsonNetwork.value == "" {
        errorList := errorList + [EmptyNetworkMessage];
      }
      assert errorList == before + CodeErrors(v.network, NoNetworkMessage, EmptyNetworkMessage);
      before := errorList;
      if jsonLatitude.None? {
        errorList := errorList + [NoLatitudeMessage];
      } else if jsonLatitude.value < -90.0 || jsonLatitude.value > 90.0 {
        errorList := errorList + [LatitudeRangeMessage];
      }
      assert errorList == before + RangeErrors(v.latitude, 90.0, NoLatitudeMessage, LatitudeRangeMessage);
      before := errorList;
      if jsonLongitude.None? {
        errorList := errorList + [NoLongitudeMessage];
      } else if jsonLongitude.value < -180.0 || jsonLongitude.value > 180.0 {
        errorList := errorList + [LongitudeRangeMessage];
      }
      assert errorList == before + RangeErrors(v.longitude, 180.0, NoLongitudeMessage, LongitudeRangeMessage);
      before := errorList;
      if jsonElevation.None? {
        errorList := errorList + [NoElevationMessage];
      }
      assert errorList == before + ElevationErrors(v.elevation);
    }

    method GetStation() returns (r: Option<string>)
      ensures r == station
    {
      r := station;
    }

    method GetChannel() returns (r: Option<string>)
      ensures r == channel
    {
      r := channel;
    }

    method GetNetwork() returns (r: Option<string>)
      ensures r == network
    {
      r := network;
    }

    method GetLocation() returns (r: Option<string>)
      ensures r == location
    {
      r := location;
    }

    method GetLatitude() returns (r: Option<real>)
      ensures r == latitude
    {
      r := latitude;
    }

    method GetLongitude() returns (r: Option<real>)
      ensures r == longitude
    {
      r := longitude;
    }

    method GetElevation() returns (r: Option<real>)
      ensures r == elevation
    {
      r := elevation;
    }

    method SetStation(newStation: Option<string>)
      modifies this
      ensures Value() == old(Value()).(station := newStation)
    {
      station := newStation;
    }

    method SetChannel(newChannel: Option<string>)
      modifies this
      ensures Value() == old(Value()).(channel := newChannel)
    {
      channel := newChannel;
    }

    method SetNetwork(newNetwork: Option<string>)
      modifies this
      ensures Value() == old(Value()).(network := newNetwork)
    {
      network := newNetwork;
    }

    method SetLocation(newLocation: Option<string>)
      modifies this
      ensures Value() == old(Value()).(location := newLocation)
    {
      location := newLocation;
    }

    method SetLatitude(newLatitude: Option<real>)
      modifies this
      ensures Value() == old(Value()).(latitude := newLatitude)
    {
      latitude := newLatitude;
    }

    method SetLongitude(newLongitude: Option<real>)
      modifies this
      ensures Value() == old(Value()).(longitude := newLongitude)
    {
      longitude := newLongitude;
    }

    method SetElevation(newElevation: Option<real>)
      modifies this
      ensures Value() == old(Value()).(elevation := newElevation)
    {
      elevation := newElevation;
    }
  }
}

/** processingformats::Site of the C++ library: four free-text codes, where
    the empty string stands for "not given". Construction from a JSON object
    never fails, toJSON writes only the non-empty codes (each up to its first
    NUL), and getErrors reports the two required codes that are empty. */
module CppSite {
  import opened Wrappers
  import opened RapidJson

  const StationKey := "Station"
  const ChannelKey := "Channel"
  const NetworkKey := "Network"
  const LocationKey := "Location"

  const EmptyStationMessage := "Empty Station in Site class."
  const EmptyNetworkMessage := "Empty Network in Site class."

  /** The abstract value of a Site: its four string members. */
  datatype SiteValue = SiteValue(station: string, channel: string, network: string, location: string)

  // ---------------------------------------------------------------------
  // Specification functions

  /** What the JSON constructor stores for one key: the string held by the
      member of that name, or "" when there is no such member or it holds
      anything but a string. */
  function StringMember(members: seq<(string, Json)>, key: string): (r: string)
    ensures (forall i :: 0 <= i < |members| ==> members[i].0 != key) ==> r == ""
    ensures forall i :: IsFirstMember(members, key, i) ==>
              r == if members[i].1.JString? then members[i].1.str else ""
  {
    if HasMember(members, key) && FindMember(members, key).value.JString? then
      FindMember(members, key).value.str
    else
      ""
  }

  /** The Site that the JSON constructor builds from an object's members. */
  function Decode(members: seq<(string, Json)>): (r: SiteValue)
    ensures !HasMember(members, StationKey) ==> r.station == ""
    ensures !HasMember(members, NetworkKey) ==> r.network == ""
    ensures !HasMember(members, ChannelKey) ==> r.channel == ""
    ensures !HasMember(members, LocationKey) ==> r.location == ""
  {
    SiteValue(StringMember(members, StationKey), StringMember(members, ChannelKey),
              StringMember(members, NetworkKey), StringMember(members, LocationKey))
  }

  /** The member toJSON adds for one code: none when the code is empty;
      otherwise the code up to its first NUL, as StringRef reads it. */
  function Entry(key: string, code: string): seq<(string, Json)>
  {
    if code != "" then [(key, JString(StringRef(code)))] else []
  }

  /** The object toJSON leaves in its argument. */
  function Encode(s: SiteValue): (j: Json)
    ensures j.JObject? && |j.members| <= 4
  {
    JObject(Entry(StationKey, s.station) + (Entry(NetworkKey, s.network)
            + (Entry(ChannelKey, s.channel) + Entry(LocationKey, s.location))))
  }

  /** The list getErrors returns. */
  function Errors(s: SiteValue): (r: seq<string>)
    ensures |r| <= 2
  {
    (if s.station == "" then [EmptyStationMessage] else [])
    + (if s.network == "" then [EmptyNetworkMessage] else [])
  }

  /** Position of a key in the order toJSON writes them; 4 for any other name. */
  function KeyRank(name: string): nat
  {
    if name == StationKey then 0
    else if name == NetworkKey then 1
    else if name == ChannelKey then 2
    else if name == LocationKey then 3
    else 4
  }

  /** Position of a message in the order getErrors checks; 2 for any other text. */
  function MessageRank(message: string): nat
  {
    if message == EmptyStationMessage then 0
    else if message == EmptyNetworkMessage then 1
    else 2
  }

  // ---------------------------------------------------------------------
  // Properties

  /** The keys of `members` strictly increase in KeyRank, so each appears at
      most once and they follow the order toJSON writes them. */
  ghost predicate KeysAscending(members: seq<(string, Json)>)
  {
    forall i, j :: 0 <= i < j < |members| ==> KeyRank(members[i].0) < KeyRank(members[j].0)
  }

  /** Every key of `members` has a KeyRank in [lo, hi). */
  ghost predicate KeysRanked(members: seq<(string, Json)>, lo: nat, hi: nat)
  {
    forall i :: 0 <= i < |members| ==> lo <= KeyRank(members[i].0) < hi
  }

  /** The code toJSON writes under `name`; "" for a name it never writes. */
  function CodeFor(s: SiteValue, name: string): string
  {
    if name == StationKey then s.station
    else if name == NetworkKey then s.network
    else if name == ChannelKey then s.channel
    else if name == LocationKey then s.location
    else ""
  }

  /** toJSON writes each key exactly when its code is non-empty, holding that
      code up to its first NUL; it writes no other key, and the keys appear in the order
      Station, Network, Channel, Location (so none appears twice). */
  lemma EncodeKeys(s: SiteValue)
    ensures HasMember(Encode(s).members, StationKey) <==> s.station != ""
    ensures HasMember(Encode(s).members, NetworkKey) <==> s.network != ""
    ensures HasMember(Encode(s).members, ChannelKey) <==> s.channel != ""
    ensures HasMember(Encode(s).members, LocationKey) <==> s.location != ""
    ensures forall name :: FindMember(Encode(s).members, name) ==
              if CodeFor(s, name) == "" then None else Some(JString(StringRef(CodeFor(s, name))))
    ensures KeysRanked(Encode(s).members, 0, 4)
    ensures KeysAscending(Encode(s).members)
  {
    forall name
      ensures FindMember(Encode(s).members, name) ==
                if CodeFor(s, name) == "" then None else Some(JString(StringRef(CodeFor(s, name))))
    {
      EncodeFind(s, name);
    }
    var a, b, c, d := Entry(StationKey, s.station), Entry(NetworkKey, s.network),
                      Entry(ChannelKey, s.channel), Entry(LocationKey, s.location);
    EntryRanked(StationKey, s.station);
    EntryRanked(NetworkKey, s.network);
    EntryRanked(ChannelKey, s.channel);
    EntryRanked(LocationKey, s.location);
    ConcatAscending(c, d, 2, 3, 4);
    ConcatAscending(b, c + d, 1, 2, 4);
    ConcatAscending(a, b + (c + d), 0, 1, 4);
  }

  lemma EntryRanked(key: string, code: string)
    requires KeyRank(key) < 4
    ensures KeysRanked(Entry(key, code), KeyRank(key), KeyRank(key) + 1)
    ensures KeysAscending(Entry(key, code))
  {
  }

  lemma ConcatAscending(p: seq<(string, Json)>, q: seq<(string, Json)>, lo: nat, mid: nat, hi: nat)
    requires lo <= mid <= hi
    requires KeysAscending(p) && KeysRanked(p, lo, mid)
    requires KeysAscending(q) && KeysRanked(q, mid, hi)
    ensures KeysAscending(p + q) && KeysRanked(p + q, lo, hi)
  {
    forall i, j | 0 <= i < j < |p + q|
      ensures KeyRank((p + q)[i].0) < KeyRank((p + q)[j].0)
    {
      if j < |p| {
        assert (p + q)[i] == p[i] && (p + q)[j] == p[j];
      } else if i < |p| {
        assert (p + q)[i] == p[i] && (p + q)[j] == q[j - |p|];
      } else {
        assert (p + q)[i] == q[i - |p|] && (p + q)[j] == q[j - |p|];
      }
    }
    forall i | 0 <= i < |p + q|
      ensures lo <= KeyRank((p + q)[i].0) < hi
    {
      if i < |p| {
        assert (p + q)[i] == p[i];
      } else {
        assert (p + q)[i] == q[i - |p|];
      }
    }
  }

  /** Looking a name up in toJSON's output finds its code up to the first
      NUL, or nothing when the code is empty or the name is not one of the
      four keys. */
  lemma EncodeFind(s: SiteValue, name: string)
    ensures FindMember(Encode(s).members, name) ==
              if CodeFor(s, name) == "" then None else Some(JString(StringRef(CodeFor(s, name))))
  {
    var a, b, c, d := Entry(StationKey, s.station), Entry(NetworkKey, s.network),
                      Entry(ChannelKey, s.channel), Entry(LocationKey, s.location);
    FindInConcat(a, b + (c + d), name);
    FindInConcat(b, c + d, name);
    FindInConcat(c, d, name);
    FindInEntry(StationKey, s.station, name);
    FindInEntry(NetworkKey, s.network, name);
    FindInEntry(ChannelKey, s.channel, name);
    FindInEntry(LocationKey, s.location, name);
  }

  lemma FindInEntry(key: string, code: string, name: string)
    ensures FindMember(Entry(key, code), name) ==
              if key == name && code != "" then Some(JString(StringRef(code))) else None
  {
  }

  /** FindMember on a concatenation looks in the second part only when the
      first has no member of that name. */
  lemma {:induction false} FindInConcat(p: seq<(string, Json)>, q: seq<(string, Json)>, name: string)
    ensures FindMember(p + q, name) == if FindMember(p, name).Some? then FindMember(p, name) else FindMember(q, name)
  {
    if |p| > 0 {
      assert (p + q)[1..] == p[1..] + q;
      FindInConcat(p[1..], q, name);
    } else {
      assert p + q == q;
    }
  }

  /** The codes as toJSON writes them: each up to its first NUL. */
  function Written(s: SiteValue): SiteValue
  {
    SiteValue(StringRef(s.station), StringRef(s.channel), StringRef(s.network), StringRef(s.location))
  }

  /** Building a Site from toJSON's output gives back each code up to its
      first NUL: an empty code becomes an absent key and an absent key
      becomes "", while a code that starts with NUL is written as "". */
  lemma RoundTrip(s: SiteValue)
    ensures Decode(Encode(s).members) == Written(s)
  {
    ReadBack(s, StationKey);
    ReadBack(s, NetworkKey);
    ReadBack(s, ChannelKey);
    ReadBack(s, LocationKey);
  }

  /** Reading any name back from toJSON's output gives its code up to the
      first NUL ("" for a name that is not one of the four keys). */
  lemma ReadBack(s: SiteValue, name: string)
    ensures StringMember(Encode(s).members, name) == StringRef(CodeFor(s, name))
  {
    EncodeFind(s, name);
  }

  /** A Site whose codes hold no NUL comes back exactly. */
  lemma RoundTripExact(s: SiteValue)
    requires '\0' !in s.station && '\0' !in s.channel
    requires '\0' !in s.network && '\0' !in s.location
    ensures Decode(Encode(s).members) == s
  {
    RoundTrip(s);
    StringRefWhole(s.station);
    StringRefWhole(s.channel);
    StringRefWhole(s.network);
    StringRefWhole(s.location);
  }

  /** A station holding only a NUL is written as an empty string and comes
      back empty. */
  lemma NulStationComesBackEmpty()
    ensures Encode(SiteValue("\0", "", "US", "")) ==
              JObject([(StationKey, JString("")), (NetworkKey, JString("US"))])
    ensures Decode(Encode(SiteValue("\0", "", "US", "")).members) == SiteValue("", "", "US", "")
  {
    assert StringRef("\0") == "";
    StringRefWhole("US");
    RoundTrip(SiteValue("\0", "", "US", ""));
  }

  /** getErrors reports "Empty Station" exactly when the station is empty and
      "Empty Network" exactly when the network is empty, in that order, and
      nothing else; the list is empty exactly when both are given. */
  lemma ErrorsSpec(s: SiteValue)
    ensures EmptyStationMessage in Errors(s) <==> s.station == ""
    ensures EmptyNetworkMessage in Errors(s) <==> s.network == ""
    ensures forall i :: 0 <= i < |Errors(s)| ==> MessageRank(Errors(s)[i]) < 2
    ensures forall i, j :: 0 <= i < j < |Errors(s)| ==>
              MessageRank(Errors(s)[i]) < MessageRank(Errors(s)[j])
    ensures |Errors(s)| <= 2
    ensures Errors(s) == [] <==> s.station != "" && s.network != ""
  {
  }

  /** getErrors does not look at the channel or the location. */
  lemma ErrorsIgnoreOptional(s: SiteValue, channel: string, location: string)
    ensures Errors(s.(channel := channel, location := location)) == Errors(s)
  {
  }

  /** A Site with station "ABC" and network "US" has no errors and is written
      as exactly those two members. */
  lemma StationAndNetworkOnly()
    ensures Errors(SiteValue("ABC", "", "US", "")) == []
    ensures Encode(SiteValue("ABC", "", "US", "")) == JObject([(StationKey, JString("ABC")), (NetworkKey, JString("US"))])
  {
    StringRefWhole("ABC");
    StringRefWhole("US");
  }

  /** A Site with an empty station reports exactly that. */
  lemma EmptyStationOnly()
    ensures Errors(SiteValue("", "", "US", "")) == [EmptyStationMessage]
  {
  }

  // ---------------------------------------------------------------------
  // The class

  class Site {
    var station: string
    var channel: string
    var network: string
    var location: string

    function Value(): SiteValue
      reads this
    {
      SiteValue(station, channel, network, location)
    }

    /** The default constructor leaves every code empty. */
    constructor ()
      ensures Value() == SiteValue("", "", "", "")
    {
      station := "";
      channel := "";
      network := "";
      location := "";
    }

    /** The advanced constructor stores the four codes as given. */
    constructor Init(newStation: string, newChannel: string, newNetwork: string, newLocation: string)
      ensures Value() == SiteValue(newStation, newChannel, newNetwork, newLocation)
    {
      station := newStation;
      channel := newChannel;
      network := newNetwork;
      location := newLocation;
    }

    /** The JSON constructor: a code is copied when its key is present and
        holds a string, and is "" otherwise. rapidjson requires `json` to be
        an object for HasMember. */
    constructor FromJson(json: JsonNode)
      requires json.value.JObject?
      ensures Value() == Decode(json.value.members)
    {
      var members := json.value.members;
      if HasMember(members, StationKey) && FindMember(members, StationKey).value.JString? {
        station := FindMember(members, StationKey).value.str;
      } else {
        station := "";
      }
      if HasMember(members, NetworkKey) && FindMember(members, NetworkKey).value.JString? {
        network := FindMember(members, NetworkKey).value.str;
      } else {
        network := "";
      }
      if HasMember(members, ChannelKey) && FindMember(members, ChannelKey).value.JString? {
        channel := FindMember(members, ChannelKey).value.str;
      } else {
        channel := "";
      }
      if HasMember(members, LocationKey) && FindMember(members, LocationKey).value.JString? {
        location := FindMember(members, LocationKey).value.str;
      } else {
        location := "";
      }
    }

    /** The copy constructor copies all four codes. */
    constructor Copy(newSite: Site)
      ensures Value() == newSite.Value()
    {
      station := newSite.station;
      channel := newSite.channel;
      network := newSite.network;
      location := newSite.location;
    }

    /** Overwrites `json` with an object holding the non-empty codes, each
        up to its first NUL (StringRef of c_str()). The new
        contents of `json` depend on this Site alone, not on what `json` held. */
    method ToJson(json: JsonNode) returns (r: JsonNode)
      modifies json
      ensures r == json
      ensures json.value == Encode(Value())
    {
      json.SetObject();
      AddCode(json, StationKey, station);
      AddCode(json, NetworkKey, network);
      AddCode(json, ChannelKey, channel);
      AddCode(json, LocationKey, location);
      assert json.value.members == Entry(StationKey, station) + (Entry(NetworkKey, network) + (Entry(ChannelKey, channel) + Entry(LocationKey, location)));
      r := json;
    }

    /** One step of toJSON: when the code is non-empty, fills a fresh value
        with StringRef(code.c_str()) and appends it under `key`. */
    static method AddCode(json: JsonNode, key: string, code: string)
      requires json.value.JObject?
      modifies json
      ensures json.value == JObject(old(json.value.members) + Entry(key, code))
    {
      if code != "" {
        var codevalue := new JsonNode();
        codevalue.SetString(StringRef(code));
        json.AddMember(key, codevalue.value);
      }
    }

    /** The validation errors, in the order station, network. */
    method GetErrors() returns (errorList: seq<string>)
      ensures errorList == Errors(Value())
    {
      errorList := [];
      if station == "" {
        errorList := errorList + [EmptyStationMessage];
      }
      if network == "" {
        errorList := errorList + [EmptyNetworkMessage];
      }
    }
  }
}

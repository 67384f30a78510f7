# Site conversion of the earthquake processing formats, in Dafny

This project models the `Site` conversion class of the USGS earthquake
processing formats library. A Site names a seismic recording site by its
station, network, channel and location codes. The library has two separate
implementations of the class, and each gets its own model.

- **C++ `processingformats::Site`** (module `CppSite`). It has four string
  codes, and the empty string means "not given". Building a Site from a
  rapidjson object never fails: a code is copied when its key is present and
  holds a string, and is `""` otherwise. `toJSON` turns the caller's value
  into an object. It first calls `SetObject`, then appends one member per
  non-empty code with `AddMember`, in the order Station, Network, Channel,
  Location. Each value is set from `StringRef(code.c_str())`, whose length
  comes from `strlen`, so a code is written only up to its first NUL
  character (the key is still written). `getErrors` reports an empty station and an empty network.
- **Java `gov.usgs.processingformats.Site`** (module `JavaSite`). It has four
  codes and three coordinates (latitude, longitude, elevation), each of which
  may be null. `toJSON` leaves out null and empty codes and null
  coordinates. `getErrors` tells "No X" (null) apart from "Empty X" (empty
  string), and it checks that latitude lies in [-90, 90] and longitude in
  [-180, 180]. `isValid` holds exactly when `getErrors` is empty.
  The JSON constructor is not tolerant:
  - it throws a NullPointerException on a member that holds JSON null;
  - it throws a ClassCastException on a coordinate that is not a Double
    (json-simple parses `45` as a Long, so this includes integer literals);
  - it stores any other non-string code as that value's `toString()`.

Each class keeps its fields as mutable Dafny fields, and `Value()` gives
their abstract value. The constructors, setters and `reload` change fields,
and their contracts state the whole new value. The read-only methods
(`GetErrors`, Java `ToJSON`, `IsValid`, the getters) are proved equal to
specification functions on that value: `Decode`, `Encode` and `Errors` in
each module. Lemmas then prove what the library promises about those
functions:
- which keys appear, and in what order;
- which messages appear, in what order and under which condition;
- what a JSON round trip preserves.

Supporting modules:
- `RapidJson` models a rapidjson value with ordered object members. It has
  `FindMember`, which returns the first member with the given name, and
  `HasMember`. `StringRef` is the text a rapidjson StringRef of a C string
  refers to: everything before the first NUL. Its class `JsonNode` has
  `SetString`, `SetObject` and `AddMember`.
- `JsonSimple` models a json-simple value. A `JSONObject` is an unordered
  map, and numbers are either a `JLong` or a `JDouble`.
- `Wrappers` holds `Option`, which models Java's null, and `Result`, which
  models the Java constructor's exceptions.

Where the library's intended design and the code disagree, this model
follows the code:
- By design, required fields are always emitted, even when empty. Both
  implementations leave out an empty Station and an empty
  Network (cpp/src/Site.cpp:86, :93; java/src/gov/usgs/processingformats/Site.java:211, :216).
- By design, construction turns a type-mismatched field into the sentinel.
  The Java constructor instead calls `toString()` on every
  non-null code and throws on a coordinate that is not a Double
  (java/src/gov/usgs/processingformats/Site.java:143, :157).
- By design, validation does no range checks and a Site has four fields.
  The Java Site has seven fields and checks latitude and
  longitude ranges (java/src/gov/usgs/processingformats/Site.java:302, :312).
- The messages differ between the two implementations. C++ writes
  "Site class." and Java writes "Site Class.".

## Model

| member | source | states |
|---|---|---|
| `RapidJson.FindMember` | cpp/src/Site.cpp:32-35 | the result is None exactly when no member has the name; otherwise it is the value of the first member with that name, which is the member `json[KEY]` reads |
| `RapidJson.HasMember` | cpp/src/Site.cpp:32-33 | true exactly when some member has the given name |
| `RapidJson.StringRef` | cpp/src/Site.cpp:88 | the text is a prefix of the code, holds no NUL, and stops only at a NUL of the code |
| `RapidJson.StringRefWhole` | cpp/src/Site.cpp:88 | a code without NUL is referred to whole |
| `RapidJson.JsonNode.constructor` | cpp/src/Site.cpp:87 | a default-constructed value is null |
| `RapidJson.JsonNode.SetString` | cpp/src/Site.cpp:88-89 | the node becomes the given string, whatever it held before |
| `RapidJson.JsonNode.SetObject` | cpp/src/Site.cpp:82 | the node becomes an empty object, whatever it held before |
| `RapidJson.JsonNode.AddMember` | cpp/src/Site.cpp:87-90 | on an object, the new member is appended after all existing members |
| `CppSite.StringMember` | cpp/src/Site.cpp:29-67 | a code read from JSON is `""` when no member has the key; otherwise it is the first such member's string when that member is a string, and `""` when it holds a number or any other non-string |
| `CppSite.Decode` | cpp/src/Site.cpp:29-67 | a code whose key is absent is `""` (what each present key yields is stated by `StringMember` and `RoundTrip`) |
| `CppSite.Encode` | cpp/src/Site.cpp:79-118 | toJSON's output is an object of at most four members (which ones, in which order, is stated by `EncodeKeys`) |
| `CppSite.Errors` | cpp/src/Site.cpp:120-143 | at most two messages (which ones is stated by `ErrorsSpec`) |
| `CppSite.Site.constructor` | cpp/src/Site.cpp:14-19 | all four codes are `""` |
| `CppSite.Site.Init` | cpp/src/Site.cpp:21-27 | the four codes are stored as given |
| `CppSite.Site.FromJson` | cpp/src/Site.cpp:29-67 | for a JSON object (rapidjson's HasMember requires one), the Site holds `Decode` of its members, four codes each read as `StringMember` states |
| `CppSite.Site.Copy` | cpp/src/Site.cpp:69-74 | all four codes are copied from the other Site |
| `CppSite.Site.ToJson` | cpp/src/Site.cpp:79-118 | `json` afterwards holds `Encode` of this Site's codes, each value taken from a fresh node set to `StringRef` of the code, so it does not depend on what `json` held before; the same node is returned, and the Site is unchanged |
| `CppSite.EncodeKeys` | cpp/src/Site.cpp:86-115 | Station, Network, Channel and Location each appear exactly when that code is non-empty (the required ones too), each holding its code up to the first NUL; no other key appears; keys are in that order and none is repeated |
| `CppSite.EncodeFind` | cpp/src/Site.cpp:86-115 | looking any name up in toJSON's output gives the corresponding code, up to its first NUL, as a string, or nothing when the code is empty or the name is not one of the four keys |
| `CppSite.RoundTrip` | cpp/src/Site.cpp:29-118 | building a Site from toJSON's output gives back each code cut at its first NUL: an empty code becomes an absent key, and an absent key becomes empty again |
| `CppSite.ReadBack` | cpp/src/Site.cpp:29-118 | reading any name back from toJSON's output gives that code up to its first NUL, and `""` for an empty code or a name that is not one of the four keys |
| `CppSite.RoundTripExact` | cpp/src/Site.cpp:29-118 | a Site whose codes hold no NUL comes back exactly |
| `CppSite.NulStationComesBackEmpty` | cpp/src/Site.cpp:86-90 | a station holding only a NUL is written as `"Station":""` and comes back as an empty station |
| `CppSite.Site.AddCode` | cpp/src/Site.cpp:86-90 | one step of toJSON: for a non-empty code, one member holding the code up to its first NUL is appended after the existing members; for an empty code the object is unchanged |
| `CppSite.Site.GetErrors` | cpp/src/Site.cpp:120-143 | returns `Errors` of the current codes and changes nothing |
| `CppSite.ErrorsSpec` | cpp/src/Site.cpp:120-143 | "Empty Station in Site class." appears exactly when the station is empty, and "Empty Network in Site class." exactly when the network is empty, in that order; no other message appears; the list has at most two entries and is empty exactly when both codes are given |
| `CppSite.ErrorsIgnoreOptional` | cpp/src/Site.cpp:136-139 | changing the channel or the location never changes the error list |
| `CppSite.StationAndNetworkOnly` | cpp/src/Site.cpp:79-143 | the site with station "ABC" and network "US" has no errors and is written as exactly `{"Station":"ABC","Network":"US"}` |
| `CppSite.EmptyStationOnly` | cpp/src/Site.cpp:125-128 | the site with an empty station and network "US" has exactly the error "Empty Station in Site class." |
| `JavaSite.Decode` | java/src/gov/usgs/processingformats/Site.java:139-190 | an exception names a key the object holds, and an empty object builds the all-null Site (the full outcome is stated by `DecodeOutcome` and `DecodeFields`) |
| `JavaSite.Encode` | java/src/gov/usgs/processingformats/Site.java:198-248 | every value toJSON writes is a string or a Double (which keys, with which values, is stated by `EncodeKeys`) |
| `JavaSite.Errors` | java/src/gov/usgs/processingformats/Site.java:270-332 | at most five messages (which ones, in which order, is stated by `ErrorsCodeMessages`, `ErrorsCoordinateMessages` and `ErrorsOrder`) |
| `JavaSite.Site.constructor` | java/src/gov/usgs/processingformats/Site.java:63-71 | all seven fields are null |
| `JavaSite.Site.Init` | java/src/gov/usgs/processingformats/Site.java:92-98 | every field holds the matching argument (by calling `Reload`) |
| `JavaSite.Site.Reload` | java/src/gov/usgs/processingformats/Site.java:121-131 | every field holds the matching argument, and nothing else changes |
| `JavaSite.Site.FromJSONObject` | java/src/gov/usgs/processingformats/Site.java:139-190 | for an object that the constructor does not throw on, the Site holds `Decode` of that object |
| `JavaSite.DecodeOutcome` | java/src/gov/usgs/processingformats/Site.java:139-190 | the constructor throws exactly when some key it reads holds null, or is a coordinate that is not a Double; it reports the first such key in reading order (Station, Network, Latitude, Longitude, Elevation, Channel, Location), as a NullPointerException for null and a ClassCastException otherwise |
| `JavaSite.DecodeFields` | java/src/gov/usgs/processingformats/Site.java:139-190 | when the constructor does not throw, each field is null exactly when its key is absent; otherwise a code holds the member's `toString()`, which is the string itself for a string, and a coordinate holds the member's Double |
| `JavaSite.Site.ToJSON` | java/src/gov/usgs/processingformats/Site.java:198-248 | returns `Encode` of the current fields and changes nothing |
| `JavaSite.EncodeKeys` | java/src/gov/usgs/processingformats/Site.java:211-244 | a code's key is present exactly when the code is neither null nor empty, and a coordinate's key exactly when it is not null; each holds the field's value; no other key is present |
| `JavaSite.RoundTrip` | java/src/gov/usgs/processingformats/Site.java:139-248 | building a Site from toJSON's output never throws and reproduces every field, except that an empty code comes back as null |
| `JavaSite.RoundTripExact` | java/src/gov/usgs/processingformats/SiteTest.java:26-42 | a Site with no empty code survives the round trip unchanged |
| `JavaSite.WritesJsonCase` | java/src/gov/usgs/processingformats/SiteTest.java:26-42 | the test's full BOZ site survives toJSON and the JSON constructor |
| `JavaSite.ReadsJsonCase` | java/src/gov/usgs/processingformats/SiteTest.java:10-58 | the test's JSON object, once parsed, builds the BOZ site with all seven fields |
| `JavaSite.Site.IsValid` | java/src/gov/usgs/processingformats/Site.java:255-263 | true exactly when the error list is empty |
| `JavaSite.Site.GetErrors` | java/src/gov/usgs/processingformats/Site.java:270-332 | returns `Errors` of the current fields and changes nothing |
| `JavaSite.MessageRanks` | java/src/gov/usgs/processingformats/Site.java:283-321 | the nine messages are distinct texts, and each belongs to one field: station, network, latitude, longitude or elevation |
| `JavaSite.ErrorsRanks` | java/src/gov/usgs/processingformats/Site.java:280-322 | each field's check produces only messages about that field |
| `JavaSite.ErrorsCodeMessages` | java/src/gov/usgs/processingformats/Site.java:280-296 | "No Station" appears exactly when the station is null and "Empty Station" exactly when it is empty; the same holds for the network |
| `JavaSite.ErrorsCoordinateMessages` | java/src/gov/usgs/processingformats/Site.java:298-322 | "No Latitude" appears exactly when the latitude is null, and the latitude range message exactly when it is below -90 or above 90; the same holds for the longitude with bounds -180 and 180; "No Elevation" appears exactly when the elevation is null |
| `JavaSite.ErrorsOrder` | java/src/gov/usgs/processingformats/Site.java:270-332 | at most one message per field, in the order station, network, latitude, longitude, elevation; at most five messages; empty exactly when both codes are non-empty, both coordinates are in range and the elevation is given |
| `JavaSite.ErrorsIgnoreOptional` | java/src/gov/usgs/processingformats/Site.java:324-326 | changing the channel or the location never changes the error list |
| `JavaSite.ValidateCases` | java/src/gov/usgs/processingformats/SiteTest.java:63-82 | the full BOZ site is valid; the all-null site is not, and gets "No" messages for station, network, latitude, longitude and elevation, in that order |
| `JavaSite.Site.GetStation` | java/src/gov/usgs/processingformats/Site.java:337-339 | returns the station |
| `JavaSite.Site.GetChannel` | java/src/gov/usgs/processingformats/Site.java:344-346 | returns the channel |
| `JavaSite.Site.GetNetwork` | java/src/gov/usgs/processingformats/Site.java:351-353 | returns the network |
| `JavaSite.Site.GetLocation` | java/src/gov/usgs/processingformats/Site.java:358-360 | returns the location |
| `JavaSite.Site.GetLatitude` | java/src/gov/usgs/processingformats/Site.java:365-367 | returns the latitude |
| `JavaSite.Site.GetLongitude` | java/src/gov/usgs/processingformats/Site.java:372-374 | returns the longitude |
| `JavaSite.Site.GetElevation` | java/src/gov/usgs/processingformats/Site.java:379-381 | returns the elevation |
| `JavaSite.Site.SetStation` | java/src/gov/usgs/processingformats/Site.java:387-389 | only the station changes, to the argument |
| `JavaSite.Site.SetChannel` | java/src/gov/usgs/processingformats/Site.java:395-397 | only the channel changes, to the argument |
| `JavaSite.Site.SetNetwork` | java/src/gov/usgs/processingformats/Site.java:403-405 | only the network changes, to the argument |
| `JavaSite.Site.SetLocation` | java/src/gov/usgs/processingformats/Site.java:411-413 | only the location changes, to the argument |
| `JavaSite.Site.SetLatitude` | java/src/gov/usgs/processingformats/Site.java:419-421 | only the latitude changes, to the argument |
| `JavaSite.Site.SetLongitude` | java/src/gov/usgs/processingformats/Site.java:427-429 | only the longitude changes, to the argument |
| `JavaSite.Site.SetElevation` | java/src/gov/usgs/processingformats/Site.java:435-437 | only the elevation changes, to the argument |

## Left out

- Text-level JSON is not modelled: `ToJSONString` and `FromJSONString` (cpp/include/util.h:57-68), and the Java `Utility.toJSONString` and `fromJSONString` used by the tests. They only wrap the JSON libraries' writers and parsers, and writing doubles is floating-point formatting. The round trips are stated on JSON values instead.
- The ISO-8601 and epoch-time conversions, `IsStringAlpha` and `IsStringISO8601` (cpp/include/util.h:27-49) are declarations without bodies, and Site does not use them.
- The hypocenter and TravelTimeRequest classes (cpp/include/hypocenter.h, cpp/include/TravelTimeRequest.h) are declarations without bodies. `ProcessingBase`, `ProcessingInt`, Site.h and the Java `Utility` class are not part of this model.
- rapidjson allocators, the lifetime of the buffer a `StringRef` points into, and the empty destructor `~Site` are not modelled. What a `StringRef` of `c_str()` reads (the code up to its first NUL) is modelled by `RapidJson.StringRef`.
- rapidjson's kinds of number (int, unsigned, 64-bit, double) are one `JNumber(real)`: the C++ Site only asks whether a member is a string.
- Java `toString()` on non-string values (a Long, a Double, a Boolean, a nested object or array) is not modelled. It is the `render` parameter, because its text comes from the JDK and json-simple.
- `JavaSite.Site.FromJSONObject`: a Dafny constructor cannot throw, so this constructor requires an object the Java code does not throw on. The exceptions, and which key raises them, are modelled by `Decode` and stated by `DecodeOutcome`.
- `CppSite.Site.FromJson`: requires an object, because rapidjson's `HasMember` asserts that the value is one.
- Java `Double` is modelled as `real`, so NaN, the infinities, negative zero and 64-bit rounding are not represented. With NaN, the source's range checks at java/src/gov/usgs/processingformats/Site.java:302 and :312 would let the value through, because every comparison with NaN is false; the model does not show this. The 64-bit range of a json-simple `Long` is not modelled either.
- A Java `JSONObject` is modelled as a map value rather than a shared mutable object. `toJSON` fills a fresh object and returns it, so no aliasing is lost.

/** The part of rapidjson's value model that the C++ Site conversion uses:
    a JSON value whose object members keep their insertion order, and a
    mutable node with SetObject and AddMember. Allocators and string
    ownership are not modelled. */
module RapidJson {
  import opened Wrappers

  datatype Json =
    | JNull
    | JBool(b: bool)
    | JNumber(num: real)
    | JString(str: string)
    | JArray(elements: seq<Json>)
    | JObject(members: seq<(string, Json)>)

  /** Member i is the first member of `members` whose name is `name`. */
  ghost predicate IsFirstMember(members: seq<(string, Json)>, name: string, i: int)
  {
    && 0 <= i < |members|
    && members[i].0 == name
    && forall j :: 0 <= j < i ==> members[j].0 != name
  }

  /** rapidjson's FindMember: a linear search that stops at the first member
      with the given name (so `json[name]` reads that member). */
  function FindMember(members: seq<(string, Json)>, name: string): (r: Option<Json>)
    ensures r.None? <==> forall i :: 0 <= i < |members| ==> members[i].0 != name
    ensures r.Some? ==> exists i :: IsFirstMember(members, name, i) && members[i].1 == r.value
  {
    if |members| == 0 then None
    else if members[0].0 == name then
      assert IsFirstMember(members, name, 0);
      Some(members[0].1)
    else
      var r := FindMember(members[1..], name);
      FirstMemberOfTail(members, name);
      r
  }

  /** A first member of the tail is, one position further on, a first member
      of the whole list when the head has another name. */
  lemma FirstMemberOfTail(members: seq<(string, Json)>, name: string)
    requires |members| > 0 && members[0].0 != name
    ensures forall i :: IsFirstMember(members[1..], name, i) ==> IsFirstMember(members, name, i + 1)
  {
    forall i | IsFirstMember(members[1..], name, i)
      ensures IsFirstMember(members, name, i + 1)
    {
      forall j | 0 <= j < i + 1
        ensures members[j].0 != name
      {
        if j > 0 { assert members[j] == members[1..][j - 1]; }
      }
    }
  }

  /** rapidjson's HasMember. */
  function HasMember(members: seq<(string, Json)>, name: string): (b: bool)
    ensures b <==> exists i :: 0 <= i < |members| && members[i].0 == name
  {
    FindMember(members, name).Some?
  }

  /** The text `StringRef(code.c_str())` refers to: a StringRef built from a
      C string measures it with strlen, so it ends before the first NUL. */
  function StringRef(code: string): (r: string)
    ensures r <= code
    ensures '\0' !in r
    ensures |r| < |code| ==> code[|r|] == '\0'
  {
    if |code| == 0 || code[0] == '\0' then ""
    else [code[0]] + StringRef(code[1..])
  }

  /** A string without NUL is referred to as a whole. */
  lemma {:induction false} StringRefWhole(code: string)
    requires '\0' !in code
    ensures StringRef(code) == code
  {
    if |code| > 0 {
      assert code[0] in code;
      assert forall c :: c in code[1..] ==> c in code;
      StringRefWhole(code[1..]);
    }
  }

  /** A rapidjson::Value that code fills in place. */
  class JsonNode {
    var value: Json

    /** A default-constructed rapidjson::Value is null. */
    constructor ()
      ensures value == JNull
    {
      value := JNull;
    }

    /** Replaces whatever the node held by a copy of the given text. */
    method SetString(text: string)
      modifies this
      ensures value == JString(text)
    {
      value := JString(text);
    }

    /** Replaces whatever the node held by an empty object. */
    method SetObject()
      modifies this
      ensures value == JObject([])
    {
      value := JObject([]);
    }

    /** Appends a member at the end; rapidjson asserts that the node is an
        object and does not check for an existing member of that name. */
    method AddMember(name: string, v: Json)
      requires value.JObject?
      modifies this
      ensures value == JObject(old(value.members) + [(name, v)])
    {
      value := JObject(value.members + [(name, v)]);
    }
  }
}

/** The part of json-simple's value model that the Java Site conversion uses.
    A JSONObject is a hash map, so its members have no order. The parser
    produces a Long for an integer literal and a Double for a number with a
    fraction or exponent; the two are kept apart because a cast to double
    accepts only the second. */
module JsonSimple {

  datatype JValue =
    | JNull
    | JBool(b: bool)
    | JLong(i: int)
    | JDouble(d: real)
    | JString(str: string)
    | JArray(elements: seq<JValue>)
    | JObject(fields: map<string, JValue>)

  type JSONObject = map<string, JValue>
}

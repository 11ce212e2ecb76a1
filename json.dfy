/** JSON values as the Python `json` module hands them over, and Python's `==` against an int. */
module Json {

  /** A decoded JSON value. Numbers with a fraction or exponent become Python floats; they are
      carried as the real number the float denotes. */
  datatype Json =
    | JNull
    | JBool(b: bool)
    | JInt(i: int)
    | JFloat(x: real)
    | JStr(s: string)
    | JArray(items: seq<Json>)
    | JObject(fields: map<string, Json>)

  /** Python's `v == n` for a decoded JSON value `v` and an int literal `n`: ints and floats
      compare by numeric value, `True`/`False` compare as 1/0, everything else is unequal. */
  function PyEqualsInt(v: Json, n: int): (r: bool)
    ensures v.JInt? ==> (r <==> v.i == n)
    ensures v.JFloat? ==> (r <==> v.x == n as real)
    ensures v.JBool? ==> (r <==> n == (if v.b then 1 else 0))
    ensures v.JNull? || v.JStr? || v.JArray? || v.JObject? ==> !r
  {
    match v
    case JInt(i) => i == n
    case JFloat(x) => x == n as real
    case JBool(b) => (if b then 1 else 0) == n
    case _ => false
  }

  lemma PyEqualsIntTwoHundred(v: Json)
    ensures PyEqualsInt(v, 200) <==> v == JInt(200) || v == JFloat(200.0)
  {
  }
}

/** JSON values as the service's JSON library holds them: integers and floats are told apart. */
module Json {
  import opened Types

  datatype Json =
    | JNull
    | JBool(b: bool)
    | JInt(n: int)
    | JFloat(r: real)
    | JString(s: string)
    | JArray(items: seq<Json>)
    | JObject(fields: map<string, Json>)

  /** `find` on anything but an object finds nothing. */
  function Find(j: Json, tag: string): Option<Json> {
    if j.JObject? && tag in j.fields then Some(j.fields[tag]) else None
  }

  predicate IsNumber(j: Json) {
    j.JInt? || j.JFloat?
  }

  function Truncated(r: real): int {
    if r >= 0.0 then r.Floor else -((-r).Floor)
  }

  /** Rounding is towards zero, on both sides of it. */
  lemma TruncatedTowardsZero(r: real)
    ensures 0.0 <= r ==> Truncated(r) as real <= r < Truncated(r) as real + 1.0
    ensures r <= 0.0 ==> Truncated(r) as real - 1.0 < r <= Truncated(r) as real
  {
    assert -((-r).Floor as real) >= r;
  }

  function NumberOf(j: Json): int
    requires IsNumber(j)
  {
    if j.JInt? then j.n else Truncated(j.r)
  }

  /** Conversion of a JSON number to an unsigned type of the given range. */
  function ToUnsigned(j: Json, range: nat): nat
    requires IsNumber(j) && range > 0
  {
    NumberOf(j) % range
  }

  /** Conversion of a JSON number to a 32-bit signed integer. */
  function ToInt32(j: Json): Int32
    requires IsNumber(j)
  {
    Signed32(NumberOf(j))
  }
}

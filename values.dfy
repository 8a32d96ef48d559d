/**
 * The JavaScript values that the configuration table and the request body
 * carry, JavaScript truthiness, and what a JSON write-then-read does to them.
 */
module Values {

  /** A configuration value: `null`, a boolean, a finite number, `NaN` or a string. */
  datatype Value = Null | Bool(b: bool) | Number(n: real) | NaN | Str(s: string)

  /** JavaScript truthiness (`if (v)`): false, 0, NaN, null and "" are falsy. */
  predicate Truthy(v: Value): (r: bool)
    ensures r <==> v !in {Bool(false), Number(0.0), NaN, Null, Str("")}
  {
    match v
    case Null => false
    case Bool(b) => b
    case Number(n) => n != 0.0
    case NaN => false
    case Str(s) => s != ""
  }

  /** `v && v > 0` for a value that is not a string (strings are not modelled, see README). */
  predicate IsPositive(v: Value): (r: bool)
    ensures r ==> Truthy(v)
    ensures v.Number? ==> (r <==> v.n > 0.0)
    ensures v.Null? || v.NaN? ==> !r
  {
    match v
    case Bool(b) => b
    case Number(n) => n > 0.0
    case _ => false
  }

  /** `JSON.parse(JSON.stringify(v))`: NaN is written as `null`, everything else survives. */
  function Reread(v: Value): (r: Value)
    ensures r != NaN
    ensures v.NaN? ==> r == Null
    ensures v != NaN ==> r == v
  {
    if v.NaN? then Null else v
  }

  /** A whole table written with `JSON.stringify` and read back with `JSON.parse`. */
  function RereadTable(m: map<string, Value>): (r: map<string, Value>)
    ensures r.Keys == m.Keys
    ensures forall k :: k in r ==> r[k] == Reread(m[k])
  {
    map k | k in m :: Reread(m[k])
  }

  /** No value of the table is NaN, so a JSON round trip gives it back unchanged. */
  predicate NoNaN(m: map<string, Value>) {
    forall k :: k in m ==> m[k] != NaN
  }

  lemma RereadTableIdentity(m: map<string, Value>)
    requires NoNaN(m)
    ensures RereadTable(m) == m
  {
  }
}

/**
 * The loosely typed payload the bridge receives: a JSON object read into a
 * Python dict, here a map from keys to a small value type, with the two
 * Python notions the formatter uses on values: `str(v)` and truthiness.
 */
module Values {

  /**
   * A JSON value as Python holds it. Strings, integers, booleans and null
   * are modelled exactly; floats, lists and objects are `Other`, carrying
   * the text Python's `str` gives them and whether Python counts them as true.
   */
  datatype Value =
    | Str(s: string)
    | Int(i: int)
    | Bool(b: bool)
    | Null
    | Other(shown: string, truthy: bool)

  type Payload = map<string, Value>

  /** `payload.get(key, default)`. */
  function Get(p: Payload, key: string, default: Value): Value {
    if key in p then p[key] else default
  }

  /** A lookup sees the value stored under its own key and no other key. */
  lemma GetAfterStore(p: Payload, key: string, k: string, v: Value, default: Value)
    ensures Get(p[key := v], key, default) == v
    ensures k != key ==> Get(p[k := v], key, default) == Get(p, key, default)
  {
  }

  function DigitChar(d: nat): (c: char)
    requires d < 10
    ensures '0' <= c <= '9'
  {
    ('0' as int + d) as char
  }

  /** The decimal digits of `n`, most significant first, as `str(n)` prints them. */
  function NatToString(n: nat): (r: string)
    ensures |r| >= 1
    ensures forall k :: 0 <= k < |r| ==> '0' <= r[k] <= '9'
  {
    if n < 10 then [DigitChar(n)] else NatToString(n / 10) + [DigitChar(n % 10)]
  }

  /** `str(i)` for an integer: a minus sign for negatives, then the digits. */
  function IntToString(i: int): (r: string)
    ensures |r| >= 1
    ensures r[0] == '-' <==> i < 0
    ensures forall k :: (if i < 0 then 1 else 0) <= k < |r| ==> '0' <= r[k] <= '9'
  {
    if i < 0 then "-" + NatToString(-i) else NatToString(i)
  }

  /** `str(v)`, which is also what an f-string placeholder `{v}` prints. */
  function Render(v: Value): (r: string)
    ensures v.Int? ==> |r| >= 1 && (r[0] == '-' <==> v.i < 0)
    ensures v.Int? || v.Bool? || v.Null? ==> forall k :: 0 <= k < |r| ==> r[k] != '\n'
  {
    match v
    case Str(s) => s
    case Int(i) => IntToString(i)
    case Bool(b) => if b then "True" else "False"
    case Null => "None"
    case Other(shown, _) => shown
  }

  /** The values Python counts as false among strings, integers, booleans and None. */
  const FalsyScalars: set<Value> := {Str(""), Int(0), Bool(false), Null}

  /** Python truthiness: the empty string, 0, False and None are false; every other scalar is true. */
  function Truthy(v: Value): (t: bool)
    ensures !v.Other? ==> (t <==> v !in FalsyScalars)
  {
    match v
    case Str(s) => s != ""
    case Int(i) => i != 0
    case Bool(b) => b
    case Null => false
    case Other(_, truthy) => truthy
  }
}

/** PHP values as the toolkit sees them: attribute values, configuration entries
    and decoded JSON response bodies, together with the few PHP operations on
    them that the toolkit relies on (string conversion, `isset`, `??`, nested
    array access and Laravel's `config()` / `data_get`). */
module Values {

  datatype Option<T> = None | Some(value: T)

  const MinInt64: int := -0x8000_0000_0000_0000
  const MaxInt64: int := 0x7FFF_FFFF_FFFF_FFFF

  /** PHP's `int`: a signed 64-bit integer. */
  type Int64 = x: int | MinInt64 <= x <= MaxInt64

  /** A PHP value. Arrays decoded from a JSON list are `List`, arrays with string
      keys (JSON objects, decoded with `assoc = true`) are `Dict`. A float is
      carried as an opaque literal, as written in the code or configuration
      ("0.7", "1.0"); floats are not computed with, and PHP's own formatting of
      a float as a string is not modelled. */
  datatype Value =
    | Null
    | Bool(b: bool)
    | Int(i: Int64)
    | Float(literal: string)
    | Str(s: string)
    | List(items: seq<Value>)
    | Dict(entries: map<string, Value>)

  /** The `$attributes` array of a model. */
  type Attributes = map<string, Value>

  /** Laravel configuration, flattened to dotted keys ("ai.providers.gpt.model"). */
  type Config = map<string, Value>

  /** `config($key, $default)`: an entry that exists is returned even when it is null. */
  function ConfigGet(config: Config, key: string, default: Value): Value
  {
    if key in config then config[key] else default
  }

  /** `$m[$key]`: the stored value, or null (with a PHP warning) when the key is absent. */
  function Read(m: Attributes, key: string): Value
  {
    if key in m then m[key] else Null
  }

  /** `isset($m[$key])`: the key is present and its value is not null. */
  predicate IsSet(m: Attributes, key: string)
  {
    key in m && m[key] != Null
  }

  /** `$m[$key] ?? $default`. */
  function Coalesce(m: Attributes, key: string, default: Value): (v: Value)
    ensures IsSet(m, key) ==> v == m[key] && v != Null
    ensures !IsSet(m, key) ==> v == default
  {
    if IsSet(m, key) then m[key] else default
  }

  function DigitChar(d: nat): char
    requires d < 10
  {
    "0123456789"[d]
  }

  /** The decimal digits of `n`, most significant first, without leading zeros. */
  function NatToDecimal(n: nat): (s: string)
    ensures |s| > 0
    ensures forall k :: 0 <= k < |s| ==> '0' <= s[k] <= '9'
    ensures (s[0] == '0') <==> (n == 0)
    ensures n == 0 ==> s == "0"
  {
    if n < 10 then [DigitChar(n)] else NatToDecimal(n / 10) + [DigitChar(n % 10)]
  }

  function IntToDecimal(i: int): string
  {
    if i < 0 then "-" + NatToDecimal(-i) else NatToDecimal(i)
  }

  /** PHP's conversion of a value to string, as `.` and `"{$x}"` perform it:
      null and false give "", true gives "1", an array gives "Array". */
  function ToPhpString(v: Value): string
  {
    match v
    case Null => ""
    case Bool(b) => if b then "1" else ""
    case Int(i) => IntToDecimal(i)
    case Float(literal) => literal
    case Str(s) => s
    case List(_) => "Array"
    case Dict(_) => "Array"
  }

  /** One step of a nested array access `$v[...]`. */
  datatype Key = Field(name: string) | Index(i: nat)

  /** The element `$v[$key]` when it exists (its value may be null). An integer
      index into a string-keyed array finds the entry under its decimal key, as
      PHP normalises numeric string keys. Field names used with this function are
      never numeric, so a field of a list never exists. A string offset is never
      taken: every path used by the providers ends with a field name, and a field
      of a string is never set. */
  function Child(v: Value, key: Key): Option<Value>
  {
    match v
    case Dict(m) =>
      (match key
       case Field(n) => if n in m then Some(m[n]) else None
       case Index(i) => if NatToDecimal(i) in m then Some(m[NatToDecimal(i)]) else None)
    case List(s) =>
      (match key
       case Field(_) => None
       case Index(i) => if i < |s| then Some(s[i]) else None)
    case _ => None
  }

  /** The element at the end of a nested access path, when every step exists. */
  function Path(v: Value, keys: seq<Key>): Option<Value>
    decreases |keys|
  {
    if keys == [] then Some(v)
    else
      match Child(v, keys[0])
      case None => None
      case Some(c) => Path(c, keys[1..])
  }

  /** `isset($v[k1][k2]...)`: every step exists and the final value is not null. */
  predicate PathIsSet(v: Value, keys: seq<Key>)
  {
    Path(v, keys).Some? && Path(v, keys).value != Null
  }

  /** Laravel's `data_get($v, 'k1.k2', $default)`: the element when every step
      exists (even if it is null), otherwise the default. */
  function DataGet(v: Value, keys: seq<Key>, default: Value): Value
  {
    match Path(v, keys)
    case Some(x) => x
    case None => default
  }
}

/**
 * The slice of `Json::Value` the key file uses: a document is an object
 * from member names to values, and the loader reads members through
 * `isMember`, `isString`, `isIntegral`, `isBool`, `asString`, `asUInt`.
 */
module Json {
  import opened Wrappers
  import opened Primitives

  datatype Json =
    | Null
    | Bool(b: bool)
    | Int(i: int)
    | Real(r: real)
    | Str(s: string)
    | Array(items: seq<Json>)
    | Object(members: seq<(string, Json)>)

  type Document = map<string, Json>

  /** `jv[name]` on a non-const object: a missing member reads as null. */
  function Get(doc: Document, name: string): (v: Json)
    ensures name !in doc ==> v == Null
    ensures name in doc ==> v == doc[name]
  {
    if name in doc then doc[name] else Null
  }

  /** Decimal text of a non-negative integer. */
  function NatText(n: nat): (s: string)
    ensures |s| >= 1
    ensures forall k :: 0 <= k < |s| ==> '0' <= s[k] <= '9'
    decreases n
  {
    var d := ['0' + (n % 10) as char];
    if n < 10 then d else NatText(n / 10) + d
  }

  function IntText(i: int): string
  {
    if i < 0 then "-" + NatText(-i) else NatText(i)
  }

  /**
   * `asString`: strings as they are, null as "", booleans and integers as
   * their text. Reals, arrays and objects are treated as not convertible
   * (`None`), which is where the JSON library throws.
   */
  function AsString(v: Json): (r: Option<string>)
    ensures v.Str? ==> r == Some(v.s)
    ensures r.None? <==> v.Real? || v.Array? || v.Object?
  {
    match v
    case Null => Some("")
    case Bool(b) => Some(if b then "true" else "false")
    case Int(i) => Some(IntText(i))
    case Str(s) => Some(s)
    case Real(_) => None
    case Array(_) => None
    case Object(_) => None
  }

  /** `isIntegral`: integers, and booleans too. */
  predicate IsIntegral(v: Json)
  {
    v.Int? || v.Bool?
  }

  /**
   * `asUInt` on an integral value: a boolean reads as 1 or 0, and an
   * integer fails when a `std::uint32_t` cannot hold it.
   */
  function AsUInt(v: Json): (r: Option<Uint32>)
    requires IsIntegral(v)
    ensures v.Bool? ==> r == Some(if v.b then 1 else 0)
    ensures v.Int? ==> (r.Some? <==> 0 <= v.i <= UINT32_MAX)
    ensures v.Int? && r.Some? ==> r.value == v.i
  {
    match v
    case Bool(b) => Some(if b then 1 else 0)
    case Int(i) => if 0 <= i <= UINT32_MAX then Some(i) else None
  }

  /** No non-string value converts to the name of a key type. */
  lemma {:induction false} NonStringIsNoKeyType(v: Json)
    requires !v.Str?
    requires AsString(v).Some?
    ensures KeyTypeFromString(AsString(v).value).None?
  {
    var s := AsString(v).value;
    match v
    case Null =>
    case Bool(b) =>
    case Int(i) =>
      if i < 0 {
        assert s[0] == '-';
      } else {
        assert '0' <= s[0] <= '9';
      }
  }
}

/** JSON documents as the client reads them through go-simplejson.

    A response body either fails to parse (`Malformed`) or is a document.
    Numbers are kept as literals because the JSON reader is asked to keep
    them as text: only a literal in plain integer syntax can later be read as
    an integer. */
module Json {
  import opened Wrappers

  datatype Number =
    | Integer(i: int)     // a literal such as `42` or `-7`
    | NonInteger          // a literal with a fraction or an exponent

  datatype Value =
    | Null
    | Bool(b: bool)
    | Num(n: Number)
    | Str(s: string)
    | Array(elems: seq<Value>)
    | Object(fields: map<string, Value>)

  datatype Body = Malformed | Doc(root: Value)

  const Int64Min: int := -0x8000_0000_0000_0000
  const Int64Max: int := 0x7FFF_FFFF_FFFF_FFFF

  /** `Get(name)`: the member, or the null document when `v` is not an
      object or has no such member. */
  function Get(v: Value, name: string): Value {
    if v.Object? && name in v.fields then v.fields[name] else Null
  }

  /** `CheckGet(name)`: distinguishes an absent member from a null one. */
  function CheckGet(v: Value, name: string): Option<Value> {
    if v.Object? && name in v.fields then Some(v.fields[name]) else None
  }

  /** `GetIndex(i)`: the i-th element of an array, otherwise null. */
  function GetIndex(v: Value, i: nat): Value {
    if v.Array? && i < |v.elems| then v.elems[i] else Null
  }

  /** `Map()`: succeeds only on an object. */
  function AsMap(v: Value): Option<map<string, Value>> {
    if v.Object? then Some(v.fields) else None
  }

  /** `MustString()`: the string, or "" for anything else. */
  function MustString(v: Value): string {
    if v.Str? then v.s else ""
  }

  /** `Int64()` (and `Int()` on a 64-bit platform): succeeds only on an
      integer literal that fits in a signed 64-bit integer. */
  function AsInt64(v: Value): Option<int> {
    if v.Num? && v.n.Integer? && Int64Min <= v.n.i <= Int64Max then Some(v.n.i) else None
  }
}

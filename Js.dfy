/** JavaScript values as the service sees them: parsed JSON members and
    query-string parameters, their truthiness, `String(v)` conversion, the
    response-body objects that the raw cache holds by reference, and the
    values that the in-memory cache stores. */
module Js {

  datatype Option<T> = None | Some(value: T)

  datatype Result<T> = Ok(value: T) | Err(message: string)

  /** A JSON member or query parameter. `Undef` is JavaScript's `undefined`:
      reading a member that an object does not have gives `Undef`. Numbers are
      integers (no fractions, no NaN). Nested objects are not modelled. */
  datatype Json = Undef | Null | Bool(b: bool) | Num(n: int) | Str(s: string) | Arr(items: seq<Json>)

  /** A plain object: a challenge record, a query object. */
  type Record = map<string, Json>

  /** `obj.key`: a missing member reads as `undefined`. */
  function Get(r: Record, key: string): (v: Json)
    ensures key !in r ==> v == Undef
    ensures key in r ==> v == r[key]
  {
    if key in r then r[key] else Undef
  }

  /** JavaScript truthiness: `undefined`, `null`, `false`, `0` and `""` are
      falsy; every array, even an empty one, is truthy. */
  predicate Truthy(v: Json) {
    match v
    case Undef => false
    case Null => false
    case Bool(b) => b
    case Num(n) => n != 0
    case Str(s) => s != ""
    case Arr(_) => true
  }

  /** `a || b`: the first operand when it is truthy, else the second. */
  function Or(a: Json, b: Json): Json {
    if Truthy(a) then a else b
  }

  /** lodash `_.isEmpty`: strings and arrays are empty when they have no
      elements; `undefined`, `null`, booleans and numbers have no own
      enumerable members and so are always empty. */
  predicate IsEmpty(v: Json) {
    match v
    case Str(s) => |s| == 0
    case Arr(a) => |a| == 0
    case _ => true
  }

  function DigitChar(d: int): char
    requires 0 <= d < 10
  {
    "0123456789"[d]
  }

  /** Decimal text of a natural number, without leading zeros. */
  function NatToString(n: nat): (s: string)
    ensures |s| > 0
    ensures forall i :: 0 <= i < |s| ==> '0' <= s[i] <= '9'
  {
    if n < 10 then [DigitChar(n)] else NatToString(n / 10) + [DigitChar(n % 10)]
  }

  /** `String(n)` for an integer. */
  function IntToString(n: int): string {
    if n < 0 then "-" + NatToString(-n) else NatToString(n)
  }

  /** `a.join(sep)` over strings already converted. */
  function JoinStrings(ss: seq<string>, sep: string): string {
    if |ss| == 0 then ""
    else if |ss| == 1 then ss[0]
    else JoinStrings(ss[..|ss| - 1], sep) + sep + ss[|ss| - 1]
  }

  /** `String(v)`, which is what `+` with a string operand applies. An array
      converts like `arr.join(",")`, where `undefined` and `null` elements
      become empty strings. */
  function ToJsString(v: Json): string
    decreases v, 0
  {
    match v
    case Undef => "undefined"
    case Null => "null"
    case Bool(b) => if b then "true" else "false"
    case Num(n) => IntToString(n)
    case Str(s) => s
    case Arr(a) => JoinStrings(seq(|a|, i requires 0 <= i < |a| => ElementString(a[i])), ",")
  }

  /** How `Array.prototype.join` converts one element. */
  function ElementString(v: Json): string
    decreases v, 1
  {
    if v.Undef? || v.Null? then "" else ToJsString(v)
  }

  /** `arr.join(sep)` when `v` is an array. A value that is not an array is
      rendered as a one-element list. */
  function JoinValue(v: Json, sep: string): string {
    match v
    case Arr(a) => JoinStrings(seq(|a|, i requires 0 <= i < |a| => ElementString(a[i])), sep)
    case _ => ElementString(v)
  }

  /** `JSON.stringify(obj)` for a plain object: the text of an object always
      opens with `{` and closes with `}`; the member text in between (and its
      key order) is left to the abstract encoder `enc`. */
  function ObjectText(enc: Record -> string, q: Record): (t: string)
    ensures |t| >= 2 && t[0] == '{' && t[|t| - 1] == '}'
  {
    "{" + enc(q) + "}"
  }

  /** A parsed upstream response body. It is an object on the heap, and the raw
      cache keeps a reference to it (not a copy), so later writes to `data`
      are seen by every holder of the reference. */
  class Body {
    /** Top-level members of the response other than `data`; the service
        never reassigns them. */
    const fields: Record
    /** The `data` array of records. */
    var data: seq<Record>

    constructor (fields: Record, data: seq<Record>)
      ensures this.fields == fields && this.data == data
    {
      this.fields := fields;
      this.data := data;
    }
  }

  /** A value stored in the in-memory cache: a timestamp, a rendered feed
      (or any other string), or a response body by reference. */
  datatype Cell = Number(n: int) | Text(s: string) | Object(body: Body)

  /** Truthiness of a cached value. */
  predicate CellTruthy(c: Cell) {
    match c
    case Number(n) => n != 0
    case Text(s) => s != ""
    case Object(_) => true
  }

  /** `s` starts with `prefix`. */
  predicate HasPrefix(s: string, prefix: string) {
    |prefix| <= |s| && s[..|prefix|] == prefix
  }
}

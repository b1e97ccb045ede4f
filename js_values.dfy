/** JavaScript values the globe code compares against `null`, `undefined`
    and its falsy/truthy tests, written out so that the modules below can
    follow the source's checks branch by branch. */
module JsValues {

  /** A JavaScript slot that may be `null`, `undefined` or hold a value. */
  datatype Js<T> = Null | Undefined | Val(v: T) {

    /** `x !== null` */
    predicate NotNull() {
      !Null?
    }

    /** `x == null` (loose equality also matches `undefined`) */
    predicate LooselyNull() {
      Null? || Undefined?
    }
  }

  /** A destructuring default `{ x = d } = props`: it applies only when the
      property is `undefined`, never for `null`. */
  function Default<T>(j: Js<T>, d: T): (r: Js<T>)
    ensures j.Undefined? ==> r == Val(d)
    ensures !j.Undefined? ==> r == j
  {
    if j.Undefined? then Val(d) else j
  }

  /** A value that may be missing. */
  datatype Option<T> = None | Some(value: T)

  /** A number produced by unary `+` on a JSON field: either NaN or finite. */
  datatype Num = NaN | Fin(v: real)

  /** JavaScript's `x >= b` against a finite bound: false for NaN. */
  function AtLeast(x: Num, b: real): (r: bool)
    ensures r <==> x.Fin? && x.v >= b
  {
    match x
    case NaN => false
    case Fin(v) => v >= b
  }

  /** JavaScript's `x <= b` against a finite bound: false for NaN. */
  function AtMost(x: Num, b: real): (r: bool)
    ensures r <==> x.Fin? && x.v <= b
  {
    match x
    case NaN => false
    case Fin(v) => v <= b
  }

  /** A JSON scalar as it is read from the data file. */
  datatype Json = Absent | JNull | JBool(b: bool) | JStr(s: string) | JNum(x: real)

  /** JavaScript truthiness of a JSON scalar: `undefined`, `null`, `false`,
      the empty string and the number 0 are falsy. */
  predicate Truthy(j: Json) {
    match j
    case Absent => false
    case JNull => false
    case JBool(b) => b
    case JStr(s) => s != ""
    case JNum(x) => x != 0.0
  }

  /** `a || b` on JSON scalars: `a` when it is truthy, `b` otherwise. */
  function Or(a: Json, b: Json): (r: Json)
    ensures Truthy(a) ==> r == a
    ensures !Truthy(a) ==> r == b
    ensures Truthy(r) <==> Truthy(a) || Truthy(b)
  {
    if Truthy(a) then a else b
  }

  /** Truncation toward zero, as `parseInt` does to a number printed
      without an exponent. Dafny's `Floor` rounds down, so negative values
      are mirrored first. */
  function Trunc(x: real): (r: int)
    ensures x >= 0.0 ==> 0 <= r && r as real <= x < r as real + 1.0
    ensures x < 0.0 ==> r <= 0 && r as real - 1.0 < x <= r as real
  {
    if x >= 0.0 then x.Floor else -((-x).Floor)
  }

  /** `Math.ceil`: the least integer at or above `x`. */
  function Ceil(x: real): (r: int)
    ensures r as real - 1.0 < x <= r as real
  {
    -((-x).Floor)
  }

  const TWO_31: int := 0x8000_0000
  const TWO_32: int := 0x1_0000_0000

  /** `x | 0`: truncation toward zero, then wrap-around into a signed
      32-bit integer (ECMAScript ToInt32). */
  function ToInt32(x: real): (r: int)
    ensures -TWO_31 <= r < TWO_31
    ensures (r - Trunc(x)) % TWO_32 == 0
    ensures -(TWO_31 as real) <= x < TWO_31 as real ==> r == Trunc(x)
  {
    var m := Trunc(x) % TWO_32;
    if m >= TWO_31 then m - TWO_32 else m
  }

  /** An index argument of `Array.prototype.slice`: a negative one counts
      from the end, and both are clamped into `[0, len]`. */
  function RelativeIndex(i: int, len: nat): (r: nat)
    ensures r <= len
  {
    if i < 0 then (if len + i < 0 then 0 else len + i)
    else if i > len then len
    else i
  }

  /** `s.slice(start, end)`. */
  function Slice<T>(s: seq<T>, start: int, end: int): (r: seq<T>)
    ensures |r| <= |s|
  {
    var from := RelativeIndex(start, |s|);
    var to := RelativeIndex(end, |s|);
    if from < to then s[from..to] else []
  }

  /** Within bounds, `slice` is the subsequence. */
  lemma SliceInBounds<T>(s: seq<T>, start: int, end: int)
    requires 0 <= start <= end <= |s|
    ensures Slice(s, start, end) == s[start..end]
  {
  }

  /** A negative start counts back from the end, and one that reaches past
      the front starts at 0. */
  lemma SliceNegativeStart<T>(s: seq<T>, start: int, end: int)
    requires start < 0
    ensures Slice(s, start, end) == Slice(s, if |s| + start < 0 then 0 else |s| + start, end)
  {
  }
}

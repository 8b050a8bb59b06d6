/**
 * JavaScript values as the engine sees them: the fields of a flow node, the
 * payload of an invocation, the variables of a virtual user's context.
 * Numbers are integers here; see README for what that leaves out.
 */
module Js {

  datatype Option<+T> = None | Some(value: T)

  datatype JsValue =
    | Undefined
    | Null
    | Bool(b: bool)
    | Num(n: int)
    | Str(s: string)
    | Arr(items: seq<JsValue>)
    | Obj(fields: map<string, JsValue>)

  /** A virtual user's variables (`context.vars`). */
  type Vars = map<string, JsValue>

  /** JavaScript truthiness: `undefined`, `null`, `false`, `0` and `""` are falsy. */
  predicate Truthy(v: JsValue)
  {
    match v
    case Undefined => false
    case Null => false
    case Bool(b) => b
    case Num(n) => n != 0
    case Str(s) => s != ""
    case Arr(_) => true
    case Obj(_) => true
  }

  /** The value of `a || b`: `a` itself when it is truthy, else `b`. */
  function Or(a: JsValue, b: JsValue): (r: JsValue)
    ensures Truthy(a) ==> r == a
    ensures !Truthy(a) ==> r == b
  {
    if Truthy(a) then a else b
  }

  /** `typeof v === 'object'`, which holds for `null` as well. */
  predicate IsObject(v: JsValue)
  {
    v.Null? || v.Arr? || v.Obj?
  }

  function DigitChar(d: nat): (c: char)
    requires d < 10
    ensures '0' <= c <= '9' && c as int - '0' as int == d
  {
    ('0' as int + d) as char
  }

  /** A string of decimal digits. */
  predicate AllDigits(s: string)
  {
    forall i :: 0 <= i < |s| ==> '0' <= s[i] <= '9'
  }

  /** The number a string of decimal digits denotes. */
  function DecimalValue(s: string): nat
    requires AllDigits(s)
  {
    if s == [] then 0 else 10 * DecimalValue(s[..|s| - 1]) + (s[|s| - 1] as int - '0' as int)
  }

  /** How JavaScript writes a natural number: digits only, no leading zero. */
  predicate Canonical(s: string)
  {
    |s| > 0 && AllDigits(s) && (|s| == 1 || s[0] != '0')
  }

  /** Decimal digits of a natural number, most significant first. */
  function Digits(n: nat): (s: string)
    ensures |s| > 0 && AllDigits(s)
    decreases n
  {
    if n < 10 then [DigitChar(n)] else Digits(n / 10) + [DigitChar(n % 10)]
  }

  /** `Digits(n)` is the canonical decimal form of `n`: read back, it is `n`. */
  lemma {:induction false} DigitsDenote(n: nat)
    ensures Canonical(Digits(n)) && DecimalValue(Digits(n)) == n
    decreases n
  {
    var s := Digits(n);
    if n >= 10 {
      DigitsDenote(n / 10);
      assert s[..|s| - 1] == Digits(n / 10);
      assert s[0] == Digits(n / 10)[0];
      if |Digits(n / 10)| == 1 {
        assert Digits(n / 10) == [DigitChar(n / 10)];
      }
    }
  }

  /** `String(v)` for a value that is not an object (the only ones the engine
   *  converts). A number is written with all its digits, which is what
   *  JavaScript writes for integers of magnitude up to 2^53. */
  function ToJsString(v: JsValue): (r: string)
    requires !IsObject(v)
    ensures v.Str? ==> r == v.s
    ensures v.Undefined? ==> r == "undefined"
    ensures v.Bool? ==> r == (if v.b then "true" else "false")
    ensures v.Num? && v.n >= 0 ==> Canonical(r) && DecimalValue(r) == v.n
    ensures v.Num? && v.n < 0 ==> |r| > 1 && r[0] == '-' && Canonical(r[1..]) && DecimalValue(r[1..]) == -v.n
  {
    match v
    case Undefined => "undefined"
    case Bool(b) => if b then "true" else "false"
    case Num(n) =>
      if n < 0 then
        DigitsDenote(-n);
        assert ("-" + Digits(-n))[1..] == Digits(-n);
        "-" + Digits(-n)
      else
        DigitsDenote(n);
        Digits(n)
    case Str(s) => s
  }
}

/**
 * The slice of JavaScript's value model that the three admin-panel components
 * depend on: JSON-like values, truthiness (`if (x)`, `a && b`, `a || b`),
 * optional property access (`x?.id`) and the string conversion performed by a
 * template literal (`${x}`).
 */
module Js {

  datatype Option<+T> = None | Some(value: T)

  /** A JSON-like JavaScript value. Numbers are integers; arrays are not needed. */
  datatype Value =
    | Undefined
    | Null
    | Bool(b: bool)
    | Num(n: int)
    | Str(s: string)
    | Obj(props: map<string, Value>)

  /** The outcome of evaluating something that may throw. */
  datatype Completion<+T> = Normal(value: T) | Thrown(error: string)

  /** ToBoolean: the values that make `if (v)` take its then-branch. */
  predicate Truthy(v: Value)
  {
    match v
    case Undefined => false
    case Null => false
    case Bool(b) => b
    case Num(n) => n != 0
    case Str(s) => s != ""
    case Obj(_) => true
  }

  /** Truthiness of a value that is either missing or a string. */
  predicate TruthyString(s: Option<string>)
  {
    s.Some? && s.value != ""
  }

  /** `v?.id`: the `id` property of an object, `undefined` for anything else. */
  function OptionalId(v: Value): Value
  {
    if v.Obj? && "id" in v.props then v.props["id"] else Undefined
  }

  function Digit(d: nat): char
    requires d < 10
  {
    "0123456789"[d]
  }

  /** Decimal digits of a natural number, most significant first. */
  function NatToDecimal(n: nat): (r: string)
    ensures |r| >= 1
    ensures forall i :: 0 <= i < |r| ==> '0' <= r[i] <= '9'
  {
    if n < 10 then [Digit(n)] else NatToDecimal(n / 10) + [Digit(n % 10)]
  }

  /** Different numbers have different decimal texts. */
  lemma {:induction false} NatToDecimalInjective(a: nat, b: nat)
    requires NatToDecimal(a) == NatToDecimal(b)
    ensures a == b
  {
    var ta, tb := NatToDecimal(a), NatToDecimal(b);
    if a < 10 && b < 10 {
      assert Digit(a) == ta[0] == tb[0] == Digit(b);
    } else if a >= 10 && b >= 10 {
      assert Digit(a % 10) == ta[|ta| - 1] == tb[|tb| - 1] == Digit(b % 10);
      assert NatToDecimal(a / 10) == ta[..|ta| - 1] == tb[..|tb| - 1] == NatToDecimal(b / 10);
      NatToDecimalInjective(a / 10, b / 10);
    }
  }

  /** Both strings or both numbers: the kinds of value used as document ids. */
  predicate SameIdKind(a: Value, b: Value)
  {
    (a.Str? && b.Str?) || (a.Num? && b.Num?)
  }

  /**
   * Two ids of the same kind with the same text are equal. (A string and a
   * number can share a text: "5" and 5.)
   */
  lemma {:induction false} ToTextDeterminesId(a: Value, b: Value)
    requires SameIdKind(a, b) && ToText(a) == ToText(b)
    ensures a == b
  {
    if a.Num? {
      SignedDecimalInjective(a.n, b.n);
    }
  }

  /** The text of a number: its decimal digits, after a minus sign when negative. */
  function SignedDecimal(n: int): (r: string)
    ensures |r| >= 1
    ensures n < 0 ==> r[0] == '-'
    ensures n >= 0 ==> '0' <= r[0] <= '9'
  {
    if n < 0 then "-" + NatToDecimal(-n) else NatToDecimal(n)
  }

  lemma {:induction false} SignedDecimalInjective(n: int, m: int)
    requires SignedDecimal(n) == SignedDecimal(m)
    ensures n == m
  {
    var tn, tm := SignedDecimal(n), SignedDecimal(m);
    assert n < 0 <==> tn[0] == '-';
    assert m < 0 <==> tm[0] == '-';
    if n < 0 {
      assert NatToDecimal(-n) == tn[1..] == tm[1..] == NatToDecimal(-m);
      NatToDecimalInjective(-n, -m);
    } else {
      NatToDecimalInjective(n, m);
    }
  }

  /**
   * The text `${v}` produces. An object without its own `toString` yields
   * "[object Object]".
   */
  function ToText(v: Value): string
  {
    match v
    case Undefined => "undefined"
    case Null => "null"
    case Bool(b) => if b then "true" else "false"
    case Num(n) => SignedDecimal(n)
    case Str(s) => s
    case Obj(_) => "[object Object]"
  }
}

/**
  The JavaScript values that flow through the backend and the two clients:
  the parsed JSON of the model's answer, the fields of a stored report, and
  the payloads the browser receives.
*/
module Js {

  datatype Value =
    | Undefined
    | Null
    | Bool(b: bool)
    | Num(n: real)
    | Str(s: string)
    | Arr(items: seq<Value>)
    | Obj(fields: map<string, Value>)
      /** Firestore's `FieldValue.serverTimestamp()` placeholder, filled in by the store. */
    | ServerTimestamp

  /** ECMAScript ToBoolean: the falsy values are undefined, null, false, 0 and "". */
  predicate Truthy(v: Value)
    ensures Truthy(v) <==> v !in {Undefined, Null, Bool(false), Num(0.0), Str("")}
  {
    match v
    case Undefined => false
    case Null => false
    case Bool(b) => b
    case Num(n) => n != 0.0
    case Str(s) => s != ""
    case _ => true
  }

  /** The expression `a || b`: the left operand when it is truthy, else the right one. */
  function Or(a: Value, b: Value): (r: Value)
    ensures Truthy(a) ==> r == a
    ensures !Truthy(a) ==> r == b
  {
    if Truthy(a) then a else b
  }

  /** `a || b` is one of its operands, and it is truthy exactly when either operand is. */
  lemma OrIsLogicalOr(a: Value, b: Value)
    ensures Or(a, b) == a || Or(a, b) == b
    ensures Truthy(Or(a, b)) <==> Truthy(a) || Truthy(b)
  {
  }

  /** Property access `v.key` on a value that is not null or undefined. */
  function Get(v: Value, key: string): (r: Value)
    ensures v.Obj? && key in v.fields ==> r == v.fields[key]
    ensures !(v.Obj? && key in v.fields) ==> r == Undefined
  {
    if v.Obj? && key in v.fields then v.fields[key] else Undefined
  }

  // ---------------------------------------------------------------------------
  // ECMAScript ToString
  // ---------------------------------------------------------------------------

  predicate IsDigit(c: char)
  {
    '0' <= c <= '9'
  }

  predicate AllDigits(s: string)
  {
    forall i :: 0 <= i < |s| ==> IsDigit(s[i])
  }

  function DigitChar(d: nat): (c: char)
    requires d < 10
    ensures IsDigit(c) && c as int - '0' as int == d
  {
    (d + '0' as int) as char
  }

  /** The decimal rendering of a natural number, as `String(n)` prints an integer below 1e21. */
  function Decimal(n: nat): (s: string)
    ensures |s| > 0 && AllDigits(s)
    ensures s[0] == '0' ==> n == 0
    decreases n
  {
    if n < 10 then [DigitChar(n)] else Decimal(n / 10) + [DigitChar(n % 10)]
  }

  /** The number a string of decimal digits denotes. */
  function DigitsValue(s: string): nat
    requires AllDigits(s)
    decreases |s|
  {
    if s == [] then 0 else DigitsValue(s[..|s| - 1]) * 10 + (s[|s| - 1] as int - '0' as int)
  }

  /** Reading the digits back gives the timestamp. */
  lemma {:induction false} DecimalRoundTrip(n: nat)
    ensures DigitsValue(Decimal(n)) == n
    decreases n
  {
    if n >= 10 {
      DecimalRoundTrip(n / 10);
      var s := Decimal(n);
      assert s[..|s| - 1] == Decimal(n / 10);
    }
  }

  /** At most this many digits are printed after the decimal point. */
  const MaxFractionDigits: nat := 20

  /** The digits after the decimal point of a fraction `f` in [0, 1), with no trailing zero. */
  function FractionDigits(f: real, k: nat): (s: string)
    requires 0.0 <= f < 1.0
    ensures |s| <= k && AllDigits(s)
    ensures f == 0.0 ==> s == ""
    decreases k
  {
    if f == 0.0 || k == 0 then ""
    else
      var t := f * 10.0;
      var d := t.Floor;
      [DigitChar(d)] + FractionDigits(t - d as real, k - 1)
  }

  /** `String(n)` for a non-negative number, in fixed notation. */
  function Magnitude(x: real): (s: string)
    requires x >= 0.0
    ensures |s| > 0 && IsDigit(s[0])
    ensures x == x.Floor as real ==> s == Decimal(x.Floor)
  {
    var i := x.Floor;
    if x == i as real then Decimal(i)
    else Decimal(i) + "." + FractionDigits(x - i as real, MaxFractionDigits)
  }

  /** Number::toString in fixed notation: an integer prints as its decimal digits, with "-" when negative. */
  function NumberText(n: real): (s: string)
    ensures n == n.Floor as real && n >= 0.0 ==> s == Decimal(n.Floor)
    ensures n == n.Floor as real && n < 0.0 ==> s == "-" + Decimal(-n.Floor)
    ensures |s| > 0 && (n < 0.0 <==> s[0] == '-')
  {
    if n < 0.0 then
      NegatedFloor(n);
      "-" + Magnitude(-n)
    else Magnitude(n)
  }

  /** The floor of the negation of an integer-valued real is the negated floor. */
  lemma NegatedFloor(n: real)
    ensures n == n.Floor as real ==> (-n).Floor == -n.Floor && -n == (-n).Floor as real
  {
  }

  /** An integer's text reads back as the integer. */
  lemma IntegerTextRoundTrip(k: nat)
    ensures AllDigits(NumberText(k as real)) && DigitsValue(NumberText(k as real)) == k
  {
    assert (k as real).Floor == k;
    DecimalRoundTrip(k);
  }

  /** `String(v)` of a JSON value; in an array, undefined and null print as nothing. */
  function ToString(v: Value): (s: string)
    ensures v.Undefined? ==> s == "undefined"
    ensures v.Null? ==> s == "null"
    ensures v.Bool? ==> s == (if v.b then "true" else "false")
    ensures v.Num? ==> s == NumberText(v.n)
    ensures v.Str? ==> s == v.s
    ensures v == Arr([]) ==> s == ""
    ensures v.Obj? || v.ServerTimestamp? ==> s == "[object Object]"
    decreases v, 1, 0
  {
    match v
    case Undefined => "undefined"
    case Null => "null"
    case Bool(b) => if b then "true" else "false"
    case Num(n) => NumberText(n)
    case Str(s) => s
    case Arr(items) => Join(v, items, 0)
    case Obj(_) => "[object Object]"
    case ServerTimestamp => "[object Object]"
  }

  /** `items.slice(i).join(",")` after the `i` items already printed. */
  function Join(parent: Value, items: seq<Value>, i: nat): string
    requires parent == Arr(items) && i <= |items|
    decreases parent, 0, |items| - i
  {
    if i == |items| then ""
    else if i == 0 then ElementText(items[i]) + Join(parent, items, i + 1)
    else "," + ElementText(items[i]) + Join(parent, items, i + 1)
  }

  /** How an array element prints inside `join`: undefined and null as nothing. */
  function ElementText(v: Value): (s: string)
    ensures v.Undefined? || v.Null? ==> s == ""
    ensures !v.Undefined? && !v.Null? ==> s == ToString(v)
    decreases v, 2
  {
    if v.Undefined? || v.Null? then "" else ToString(v)
  }

  /** Past the first item, joining `[x] + rest` goes on as joining `rest`. */
  lemma {:induction false} JoinTail(x: Value, rest: seq<Value>, k: nat)
    requires 1 <= k <= |rest|
    ensures Join(Arr([x] + rest), [x] + rest, k + 1) == Join(Arr(rest), rest, k)
    decreases |rest| - k
  {
    if k < |rest| {
      JoinTail(x, rest, k + 1);
      assert ([x] + rest)[k + 1] == rest[k];
      JoinStep([x] + rest, k + 1);
      JoinStep(rest, k);
    }
  }

  /**
    `String([x, ...rest])`: the first element's text, then, when more
    elements follow, a comma and the text of the rest of the array.
  */
  lemma ArrayText(x: Value, rest: seq<Value>)
    ensures ToString(Arr([x] + rest)) == ElementText(x) + (if rest == [] then "" else "," + ToString(Arr(rest)))
  {
    var items := [x] + rest;
    JoinStart(items);
    if rest == [] {
      assert Join(Arr(items), items, 1) == "";
    } else {
      assert items[1] == rest[0];
      JoinStep(items, 1);
      JoinStart(rest);
      if |rest| > 1 {
        JoinTail(x, rest, 1);
      } else {
        assert Join(Arr(items), items, 2) == "" == Join(Arr(rest), rest, 1);
      }
      AppendAssoc(",", ElementText(rest[0]), Join(Arr(rest), rest, 1));
    }
  }

  lemma AppendAssoc(a: string, b: string, c: string)
    ensures (a + b) + c == a + (b + c)
  {
  }

  /** An array's text starts with its first element's text. */
  lemma JoinStart(items: seq<Value>)
    requires items != []
    ensures ToString(Arr(items)) == ElementText(items[0]) + Join(Arr(items), items, 1)
  {
  }

  /** Every element after the first is preceded by a comma. */
  lemma JoinStep(items: seq<Value>, i: nat)
    requires 0 < i < |items|
    ensures Join(Arr(items), items, i) == "," + ElementText(items[i]) + Join(Arr(items), items, i + 1)
  {
  }

}

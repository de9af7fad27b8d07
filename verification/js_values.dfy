/**
  JavaScript scalar values as they appear in a template filter's data object,
  and the strings that `value + ''` turns them into.
 */
module JsValues {

  /** A scalar JavaScript value. Numbers are restricted to integers. */
  datatype JsScalar = Undefined | Null | Bool(b: bool) | Num(n: int) | Str(s: string)

  predicate IsDigit(c: char) {
    '0' <= c <= '9'
  }

  predicate AllDigits(s: string) {
    forall i | 0 <= i < |s| :: IsDigit(s[i])
  }

  function DigitChar(d: nat): (c: char)
    requires d < 10
    ensures IsDigit(c)
    ensures c as int - '0' as int == d
  {
    ('0' as int + d) as char
  }

  function DigitValue(c: char): (d: nat)
    requires IsDigit(c)
    ensures d < 10
  {
    c as int - '0' as int
  }

  /** The decimal numeral of `n`, most significant digit first, with no leading zero. */
  function Decimal(n: nat): (s: string)
    ensures |s| > 0 && AllDigits(s)
    ensures s[0] == '0' ==> n == 0
    decreases n
  {
    if n < 10 then [DigitChar(n)] else Decimal(n / 10) + [DigitChar(n % 10)]
  }

  /** Reads a numeral back; the partner of `Decimal`. */
  function ParseDecimal(s: string): nat
    requires AllDigits(s)
    decreases |s|
  {
    if |s| == 0 then 0 else ParseDecimal(s[..|s| - 1]) * 10 + DigitValue(s[|s| - 1])
  }

  lemma {:induction false} ParseDecimalInvertsDecimal(n: nat)
    ensures ParseDecimal(Decimal(n)) == n
    decreases n
  {
    if n >= 10 {
      var s := Decimal(n);
      assert s[..|s| - 1] == Decimal(n / 10);
      ParseDecimalInvertsDecimal(n / 10);
    }
  }

  /** Two different naturals never share a numeral. */
  lemma DecimalInjective(m: nat, n: nat)
    ensures Decimal(m) == Decimal(n) <==> m == n
  {
    ParseDecimalInvertsDecimal(m);
    ParseDecimalInvertsDecimal(n);
  }

  /** The string `v + ''` produces. */
  function ToJsString(v: JsScalar): (s: string)
    ensures v.Num? && v.n >= 0 ==> AllDigits(s) && ParseDecimal(s) == v.n
    ensures v.Num? && v.n < 0 ==> |s| > 1 && s[0] == '-' && AllDigits(s[1..]) && ParseDecimal(s[1..]) == -v.n
    ensures v.Num? && v.n >= 0 ==> (|s| > 1 ==> s[0] != '0')
    ensures v.Num? && v.n < 0 ==> s[1] != '0'
    ensures v.Num? ==> |s| > 0
    ensures v.Str? ==> s == v.s
    ensures v == Bool(true) ==> s == "true"
    ensures v == Bool(false) ==> s == "false"
    ensures v == Undefined ==> s == "undefined"
    ensures v == Null ==> s == "null"
  {
    match v
    case Undefined => "undefined"
    case Null => "null"
    case Bool(b) => if b then "true" else "false"
    case Num(n) =>
      if n < 0 then
        ParseDecimalInvertsDecimal(-n);
        "-" + Decimal(-n)
      else
        ParseDecimalInvertsDecimal(n);
        Decimal(n)
    case Str(s) => s
  }

  /** `s.replace(/pat/, '')` for a pattern without regular-expression operators: `s` without the first `pat`. */
  function RemoveFirst(s: string, pat: string): (r: string)
    requires |pat| > 0
    ensures |r| == |s| || |r| + |pat| == |s|
    decreases |s|
  {
    if |s| < |pat| then s
    else if s[..|pat|] == pat then s[|pat|..]
    else [s[0]] + RemoveFirst(s[1..], pat)
  }

  /** A text that cannot start `pat` anywhere is left alone. */
  lemma {:induction false} RemoveFirstAbsent(s: string, pat: string)
    requires |pat| > 0 && pat[0] !in s
    ensures RemoveFirst(s, pat) == s
    decreases |s|
  {
    if |s| >= |pat| {
      assert s[..|pat|][0] == s[0];
      RemoveFirstAbsent(s[1..], pat);
    }
  }

  /** When `x` holds no character that starts `pat`, the first `pat` in `x + pat + y` is the one after `x`. */
  lemma {:induction false} RemoveFirstAfterPrefix(x: string, pat: string, y: string)
    requires |pat| > 0 && pat[0] !in x
    ensures RemoveFirst(x + pat + y, pat) == x + y
    decreases |x|
  {
    var s := x + pat + y;
    if |x| == 0 {
      assert s[..|pat|] == pat;
      assert s[|pat|..] == y;
    } else {
      assert s[..|pat|][0] == x[0];
      assert s[1..] == x[1..] + pat + y;
      RemoveFirstAfterPrefix(x[1..], pat, y);
      assert [x[0]] + (x[1..] + y) == x + y;
    }
  }
}

// How Snowflake orders the fourth CSV column: `order by $4` compares commit timestamps as
// text, while `TO_NUMBER($4)` reads them as decimals.
module TextOrder {

  predicate IsDigit(c: char) { '0' <= c <= '9' }

  predicate AllDigits(s: string) { forall i | 0 <= i < |s| :: IsDigit(s[i]) }

  type Decimal = s: string | AllDigits(s) witness ""

  // A timestamp as TiCDC prints it: at least one digit and no leading zero.
  predicate Canonical(s: string) { |s| > 0 && AllDigits(s) && (|s| > 1 ==> s[0] != '0') }

  function Pow10(n: nat): (p: nat)
    ensures p > 0
  {
    if n == 0 then 1 else 10 * Pow10(n - 1)
  }

  // TO_NUMBER on a string of digits.
  function ToNumber(s: Decimal): nat {
    if s == "" then 0 else (s[0] as int - '0' as int) * Pow10(|s| - 1) + ToNumber(s[1..])
  }

  // Byte-wise text comparison.
  predicate TextLess(a: string, b: string) {
    if b == "" then false
    else if a == "" then true
    else a[0] < b[0] || (a[0] == b[0] && TextLess(a[1..], b[1..]))
  }

  // The text order is a strict total order.
  lemma {:induction false} TextLessIsTotal(a: string, b: string)
    ensures !TextLess(a, a) && !(TextLess(a, b) && TextLess(b, a)) && (TextLess(a, b) || TextLess(b, a) || a == b)
  {
    if a != "" {
      TextLessIsTotal(a[1..], if b == "" then a[1..] else b[1..]);
      assert a == [a[0]] + a[1..] && (b != "" ==> b == [b[0]] + b[1..]);
    }
  }

  lemma {:induction false} TextLessSplits(a: string, b: string, c: string)
    requires TextLess(a, b)
    ensures TextLess(a, c) || TextLess(c, b)
  {
    if a != "" && c != "" {
      if a[0] == b[0] == c[0] {
        TextLessSplits(a[1..], b[1..], c[1..]);
      }
    }
  }

  lemma {:induction false} NumberBelowPower(s: Decimal)
    ensures ToNumber(s) < Pow10(|s|)
  {
    if s != "" {
      NumberBelowPower(s[1..]);
      LeadingDigit(s[0] as int - '0' as int, 9, Pow10(|s| - 1));
    }
  }

  lemma LeadingDigit(d: nat, e: nat, p: nat)
    requires d <= e
    ensures d * p <= e * p
  {
  }

  // On timestamps of one width the text order is the numeric order.
  lemma {:induction false} TextOrderIsNumericOrder(a: Decimal, b: Decimal)
    requires |a| == |b|
    ensures TextLess(a, b) <==> ToNumber(a) < ToNumber(b)
    ensures a == b <==> ToNumber(a) == ToNumber(b)
  {
    if a != "" {
      TextOrderIsNumericOrder(a[1..], b[1..]);
      NumberBelowPower(a[1..]);
      NumberBelowPower(b[1..]);
      var p := Pow10(|a| - 1);
      var da, db := a[0] as int - '0' as int, b[0] as int - '0' as int;
      LeadingDigitDecides(da, ToNumber(a[1..]), db, ToNumber(b[1..]), p);
      LeadingDigitDecides(db, ToNumber(b[1..]), da, ToNumber(a[1..]), p);
      assert a == [a[0]] + a[1..] && b == [b[0]] + b[1..];
    }
  }

  lemma LeadingDigitDecides(d: nat, x: nat, e: nat, y: nat, p: nat)
    requires x < p
    ensures d < e ==> d * p + x < e * p + y
  {
    if d < e {
      LeadingDigit(d + 1, e, p);
    }
  }

  function Repeat(c: char, n: nat): (s: string)
    ensures |s| == n && forall i | 0 <= i < n :: s[i] == c
  {
    if n == 0 then "" else [c] + Repeat(c, n - 1)
  }

  ghost predicate OrdersAgree(m: nat, n: nat) {
    forall a: Decimal, b: Decimal {:trigger TextLess(a, b)} ::
      Canonical(a) && Canonical(b) && |a| == m && |b| == n ==>
        (TextLess(a, b) <==> ToNumber(a) < ToNumber(b))
  }

  // The widths on which `order by $4 desc` ranks rows by commit time are exactly the equal ones.
  lemma OrdersAgreeIffEqualWidth(m: nat, n: nat)
    requires m > 0 && n > 0
    ensures OrdersAgree(m, n) <==> m == n
  {
    if m == n {
      forall a: Decimal, b: Decimal | Canonical(a) && Canonical(b) && |a| == m && |b| == n
        ensures TextLess(a, b) <==> ToNumber(a) < ToNumber(b)
      {
        TextOrderIsNumericOrder(a, b);
      }
    } else if m < n {
      var a, b := Repeat('9', m), "1" + Repeat('0', n - 1);
      WiderIsLarger(a, b);
      assert !TextLess(a, b);
    } else {
      var a, b := "1" + Repeat('0', m - 1), Repeat('9', n);
      WiderIsLarger(b, a);
      assert TextLess(a, b);
    }
  }

  // A canonical decimal with more digits is the larger number.
  lemma WiderIsLarger(a: Decimal, b: Decimal)
    requires Canonical(a) && Canonical(b) && |a| < |b|
    ensures ToNumber(a) < ToNumber(b)
  {
    NumberBelowPower(a);
    PowersGrow(|a|, |b| - 1);
    LeadingDigit(1, b[0] as int - '0' as int, Pow10(|b| - 1));
  }

  // Canonical decimals of one number are one text.
  lemma CanonicalIsUnique(a: Decimal, b: Decimal)
    requires Canonical(a) && Canonical(b)
    ensures a == b <==> ToNumber(a) == ToNumber(b)
  {
    if |a| == |b| {
      TextOrderIsNumericOrder(a, b);
    } else if |a| < |b| {
      WiderIsLarger(a, b);
    } else {
      WiderIsLarger(b, a);
    }
  }

  lemma {:induction false} PowersGrow(m: nat, n: nat)
    requires m <= n
    ensures Pow10(m) <= Pow10(n)
  {
    if m < n {
      PowersGrow(m, n - 1);
    }
  }
}

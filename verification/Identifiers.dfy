// Snowflake identifiers (pkg/snowflake/sql.go): how names are quoted, and what a quoted name is
// read back as. Characters are ASCII.
module Identifiers {
  import opened Wrappers

  function UpperChar(c: char): char { if 'a' <= c <= 'z' then (c as int - 32) as char else c }
  function LowerChar(c: char): char { if 'A' <= c <= 'Z' then (c as int + 32) as char else c }

  function Upper(s: string): string {
    if s == "" then "" else [UpperChar(s[0])] + Upper(s[1..])
  }

  function Fold(s: string): string {
    if s == "" then "" else [LowerChar(s[0])] + Fold(s[1..])
  }

  lemma {:induction false} CharByChar(s: string)
    ensures |Upper(s)| == |s| && forall i | 0 <= i < |s| :: Upper(s)[i] == UpperChar(s[i])
    ensures |Fold(s)| == |s| && forall i | 0 <= i < |s| :: Fold(s)[i] == LowerChar(s[i])
  {
    if s != "" {
      CharByChar(s[1..]);
    }
  }

  predicate EqualFold(a: string, b: string) { Fold(a) == Fold(b) }

  predicate IdentStart(c: char) { 'A' <= c <= 'Z' || 'a' <= c <= 'z' || c == '_' }
  predicate IdentPart(c: char) { IdentStart(c) || '0' <= c <= '9' || c == '$' }

  predicate Regular(s: string) {
    s != "" && IdentStart(s[0]) && forall i | 1 <= i < |s| :: IdentPart(s[i])
  }

  // The loop of isSnowflakeRegularIdent.
  method IsSnowflakeRegularIdent(s: string) returns (b: bool)
    ensures b <==> Regular(s)
  {
    if s == "" {
      return false;
    }
    if !IdentStart(s[0]) {
      return false;
    }
    for i := 1 to |s|
      invariant forall j | 1 <= j < i :: IdentPart(s[j])
    {
      if !IdentPart(s[i]) {
        return false;
      }
    }
    return true;
  }

  // The name an identifier has in Snowflake.
  function Resolve(s: string): string { if Regular(s) then Upper(s) else s }

  function Doubled(s: string): string {
    if s == "" then ""
    else (if s[0] == '"' then ['"', '"'] else [s[0]]) + Doubled(s[1..])
  }

  function QuoteIdent(s: string): string { ['"'] + Doubled(Resolve(s)) + ['"'] }

  function QuoteQualifiedIdent(idents: seq<string>): string {
    if idents == [] then ""
    else if |idents| == 1 then QuoteIdent(idents[0])
    else QuoteIdent(idents[0]) + "." + QuoteQualifiedIdent(idents[1..])
  }

  // ----- Reading quoted names -----

  // The rest of a quoted name: the name and what follows its closing quote.
  function ReadQuoted(s: string): Option<(string, string)> {
    if s == "" then None
    else if s[0] != '"' then
      match ReadQuoted(s[1..])
      case None => None
      case Some((name, rest)) => Some(([s[0]] + name, rest))
    else if |s| > 1 && s[1] == '"' then
      match ReadQuoted(s[2..])
      case None => None
      case Some((name, rest)) => Some((['"'] + name, rest))
    else Some(("", s[1..]))
  }

  lemma ReadQuotedShortens(s: string)
    ensures ReadQuoted(s).Some? ==> |ReadQuoted(s).value.1| < |s|
  {
  }

  // A dotted name of quoted parts.
  function ReadQualified(s: string): Option<seq<string>>
    decreases |s|
  {
    if s == "" || s[0] != '"' then None
    else
      match ReadQuoted(s[1..])
      case None => None
      case Some((name, rest)) =>
        ReadQuotedShortens(s[1..]);
        if rest == "" then Some([name])
        else if rest[0] != '.' then None
        else
          match ReadQualified(rest[1..])
          case None => None
          case Some(names) => Some([name] + names)
  }

  lemma {:induction false} ReadDoubled(s: string, rest: string)
    requires rest == "" || rest[0] != '"'
    ensures ReadQuoted(Doubled(s) + ['"'] + rest) == Some((s, rest))
  {
    var t := Doubled(s) + ['"'] + rest;
    if s == "" {
      assert t[1..] == rest;
    } else {
      ReadDoubled(s[1..], rest);
      var tail := Doubled(s[1..]) + ['"'] + rest;
      if s[0] == '"' {
        assert t[2..] == tail;
      } else {
        assert t[1..] == tail;
      }
      assert s == [s[0]] + s[1..];
    }
  }

  function ResolveAll(idents: seq<string>): (r: seq<string>)
    ensures |r| == |idents| && forall i | 0 <= i < |r| :: r[i] == Resolve(idents[i])
  {
    if idents == [] then [] else [Resolve(idents[0])] + ResolveAll(idents[1..])
  }

  // Reading a quoted dotted name gives back each part, up to the case of regular identifiers.
  lemma {:induction false} QualifiedRoundTrip(idents: seq<string>)
    requires idents != []
    ensures ReadQualified(QuoteQualifiedIdent(idents)) == Some(ResolveAll(idents))
  {
    hide Resolve, Doubled, ReadQuoted;
    var s := QuoteQualifiedIdent(idents);
    if |idents| == 1 {
      ReadDoubled(Resolve(idents[0]), "");
      assert s[1..] == Doubled(Resolve(idents[0])) + ['"'] + "";
      assert ResolveAll(idents) == [Resolve(idents[0])];
    } else {
      var rest := "." + QuoteQualifiedIdent(idents[1..]);
      ReadDoubled(Resolve(idents[0]), rest);
      assert s[1..] == Doubled(Resolve(idents[0])) + ['"'] + rest;
      assert rest[1..] == QuoteQualifiedIdent(idents[1..]);
      QualifiedRoundTrip(idents[1..]);
    }
  }

  // ----- The case of names -----

  const LOWER_CASE := "abcdefghijklmnopqrstuvwxyz"
  const UPPER_CASE := "ABCDEFGHIJKLMNOPQRSTUVWXYZ"
  const DIGITS := "0123456789"

  // A letter of each alphabet at the same place.
  lemma LettersPair(c: char)
    ensures c in LOWER_CASE <==> 'a' <= c <= 'z'
    ensures c in UPPER_CASE <==> 'A' <= c <= 'Z'
    ensures c in DIGITS <==> '0' <= c <= '9'
    ensures forall i | 0 <= i < 26 :: LOWER_CASE[i] as int == 'a' as int + i && UPPER_CASE[i] as int == 'A' as int + i
  {
    LettersInOrder();
    if 'a' <= c <= 'z' {
      assert c == LOWER_CASE[c as int - 'a' as int];
    }
    if 'A' <= c <= 'Z' {
      assert c == UPPER_CASE[c as int - 'A' as int];
    }
    if '0' <= c <= '9' {
      assert c == DIGITS[c as int - '0' as int];
    }
  }

  lemma LettersInOrder()
    ensures |LOWER_CASE| == |UPPER_CASE| == 26 && |DIGITS| == 10
    ensures forall i | 0 <= i < 26 :: LOWER_CASE[i] as int == 'a' as int + i && UPPER_CASE[i] as int == 'A' as int + i
    ensures forall i | 0 <= i < 10 :: DIGITS[i] as int == '0' as int + i
  {
  }

  // A regular identifier begins with a letter or `_` and goes on with those, digits and `$`.
  lemma RegularIff(s: string)
    ensures Regular(s) <==>
              && s != "" && s[0] in LOWER_CASE + UPPER_CASE + "_"
              && forall i | 0 <= i < |s| :: s[i] in LOWER_CASE + UPPER_CASE + "_" + DIGITS + "$"
  {
    forall c ensures IdentStart(c) <==> c in LOWER_CASE + UPPER_CASE + "_" {
      LettersPair(c);
    }
    forall c ensures IdentPart(c) <==> c in LOWER_CASE + UPPER_CASE + "_" + DIGITS + "$" {
      LettersPair(c);
    }
  }

  // d is c in upper case.
  ghost predicate IsUpperOf(d: char, c: char) {
    if c in LOWER_CASE then exists j :: 0 <= j < 26 && LOWER_CASE[j] == c && UPPER_CASE[j] == d else d == c
  }

  lemma UpperIsUpper(c: char)
    ensures IsUpperOf(UpperChar(c), c)
  {
    LettersPair(c);
    if c in LOWER_CASE {
      var j := c as int - 'a' as int;
      assert LOWER_CASE[j] == c && UPPER_CASE[j] == UpperChar(c);
    }
  }

  // A name is read back from its quoted form with its lower-case letters in upper case if it is regular,
  // and as it is if not.
  ghost predicate ReadAs(s: string, t: string) {
    if Regular(s) then |t| == |s| && forall i | 0 <= i < |s| :: IsUpperOf(t[i], s[i]) else t == s
  }

  lemma ResolvedIsReadAs(s: string)
    ensures ReadAs(s, Resolve(s))
  {
    hide IsUpperOf, Regular, UpperChar;
    if Regular(s) {
      CharByChar(s);
      forall i | 0 <= i < |s| ensures IsUpperOf(Resolve(s)[i], s[i]) {
        UpperIsUpper(s[i]);
      }
    }
  }

  // What Snowflake reads of a dotted name is each part so.
  lemma QuotedIsReadAs(idents: seq<string>)
    requires idents != []
    ensures var read := ReadQualified(QuoteQualifiedIdent(idents));
            read.Some? && |read.value| == |idents| && forall i | 0 <= i < |idents| :: ReadAs(idents[i], read.value[i])
  {
    QualifiedRoundTrip(idents);
    hide ReadQualified, QuoteQualifiedIdent, Resolve, ReadAs;
    forall i | 0 <= i < |idents| ensures ReadAs(idents[i], ResolveAll(idents)[i]) {
      ResolvedIsReadAs(idents[i]);
    }
  }

  // For one name.
  lemma QuotedNameIsReadAs(s: string)
    ensures var read := ReadQualified(QuoteIdent(s)); read.Some? && |read.value| == 1 && ReadAs(s, read.value[0])
  {
    QuotedIsReadAs([s]);
  }

  // ----- When two names are one in Snowflake -----

  lemma {:induction false} FoldsAgree(a: string, b: string)
    ensures Upper(a) == Upper(b) <==> EqualFold(a, b)
  {
    CharByChar(a);
    CharByChar(b);
    if a != "" && b != "" {
      FoldsAgree(a[1..], b[1..]);
      FoldsAgreeHere(a[0], b[0]);
      Heads(Upper(a), Upper(b));
      Heads(Fold(a), Fold(b));
    }
  }

  lemma FoldsAgreeHere(c: char, d: char)
    ensures UpperChar(c) == UpperChar(d) <==> LowerChar(c) == LowerChar(d)
  {
  }

  lemma Heads(a: string, b: string)
    requires a != "" && b != ""
    ensures a == b <==> a[0] == b[0] && a[1..] == b[1..]
  {
    assert a == [a[0]] + a[1..] && b == [b[0]] + b[1..];
  }

  lemma UpperIsRegular(s: string)
    ensures Regular(Upper(s)) <==> Regular(s)
    ensures Fold(Upper(s)) == Fold(s)
  {
    CharByChar(s);
    CharByChar(Upper(s));
    assert forall i | 0 <= i < |s| :: IdentPart(Upper(s)[i]) <==> IdentPart(s[i]);
    assert forall i | 0 <= i < |s| :: Fold(Upper(s))[i] == Fold(s)[i];
  }

  // Quoting makes two names one exactly if they are equal, or both regular and equal but for case.
  lemma SameIdentifier(a: string, b: string)
    ensures QuoteIdent(a) == QuoteIdent(b) <==> Resolve(a) == Resolve(b)
    ensures Resolve(a) == Resolve(b) <==> a == b || (Regular(a) && Regular(b) && EqualFold(a, b))
  {
    ReadDoubled(Resolve(a), "");
    ReadDoubled(Resolve(b), "");
    assert QuoteIdent(a)[1..] == Doubled(Resolve(a)) + ['"'] + "";
    assert QuoteIdent(b)[1..] == Doubled(Resolve(b)) + ['"'] + "";
    FoldsAgree(a, b);
    UpperIsRegular(a);
    UpperIsRegular(b);
    if EqualFold(a, b) {
      SameShape(a, b);
    }
  }

  lemma SameShape(a: string, b: string)
    requires EqualFold(a, b)
    ensures Regular(a) <==> Regular(b)
  {
    CharByChar(a);
    CharByChar(b);
    assert |a| == |Fold(a)| == |Fold(b)| == |b|;
    assert forall i | 0 <= i < |a| :: LowerChar(a[i]) == Fold(a)[i] == LowerChar(b[i]);
    assert forall i | 0 <= i < |a| :: IdentPart(a[i]) <==> IdentPart(b[i]);
    assert a != "" ==> (IdentStart(a[0]) <==> IdentStart(b[0]));
  }
}

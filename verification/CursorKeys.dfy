// The keys under which DML cursors are stored: "<version>/<partition>/CDC".
module CursorKeys {
  import opened Wrappers
  import opened TextOrder
  import opened Discovery

  const MAX_UINT64: nat := 0xFFFF_FFFF_FFFF_FFFF
  const MAX_INT64: nat := 0x7FFF_FFFF_FFFF_FFFF

  // A stream the source can represent: uint64 version, int64 partition.
  predicate Fits(s: Scope) {
    s.version <= MAX_UINT64 && -(MAX_INT64 as int) - 1 <= s.partition <= MAX_INT64
  }

  function Digit(d: nat): (c: char)
    requires d < 10
    ensures IsDigit(c) && c as int - '0' as int == d
  {
    (d + '0' as int) as char
  }

  function PrintNat(n: nat): (s: Decimal)
    ensures s != ""
  {
    (if n < 10 then "" else PrintNat(n / 10)) + [Digit(n % 10)]
  }

  function PrintInt(i: int): string {
    if i < 0 then "-" + PrintNat(-i) else PrintNat(i)
  }

  // strconv.ParseUint(s, 10, 64).
  function ParseUint(s: string): Result<nat> {
    if s == "" || !AllDigits(s) then Err("syntax")
    else if ToNumber(s) > MAX_UINT64 then Err("range")
    else Ok(ToNumber(s))
  }

  // strconv.ParseInt(s, 10, 64): a sign is optional.
  function ParseInt(s: string): Result<int> {
    if s == "" then Err("syntax")
    else
      var digits := if s[0] == '-' || s[0] == '+' then s[1..] else s;
      if digits == "" || !AllDigits(digits) then Err("syntax")
      else
        var i: int := if s[0] == '-' then -(ToNumber(digits) as int) else ToNumber(digits);
        if -(MAX_INT64 as int) - 1 <= i <= MAX_INT64 then Ok(i) else Err("range")
  }

  // strings.Split by one character.
  function Split(s: string, sep: char): (parts: seq<string>)
    ensures |parts| > 0
  {
    if s == "" then [""]
    else
      var rest := Split(s[1..], sep);
      if s[0] == sep then [""] + rest else [[s[0]] + rest[0]] + rest[1..]
  }

  function CursorKey(s: Scope): string {
    PrintNat(s.version) + "/" + PrintInt(s.partition) + "/CDC"
  }

  // A key that does not parse makes the source panic.
  function ParseCursorKey(key: string): Result<(Scope, string)> {
    var parts := Split(key, '/');
    if |parts| != 3 then Err("invalid DML cursor key")
    else
      var version, partition := ParseUint(parts[0]), ParseInt(parts[1]);
      if version.Err? then Err("invalid DML cursor table version")
      else if partition.Err? then Err("invalid DML cursor partition number")
      else Ok((Scope(version.value, partition.value), parts[2]))
  }

  // ----- Round trip -----

  lemma {:induction false} AppendDigit(s: Decimal, c: char)
    requires IsDigit(c)
    ensures ToNumber(s + [c]) == 10 * ToNumber(s) + (c as int - '0' as int)
  {
    var s2: Decimal := s + [c];
    var d := s2[0] as int - '0' as int;
    if s == "" {
      assert s2[1..] == "";
      assert Pow10(0) == 1;
    } else {
      assert s2[1..] == s[1..] + [c];
      AppendDigit(s[1..], c);
      assert Pow10(|s|) == 10 * Pow10(|s| - 1);
      TimesTen(d, Pow10(|s| - 1));
    }
  }

  lemma TimesTen(d: int, p: int)
    ensures d * (10 * p) == 10 * (d * p)
  {
  }

  lemma {:induction false} PrintedNumber(n: nat)
    ensures ToNumber(PrintNat(n)) == n
  {
    if n >= 10 {
      PrintedNumber(n / 10);
    }
    AppendDigit(if n < 10 then "" else PrintNat(n / 10), Digit(n % 10));
  }

  predicate Free(s: string, c: char) { forall i | 0 <= i < |s| :: s[i] != c }

  lemma {:induction false} SplitFirst(a: string, sep: char, rest: string)
    requires Free(a, sep)
    ensures rest == "" ==> Split(a, sep) == [a]
    ensures Split(a + [sep] + rest, sep) == [a] + Split(rest, sep)
  {
    var s := a + [sep] + rest;
    if a == "" {
      assert s[1..] == rest;
    } else {
      SplitFirst(a[1..], sep, rest);
      assert s[1..] == a[1..] + [sep] + rest;
      assert a == [a[0]] + a[1..];
    }
  }

  lemma IntRoundTrip(i: int)
    requires -(MAX_INT64 as int) - 1 <= i <= MAX_INT64
    ensures ParseInt(PrintInt(i)) == Ok(i) && Free(PrintInt(i), '/')
  {
    if i < 0 {
      PrintedNumber(-i);
      assert PrintInt(i)[1..] == PrintNat(-i);
    } else {
      PrintedNumber(i);
      assert IsDigit(PrintNat(i)[0]);
    }
  }

  lemma SplitKey(v: string, p: string)
    requires Free(v, '/') && Free(p, '/')
    ensures Split(v + "/" + p + "/CDC", '/') == [v, p, "CDC"]
  {
    SplitFirst(v, '/', p + "/CDC");
    SplitFirst(p, '/', "CDC");
    SplitFirst("CDC", '/', "");
    assert v + "/" + p + "/CDC" == v + ['/'] + (p + "/CDC");
    assert p + "/CDC" == p + ['/'] + "CDC";
  }

  lemma CursorKeyRoundTrip(s: Scope)
    requires Fits(s)
    ensures ParseCursorKey(CursorKey(s)) == Ok((s, "CDC"))
  {
    PrintedNumber(s.version);
    IntRoundTrip(s.partition);
    SplitKey(PrintNat(s.version), PrintInt(s.partition));
  }

  lemma CursorKeysDiffer(a: Scope, b: Scope)
    requires Fits(a) && Fits(b)
    ensures CursorKey(a) == CursorKey(b) <==> a == b
  {
    CursorKeyRoundTrip(a);
    CursorKeyRoundTrip(b);
  }

  // The text of a key, as it stands in state files.
  lemma KeyText()
    ensures CursorKey(Scope(150, 0)) == "150/0/CDC" && CursorKey(Scope(7, -12)) == "7/-12/CDC"
  {
    assert PrintNat(0) == "0" && PrintNat(1) == "1" && PrintNat(7) == "7";
    assert PrintNat(15) == PrintNat(1) + "5";
    assert PrintNat(150) == PrintNat(15) + "0";
    assert PrintNat(12) == PrintNat(1) + "2";
  }

  // ----- Which texts are keys -----

  function Join(parts: seq<string>, sep: char): string
    requires parts != []
  {
    if |parts| == 1 then parts[0] else parts[0] + [sep] + Join(parts[1..], sep)
  }

  lemma {:induction false} SplitJoins(s: string, sep: char)
    ensures Join(Split(s, sep), sep) == s && forall part | part in Split(s, sep) :: Free(part, sep)
  {
    if s != "" {
      var rest := Split(s[1..], sep);
      SplitJoins(s[1..], sep);
      assert rest[0] in rest;
      assert s == [s[0]] + s[1..];
      if s[0] != sep {
        JoinFirst(s[0], rest, sep);
      }
    }
  }

  lemma JoinFirst(c: char, rest: seq<string>, sep: char)
    requires rest != []
    ensures Join([[c] + rest[0]] + rest[1..], sep) == [c] + Join(rest, sep)
  {
    var longer := [[c] + rest[0]] + rest[1..];
    assert longer[1..] == rest[1..];
  }

  // Decimal digits, at least one, for a number the type holds; a sign may come before an int64's.
  predicate IsUint(t: string, n: nat) { t != "" && AllDigits(t) && ToNumber(t) == n <= MAX_UINT64 }

  predicate IsInt(t: string, i: int) {
    && -(MAX_INT64 as int) - 1 <= i <= MAX_INT64
    && ((t != "" && AllDigits(t) && ToNumber(t) == i)
        || (|t| > 1 && AllDigits(t[1..]) && ((t[0] == '+' && ToNumber(t[1..]) == i) || (t[0] == '-' && ToNumber(t[1..]) == -i))))
  }

  lemma NumbersParse(t: string)
    ensures forall n: nat :: ParseUint(t) == Ok(n) <==> IsUint(t, n)
    ensures forall i :: ParseInt(t) == Ok(i) <==> IsInt(t, i)
  {
  }

  // A key is a version, a partition and a rest, with a slash between each two.
  predicate IsKey(key: string, version: string, partition: string, rest: string) {
    key == version + "/" + partition + "/" + rest && Free(version, '/') && Free(partition, '/') && Free(rest, '/')
  }

  lemma KeyIsSplit(key: string, v: string, p: string, rest: string)
    requires IsKey(key, v, p, rest)
    ensures Split(key, '/') == [v, p, rest]
  {
    SplitFirst(v, '/', p + "/" + rest);
    SplitFirst(p, '/', rest);
    SplitFirst(rest, '/', "");
    hide Split, Free;
    assert key == v + ['/'] + (p + "/" + rest);
    assert p + "/" + rest == p + ['/'] + rest;
  }

  lemma SplitIsKey(key: string)
    requires |Split(key, '/')| == 3
    ensures var parts := Split(key, '/'); IsKey(key, parts[0], parts[1], parts[2])
  {
    SplitJoins(key, '/');
    var parts := Split(key, '/');
    hide Split, Free;
    assert parts[0] in parts && parts[1] in parts && parts[2] in parts;
    assert parts[1..][1..] == [parts[2]];
    assert Join(parts[1..], '/') == parts[1] + ['/'] + Join(parts[1..][1..], '/');
    assert parts[0] + ['/'] + (parts[1] + ['/'] + parts[2]) == parts[0] + "/" + parts[1] + "/" + parts[2];
  }

  // Exactly these parse.
  lemma ParsesIff(key: string, s: Scope, rest: string)
    ensures ParseCursorKey(key) == Ok((s, rest)) <==>
              exists v, p :: IsKey(key, v, p, rest) && IsUint(v, s.version) && IsInt(p, s.partition)
  {
    hide IsKey, IsUint, IsInt, ParseUint, ParseInt;
    forall v, p | IsKey(key, v, p, rest) && IsUint(v, s.version) && IsInt(p, s.partition)
      ensures ParseCursorKey(key) == Ok((s, rest))
    {
      KeyIsSplit(key, v, p, rest);
      NumbersParse(v);
      NumbersParse(p);
    }
    var parts := Split(key, '/');
    if |parts| == 3 {
      SplitIsKey(key);
      NumbersParse(parts[0]);
      NumbersParse(parts[1]);
    }
  }
}

// File names in the snapshot directory (pkg/table/meta.go, snapshot/loader.go): database and
// table names are escaped into them and read back.
module FileNames {
  import opened Wrappers
  import opened Identifiers

  // Percent-encoding, section 2.1 of RFC 3986, with upper-case digits.
  predicate IsHex(c: char) { '0' <= c <= '9' || 'A' <= c <= 'F' || 'a' <= c <= 'f' }

  function HexDigit(d: nat): (c: char)
    requires d < 16
    ensures IsHex(c) && c != '.' && HexValue(c) == d
  {
    if d < 10 then (d + '0' as int) as char else (d - 10 + 'A' as int) as char
  }

  function HexValue(c: char): nat
    requires IsHex(c)
  {
    if c <= '9' then c as int - '0' as int
    else if c <= 'F' then c as int - 'A' as int + 10
    else c as int - 'a' as int + 10
  }

  function Percent(c: char): string
    requires c as int < 256
  {
    ['%', HexDigit(c as int / 16), HexDigit(c as int % 16)]
  }

  // The characters dumpling escapes.
  predicate Special(c: char) {
    c as int < 0x20 || c == '%' || c == '"' || c == '*' || c == '.' || c == '/' || c == ':' || c == '<' || c == '>'
    || c == '?' || c == '\\' || c == '|'
  }

  predicate StartsWithSchema(s: string) { |s| >= 7 && s[0] == '-' && Fold(s[1..7]) == "schema" }

  function DumplingFilenameEscape(name: string): string {
    if name == "" then ""
    else if Special(name[0]) then Percent(name[0]) + DumplingFilenameEscape(name[1..])
    else if StartsWithSchema(name) then Percent('-') + name[1..7] + DumplingFilenameEscape(name[7..])
    else [name[0]] + DumplingFilenameEscape(name[1..])
  }

  // url.PathUnescape.
  function PathUnescape(s: string): Option<string> {
    if s == "" then Some("")
    else if s[0] == '%' then
      if |s| < 3 || !IsHex(s[1]) || !IsHex(s[2]) then None
      else
        match PathUnescape(s[3..])
        case None => None
        case Some(rest) => Some([(16 * HexValue(s[1]) + HexValue(s[2])) as char] + rest)
    else
      match PathUnescape(s[1..])
      case None => None
      case Some(rest) => Some([s[0]] + rest)
  }

  lemma {:induction false} UnescapePlain(plain: string, s: string)
    requires forall i | 0 <= i < |plain| :: plain[i] != '%'
    ensures PathUnescape(plain + s) == match PathUnescape(s) case None => None case Some(rest) => Some(plain + rest)
  {
    if plain == "" {
      assert plain + s == s;
      assert forall rest: string :: plain + rest == rest;
    } else {
      assert (plain + s)[1..] == plain[1..] + s;
      UnescapePlain(plain[1..], s);
      assert forall rest: string :: [plain[0]] + (plain[1..] + rest) == plain + rest;
    }
  }

  lemma UnescapePercent(c: char, s: string)
    requires c as int < 256
    ensures PathUnescape(Percent(c) + s) == match PathUnescape(s) case None => None case Some(rest) => Some([c] + rest)
  {
    assert (Percent(c) + s)[3..] == s;
    assert 16 * (c as int / 16) + c as int % 16 == c as int;
  }

  lemma UnescapeSchema(letters: string, rest: string)
    requires |letters| == 6 && Fold(letters) == "schema"
    ensures PathUnescape(Percent('-') + letters + rest) == match PathUnescape(rest) case Some(r) => Some("-" + letters + r) case None => None
  {
    SchemaLetters(letters);
    UnescapePlain(letters, rest);
    UnescapePercent('-', letters + rest);
    assert Percent('-') + letters + rest == Percent('-') + (letters + rest);
    if PathUnescape(rest).Some? {
      var r := PathUnescape(rest).value;
      assert ['-'] + (letters + r) == "-" + letters + r;
    }
  }

  // Unescaping gives back every name.
  lemma {:induction false} EscapeRoundTrip(name: string)
    ensures PathUnescape(DumplingFilenameEscape(name)) == Some(name)
  {
    if name != "" {
      if Special(name[0]) {
        EscapeRoundTrip(name[1..]);
        UnescapePercent(name[0], DumplingFilenameEscape(name[1..]));
        assert name == [name[0]] + name[1..];
      } else if StartsWithSchema(name) {
        EscapeRoundTrip(name[7..]);
        UnescapeSchema(name[1..7], DumplingFilenameEscape(name[7..]));
        assert name == "-" + name[1..7] + name[7..];
      } else {
        EscapeRoundTrip(name[1..]);
        assert DumplingFilenameEscape(name)[1..] == DumplingFilenameEscape(name[1..]);
        assert name == [name[0]] + name[1..];
      }
    }
  }

  // Only letters fold to "schema".
  lemma SchemaLetters(s: string)
    requires Fold(s) == "schema"
    ensures forall i | 0 <= i < |s| :: s[i] != '%' && s[i] != '.'
  {
    CharByChar(s);
    hide Fold;
    forall i | 0 <= i < |s| ensures s[i] != '%' && s[i] != '.' {
      assert LowerChar(s[i]) == "schema"[i];
    }
  }

  predicate NoDot(s: string) { forall i | 0 <= i < |s| :: s[i] != '.' }

  lemma {:induction false} EscapeHasNoDot(name: string)
    ensures NoDot(DumplingFilenameEscape(name)) && (DumplingFilenameEscape(name) == "" <==> name == "")
  {
    if name != "" {
      if Special(name[0]) {
        EscapeHasNoDot(name[1..]);
      } else if StartsWithSchema(name) {
        EscapeHasNoDot(name[7..]);
        SchemaLetters(name[1..7]);
      } else {
        EscapeHasNoDot(name[1..]);
      }
    }
  }

  // ----- Paths -----

  function SchemaFilePath(database: string, table: string): string {
    DumplingFilenameEscape(database) + "." + DumplingFilenameEscape(table) + "-schema.sql"
  }

  const SCHEMA_CREATE_SUFFIX := "-schema-create.sql"

  function SchemaCreateFilePath(database: string): string { DumplingFilenameEscape(database) + SCHEMA_CREATE_SUFFIX }

  predicate HasSuffix(s: string, suffix: string) { |suffix| <= |s| && s[|s| - |suffix|..] == suffix }

  function TrimSuffix(s: string, suffix: string): string {
    if HasSuffix(s, suffix) then s[..|s| - |suffix|] else s
  }

  // strings.Cut by a dot.
  function Cut(s: string): (string, string, bool) {
    if s == "" then ("", "", false)
    else if s[0] == '.' then ("", s[1..], true)
    else
      var (before, after, found) := Cut(s[1..]);
      ([s[0]] + before, after, found)
  }

  lemma {:induction false} CutAt(a: string, rest: string)
    requires NoDot(a)
    ensures Cut(a + "." + rest) == (a, rest, true)
    ensures Cut(a) == (a, "", false)
  {
    if a == "" {
      assert (a + "." + rest)[1..] == rest;
    } else {
      assert (a + "." + rest)[1..] == a[1..] + "." + rest;
      assert (a + "." + rest)[0] == a[0] && a == [a[0]] + a[1..];
      CutAt(a[1..], rest);
    }
  }

  // The table a snapshot data file belongs to.
  function SourceTableFromFile(file: string): Option<(string, string)> {
    var name := TrimSuffix(file, ".gz");
    if !HasSuffix(name, ".csv") then None
    else
      var (schema, rest, found) := Cut(TrimSuffix(name, ".csv"));
      if !found then None
      else
        var table := Cut(rest).0;
        if schema == "" || table == "" then None
        else
          match (PathUnescape(schema), PathUnescape(table))
          case (Some(d), Some(t)) => if d == "" || t == "" then None else Some((d, t))
          case _ => None
  }

  // The database of a schema-create file.
  function SourceDatabaseFromSchemaCreateFile(name: string): Option<string> {
    if !HasSuffix(name, SCHEMA_CREATE_SUFFIX) then None
    else
      var escaped := TrimSuffix(name, SCHEMA_CREATE_SUFFIX);
      if escaped == "" then None
      else
        match PathUnescape(escaped)
        case Some(d) => if d == "" then None else Some(d)
        case None => None
  }

  // How dumpling and the cloud export name a table's data files: escaped names, perhaps a chunk
  // number, and an extension.
  function DataFile(database: string, table: string, chunk: string, zipped: bool): string {
    DumplingFilenameEscape(database) + "." + DumplingFilenameEscape(table) + (if chunk == "" then "" else "." + chunk)
    + ".csv" + if zipped then ".gz" else ""
  }

  lemma SuffixOf(s: string, suffix: string)
    ensures HasSuffix(s + suffix, suffix) && TrimSuffix(s + suffix, suffix) == s
  {
  }

  lemma ExtensionsOff(stem: string, zipped: bool)
    ensures var name := stem + ".csv" + if zipped then ".gz" else "";
            TrimSuffix(name, ".gz") == stem + ".csv" && HasSuffix(stem + ".csv", ".csv") && TrimSuffix(stem + ".csv", ".csv") == stem
  {
    SuffixOf(stem + ".csv", ".gz");
    SuffixOf(stem, ".csv");
    assert (stem + ".csv")[|stem + ".csv"| - 3] == 'c';
    assert !HasSuffix(stem + ".csv", ".gz");
    assert stem + ".csv" + "" == stem + ".csv";
  }

  lemma StemSplits(d: string, t: string, chunk: string)
    requires NoDot(d) && NoDot(t)
    ensures var rest := t + if chunk == "" then "" else "." + chunk;
            Cut(d + "." + rest) == (d, rest, true) && Cut(rest).0 == t
  {
    var rest := t + if chunk == "" then "" else "." + chunk;
    CutAt(d, rest);
    CutAt(t, chunk);
    assert rest == if chunk == "" then t else t + "." + chunk;
  }

  // Every non-empty database and table name is read back from the names of its data files.
  lemma DataFileRoundTrip(database: string, table: string, chunk: string, zipped: bool)
    requires database != "" && table != ""
    ensures SourceTableFromFile(DataFile(database, table, chunk, zipped)) == Some((database, table))
  {
    EscapeHasNoDot(database);
    EscapeHasNoDot(table);
    EscapeRoundTrip(database);
    EscapeRoundTrip(table);
    hide DumplingFilenameEscape, PathUnescape, TrimSuffix, HasSuffix, Cut, NoDot;
    var d, t := DumplingFilenameEscape(database), DumplingFilenameEscape(table);
    var stem := d + "." + (t + if chunk == "" then "" else "." + chunk);
    assert DataFile(database, table, chunk, zipped) == stem + ".csv" + if zipped then ".gz" else "";
    ExtensionsOff(stem, zipped);
    StemSplits(d, t, chunk);
  }

  lemma SchemaCreateRoundTrip(database: string)
    requires database != ""
    ensures SourceDatabaseFromSchemaCreateFile(SchemaCreateFilePath(database)) == Some(database)
  {
    EscapeHasNoDot(database);
    EscapeRoundTrip(database);
    SuffixOf(DumplingFilenameEscape(database), SCHEMA_CREATE_SUFFIX);
  }

  // Two tables never share a schema file.
  lemma SchemaFilesDiffer(d: string, t: string, d2: string, t2: string)
    ensures SchemaFilePath(d, t) == SchemaFilePath(d2, t2) <==> d == d2 && t == t2
  {
    EscapeHasNoDot(d);
    EscapeHasNoDot(t);
    EscapeHasNoDot(d2);
    EscapeHasNoDot(t2);
    EscapeRoundTrip(d);
    EscapeRoundTrip(t);
    EscapeRoundTrip(d2);
    EscapeRoundTrip(t2);
    SplitSchemaFile(d, t);
    SplitSchemaFile(d2, t2);
  }

  lemma SplitSchemaFile(d: string, t: string)
    ensures Cut(SchemaFilePath(d, t)) == (DumplingFilenameEscape(d), DumplingFilenameEscape(t) + "-schema.sql", true)
    ensures TrimSuffix(DumplingFilenameEscape(t) + "-schema.sql", "-schema.sql") == DumplingFilenameEscape(t)
  {
    EscapeHasNoDot(d);
    var rest := DumplingFilenameEscape(t) + "-schema.sql";
    assert SchemaFilePath(d, t) == DumplingFilenameEscape(d) + "." + rest;
    CutAt(DumplingFilenameEscape(d), rest);
    SuffixOf(DumplingFilenameEscape(t), "-schema.sql");
  }

  // ----- The text of names -----

  const HEX_DIGITS := "0123456789ABCDEF"
  const SPECIAL_CHARS := "%\"*./:<>?\\|"

  lemma HexText(d: nat)
    requires d < 16
    ensures HexDigit(d) == HEX_DIGITS[d]
  {
  }

  // Control characters and these are written as a percent sign and two upper-case hexadecimal digits.
  lemma SpecialText(c: char, rest: string)
    requires c as int < 32 || c in SPECIAL_CHARS
    ensures c as int < 256
    ensures DumplingFilenameEscape([c] + rest) == ['%', HEX_DIGITS[c as int / 16], HEX_DIGITS[c as int % 16]] + DumplingFilenameEscape(rest)
  {
    assert Special(c);
    HexText(c as int / 16);
    HexText(c as int % 16);
    assert ([c] + rest)[1..] == rest;
  }

  lemma SchemaStarts(rest: string)
    ensures StartsWithSchema(['-'] + rest) <==> |rest| >= 6 && EqualFold(rest[..6], "schema")
  {
    CharByChar("schema");
    assert Fold("schema") == "schema";
    if |rest| >= 6 {
      assert (['-'] + rest)[1..7] == rest[..6];
    }
  }

  // So is a dash before "schema" in any case; every other character stays.
  lemma PlainText(c: char, rest: string)
    requires c as int >= 32 && c !in SPECIAL_CHARS
    ensures if c == '-' && |rest| >= 6 && EqualFold(rest[..6], "schema") then
              DumplingFilenameEscape([c] + rest) == "%2D" + rest[..6] + DumplingFilenameEscape(rest[6..])
            else DumplingFilenameEscape([c] + rest) == [c] + DumplingFilenameEscape(rest)
  {
    SchemaStarts(rest);
    var s := [c] + rest;
    assert s[1..] == rest;
    if StartsWithSchema(s) {
      EscapedDash(s);
      assert s[1..7] == rest[..6] && s[7..] == rest[6..];
    } else {
      EscapedPlain(s);
    }
  }

  lemma EscapedDash(s: string)
    requires StartsWithSchema(s)
    ensures DumplingFilenameEscape(s) == "%2D" + s[1..7] + DumplingFilenameEscape(s[7..])
  {
    hide Fold;
    assert Percent('-') == "%2D";
  }

  lemma EscapedPlain(s: string)
    requires s != "" && !StartsWithSchema(s) && s[0] as int >= 32 && s[0] !in SPECIAL_CHARS
    ensures DumplingFilenameEscape(s) == [s[0]] + DumplingFilenameEscape(s[1..])
  {
    hide StartsWithSchema;
    NotSpecial(s[0]);
  }

  lemma NotSpecial(c: char)
    requires c as int >= 32 && c !in SPECIAL_CHARS
    ensures !Special(c)
  {
    var a := SPECIAL_CHARS;
    assert a[0] == '%' && a[1] == '"' && a[2] == '*' && a[3] == '.' && a[4] == '/' && a[5] == ':';
    assert a[6] == '<' && a[7] == '>' && a[8] == '?' && a[9] == '\\' && a[10] == '|';
  }

  // Two digits after a percent sign are read in either case,
  lemma PercentIsRead(h: nat, l: nat, a: char, b: char, rest: string)
    requires h < 16 && l < 16 && UpperChar(a) == HEX_DIGITS[h] && UpperChar(b) == HEX_DIGITS[l]
    ensures PathUnescape(['%', a, b] + rest) ==
            match PathUnescape(rest) case None => None case Some(r) => Some([(16 * h + l) as char] + r)
  {
    HexIsRead(h, a);
    HexIsRead(l, b);
    assert (['%', a, b] + rest)[3..] == rest;
  }

  lemma HexIsRead(h: nat, c: char)
    requires h < 16 && UpperChar(c) == HEX_DIGITS[h]
    ensures IsHex(c) && HexValue(c) == h
  {
  }

  lemma HexIff(c: char)
    ensures IsHex(c) <==> exists h :: 0 <= h < 16 && HEX_DIGITS[h] == UpperChar(c)
  {
    if IsHex(c) {
      assert HEX_DIGITS[HexValue(c)] == UpperChar(c);
    }
    if h :| 0 <= h < 16 && HEX_DIGITS[h] == UpperChar(c) {
      HexIsRead(h, c);
    }
  }

  // and a text unescapes exactly if two follow each percent sign.
  lemma {:induction false} UnescapesIff(s: string)
    ensures PathUnescape(s).Some? <==> forall i | 0 <= i < |s| :: s[i] != '%' || HexAt(s, i)
  {
    if s != "" {
      if s[0] == '%' && |s| >= 3 {
        HexIff(s[1]);
        HexIff(s[2]);
        UnescapesIff(s[3..]);
        HexAtRest(s, 3);
      } else if s[0] != '%' {
        UnescapesIff(s[1..]);
        HexAtRest(s, 1);
      }
    }
  }

  predicate HexAt(s: string, i: int) {
    0 <= i < |s| - 2 && UpperChar(s[i + 1]) in HEX_DIGITS && UpperChar(s[i + 2]) in HEX_DIGITS
  }

  lemma HexAtRest(s: string, n: nat)
    requires n <= |s|
    ensures forall i | 0 <= i < |s| - n :: s[n..][i] == s[i + n] && (HexAt(s[n..], i) <==> HexAt(s, i + n))
  {
  }

  // The schema files' names.
  lemma SchemaFileText(database: string, table: string)
    ensures SchemaFilePath(database, table) == DumplingFilenameEscape(database) + "." + DumplingFilenameEscape(table) + "-schema.sql"
    ensures SchemaCreateFilePath(database) == DumplingFilenameEscape(database) + "-schema-create.sql"
  {
  }

  // ----- Which files are taken for data -----

  // Unescaped, neither part empty.
  predicate NamesTable(database: string, table: string, d: string, t: string) {
    PathUnescape(d) == Some(database) && PathUnescape(t) == Some(table) && database != "" && table != ""
  }

  // A name of these parts: two escaped names with a dot in between, perhaps a dot and more, `.csv` and
  // perhaps `.gz`.
  predicate IsDataName(name: string, d: string, t: string, more: string, zip: string) {
    && name == d + "." + (t + more) + ".csv" + zip
    && (zip == ".gz" || (zip == "" && !HasSuffix(name, ".gz")))
    && NoDot(d) && NoDot(t) && (more == "" || more[0] == '.')
  }

  lemma TrimmedOff(s: string, suffix: string)
    requires HasSuffix(s, suffix)
    ensures s == TrimSuffix(s, suffix) + suffix
  {
  }

  lemma DataFileParts(name: string, database: string, table: string) returns (d: string, t: string, more: string, zip: string)
    requires SourceTableFromFile(name) == Some((database, table))
    ensures IsDataName(name, d, t, more, zip) && NamesTable(database, table, d, t)
  {
    var plain := TrimSuffix(name, ".gz");
    TrimmedOff(plain, ".csv");
    d, t, more := StemParts(TrimSuffix(plain, ".csv"));
    hide HasSuffix, TrimSuffix, Cut, NoDot, PathUnescape;
    if HasSuffix(name, ".gz") {
      zip := ".gz";
      TrimmedOff(name, ".gz");
    } else {
      zip := "";
      NotTrimmed(name, ".gz");
      assert plain + "" == plain;
    }
  }

  lemma StemParts(stem: string) returns (d: string, t: string, more: string)
    requires Cut(stem).2
    ensures stem == d + "." + (t + more) && NoDot(d) && NoDot(t) && (more == "" || more[0] == '.')
    ensures d == Cut(stem).0 && t == Cut(Cut(stem).1).0
  {
    CutIs(stem);
    CutIs(Cut(stem).1);
    hide Cut, NoDot;
    d := Cut(stem).0;
    var rest := Cut(stem).1;
    t := Cut(rest).0;
    more := if Cut(rest).2 then "." + Cut(rest).1 else "";
    assert rest == t + more;
  }

  lemma NotTrimmed(s: string, suffix: string)
    requires !HasSuffix(s, suffix)
    ensures TrimSuffix(s, suffix) == s
  {
  }

  lemma DataFileRead(name: string, database: string, table: string, d: string, t: string, more: string, zip: string)
    requires IsDataName(name, d, t, more, zip) && NamesTable(database, table, d, t)
    ensures SourceTableFromFile(name) == Some((database, table))
  {
    var stem := d + "." + (t + more);
    PlainName(name, stem, zip);
    SuffixOf(stem, ".csv");
    CutAt(d, t + more);
    FirstPart(t, more);
    NamesAreFull(database, table, d, t);
    hide HasSuffix, TrimSuffix, Cut, NoDot, PathUnescape;
  }

  lemma PlainName(name: string, stem: string, zip: string)
    requires name == stem + ".csv" + zip && (zip == ".gz" || (zip == "" && !HasSuffix(name, ".gz")))
    ensures TrimSuffix(name, ".gz") == stem + ".csv"
  {
    SuffixOf(stem + ".csv", ".gz");
    hide HasSuffix;
    if zip == "" {
      NotTrimmed(name, ".gz");
      assert name == stem + ".csv";
    }
  }

  lemma FirstPart(t: string, more: string)
    requires NoDot(t) && (more == "" || more[0] == '.')
    ensures Cut(t + more).0 == t
  {
    CutAt(t, if more == "" then "" else more[1..]);
    assert t + more == if more == "" then t else t + "." + more[1..];
  }

  lemma NamesAreFull(database: string, table: string, d: string, t: string)
    requires NamesTable(database, table, d, t)
    ensures d != "" && t != ""
  {
  }

  // A file is one of a table's data files exactly if its name has such parts.
  lemma DataFileIff(name: string, database: string, table: string)
    ensures SourceTableFromFile(name) == Some((database, table)) <==>
              exists d, t, more, zip :: IsDataName(name, d, t, more, zip) && NamesTable(database, table, d, t)
  {
    hide SourceTableFromFile, IsDataName, NamesTable;
    if SourceTableFromFile(name) == Some((database, table)) {
      var d, t, more, zip := DataFileParts(name, database, table);
    }
    if d, t, more, zip :| IsDataName(name, d, t, more, zip) && NamesTable(database, table, d, t) {
      DataFileRead(name, database, table, d, t, more, zip);
    }
  }

  lemma {:induction false} CutIs(s: string)
    ensures var (before, after, found) := Cut(s);
            NoDot(before) && s == if found then before + "." + after else before
  {
    if s != "" && s[0] != '.' {
      CutIs(s[1..]);
      assert s == [s[0]] + s[1..];
    } else if s != "" {
      assert s == "." + s[1..];
    }
  }

  // Neither schema files nor the metadata file are taken for data,
  lemma OthersAreNoData(database: string, table: string)
    ensures SourceTableFromFile(SchemaFilePath(database, table)) == None
    ensures SourceTableFromFile(SchemaCreateFilePath(database)) == None
    ensures SourceTableFromFile("metadata") == None
  {
    hide SourceTableFromFile, DumplingFilenameEscape;
    EndsIn(DumplingFilenameEscape(database) + "." + DumplingFilenameEscape(table), "-schema.sql");
    EndsIn(DumplingFilenameEscape(database), "-schema-create.sql");
    EndsIn("", "metadata");
    assert "" + "metadata" == "metadata";
  }

  lemma EndsIn(before: string, end: string)
    requires end != "" && end[|end| - 1] != 'v' && end[|end| - 1] != 'z'
    ensures SourceTableFromFile(before + end) == None
  {
    hide Cut, PathUnescape;
    var name := before + end;
    assert name[|name| - 1] == end[|end| - 1];
    EndsElsewhere(name, ".gz");
    EndsElsewhere(name, ".csv");
  }

  lemma EndsElsewhere(name: string, suffix: string)
    requires name != "" && suffix != "" && name[|name| - 1] != suffix[|suffix| - 1]
    ensures !HasSuffix(name, suffix) && TrimSuffix(name, suffix) == name
  {
    assert |suffix| <= |name| ==> name[|name| - |suffix|..][|suffix| - 1] == name[|name| - 1];
  }

  // and only schema-create files create schemas.
  lemma SchemaCreateIff(name: string, database: string)
    ensures SourceDatabaseFromSchemaCreateFile(name) == Some(database) <==>
              exists d :: name == d + "-schema-create.sql" && d != "" && PathUnescape(d) == Some(database) && database != ""
  {
    var suffix := "-schema-create.sql";
    if d :| name == d + suffix {
      SuffixOf(d, suffix);
    }
    if HasSuffix(name, suffix) {
      assert name == TrimSuffix(name, suffix) + suffix;
    }
  }
}

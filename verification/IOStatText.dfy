/** The text of `zpool iostat -Hpv`: one row per line, read leniently. */
module IOStatText {
  import opened Common
  import opened Text

  /** The four cumulative counters. */
  datatype Counters = Counters(readOps: nat, writeOps: nat, readBytes: nat, writeBytes: nat)

  datatype Row = Row(name: string, alloc: nat, free: nat, io: Counters)

  const MAX_UINT64: nat := 0xFFFF_FFFF_FFFF_FFFF

  /** strings.Split for a one-character separator. */
  function Split(s: string, sep: char): (parts: seq<string>)
    ensures |parts| > 0
    decreases |s|
  {
    if sep !in s then [s] else [s[..IndexOf(s, sep)]] + Split(s[IndexOf(s, sep) + 1..], sep)
  }

  function TrimBlanks(s: string): string {
    if s != "" && s[0] in {' ', '\t'} then TrimBlanks(s[1..]) else s
  }

  /** The length of the leading run without white space. */
  function WordLength(s: string): (n: nat)
    ensures n <= |s|
    ensures s != "" && !IsSpace(s[0]) ==> n > 0
  {
    if s == "" || IsSpace(s[0]) then 0 else 1 + WordLength(s[1..])
  }

  /** strings.Fields. */
  function Fields(s: string): seq<string>
    decreases |s|
  {
    if s == "" then []
    else if IsSpace(s[0]) then Fields(s[1..])
    else [s[..WordLength(s)]] + Fields(s[WordLength(s)..])
  }

  /** strconv.ParseUint with its error dropped, from a value already read: a bad character makes it 0,
    * a number out of range the largest one. */
  function ReadUint(s: string, n: nat): nat {
    if s == "" then n
    else if !IsDigit(s[0]) then 0
    else if 10 * n + DigitValue(s[0]) > MAX_UINT64 then MAX_UINT64
    else ReadUint(s[1..], 10 * n + DigitValue(s[0]))
  }

  function ParseUint64(s: string): nat {
    var t := TrimSpace(s);
    if t == "-" then 0 else ReadUint(t, 0)
  }

  function RowOfFields(fields: seq<string>): Row
    requires |fields| >= 7
  {
    Row(fields[0], ParseUint64(fields[1]), ParseUint64(fields[2]),
        Counters(ParseUint64(fields[3]), ParseUint64(fields[4]), ParseUint64(fields[5]), ParseUint64(fields[6])))
  }

  /** The row a line carries, if any. */
  function RowOf(line: string): Option<Row> {
    if TrimSpace(line) == "" then None
    else
      var byTab := Split(TrimBlanks(line), '\t');
      var byBlank := Fields(TrimBlanks(line));
      if |byTab| >= 7 then Some(RowOfFields(byTab))
      else if |byBlank| >= 7 then Some(RowOfFields(byBlank))
      else None
  }

  function RowsOfLines(lines: seq<string>): seq<Row> {
    if lines == [] then []
    else
      RowsOfLines(lines[..|lines| - 1])
      + match RowOf(lines[|lines| - 1])
        case None => []
        case Some(r) => [r]
  }

  function RowsOf(output: string): seq<Row> {
    RowsOfLines(Split(output, '\n'))
  }

  // ----- Printing -----

  function FieldsOfRow(r: Row): seq<string> {
    [r.name, Itoa(r.alloc), Itoa(r.free), Itoa(r.io.readOps), Itoa(r.io.writeOps), Itoa(r.io.readBytes), Itoa(r.io.writeBytes)]
  }

  function PrintRow(r: Row): string {
    Join(FieldsOfRow(r), "\t")
  }

  function PrintRows(rows: seq<Row>): string {
    if rows == [] then "" else PrintRow(rows[0]) + ['\n'] + PrintRows(rows[1..])
  }

  predicate Printable(r: Row) {
    && r.name != "" && r.name[0] != ' ' && '\t' !in r.name && '\n' !in r.name
    && r.alloc <= MAX_UINT64 && r.free <= MAX_UINT64
    && r.io.readOps <= MAX_UINT64 && r.io.writeOps <= MAX_UINT64
    && r.io.readBytes <= MAX_UINT64 && r.io.writeBytes <= MAX_UINT64
  }

  // ----- Numbers -----

  /** One more digit, whether or not the number so far already overflowed. */
  lemma {:induction false} ReadUintAppend(s: string, c: char, n: nat)
    requires (forall d | d in s :: IsDigit(d)) && IsDigit(c) && n <= MAX_UINT64
    ensures
      var v := 10 * ReadUint(s, n) + DigitValue(c);
      ReadUint(s + [c], n) == if v > MAX_UINT64 then MAX_UINT64 else v
  {
    if s == "" {
      assert "" + [c] == [c] && [c][1..] == "";
    } else {
      assert (s + [c])[0] == s[0] && (s + [c])[1..] == s[1..] + [c];
      if 10 * n + DigitValue(s[0]) <= MAX_UINT64 {
        ReadUintAppend(s[1..], c, 10 * n + DigitValue(s[0]));
      }
    }
  }

  /** A digit string is read as its value, or as the largest 64-bit number if that is smaller. */
  lemma {:induction false} ReadUintSaturates(s: string)
    requires forall c | c in s :: IsDigit(c)
    ensures ReadUint(s, 0) == if DigitsValue(s) > MAX_UINT64 then MAX_UINT64 else DigitsValue(s)
  {
    if s != "" {
      var init, c := s[..|s| - 1], s[|s| - 1];
      assert s == init + [c];
      ReadUintSaturates(init);
      ReadUintAppend(init, c, 0);
    }
  }

  lemma {:induction false} TrimSpaceOfDigits(s: string)
    requires s != "" && forall c | c in s :: IsDigit(c)
    ensures TrimSpace(s) == s
  {
    assert s[0] in s && s[|s| - 1] in s;
  }

  lemma {:induction false} ParseUint64OfItoa(n: nat)
    requires n <= MAX_UINT64
    ensures ParseUint64(Itoa(n)) == n
  {
    TrimSpaceOfDigits(Itoa(n));
    ItoaRoundTrip(n);
    ReadUintSaturates(Itoa(n));
    assert '-' !in Itoa(n);
    hide TrimSpace, Itoa, ReadUint, DigitsValue;
    assert Itoa(n) != "-" by {
      assert "-"[0] == '-';
    }
  }

  // ----- Lines -----

  lemma {:induction false} SplitFirst(a: string, sep: char, rest: string)
    requires sep !in a
    ensures Split(a + [sep] + rest, sep) == [a] + Split(rest, sep)
  {
    IndexOfConcat(a, sep, rest);
    var s := a + [sep] + rest;
    assert s[|a|] == sep && s[..|a|] == a && s[|a| + 1..] == rest;
  }

  lemma {:induction false} SplitJoin(parts: seq<string>, sep: char)
    requires parts != [] && forall p | p in parts :: sep !in p
    ensures Split(Join(parts, [sep]), sep) == parts
  {
    if |parts| > 1 {
      SplitFirst(parts[0], sep, Join(parts[1..], [sep]));
      SplitJoin(parts[1..], sep);
    } else {
      assert parts[0] in parts;
    }
  }

  lemma {:induction false} JoinFree(parts: seq<string>, sep: string, c: char)
    requires c !in sep && forall p | p in parts :: c !in p
    ensures c !in Join(parts, sep)
  {
    if |parts| > 1 {
      JoinFree(parts[1..], sep, c);
    }
  }

  lemma {:induction false} ItoaClean(n: nat)
    ensures '\t' !in Itoa(n) && '\n' !in Itoa(n) && Itoa(n) != "" && !IsSpace(Itoa(n)[0])
  {
    assert Itoa(n)[0] in Itoa(n);
  }

  lemma {:induction false} FieldsClean(r: Row)
    requires Printable(r)
    ensures forall f | f in FieldsOfRow(r) :: '\t' !in f && '\n' !in f
  {
    hide Itoa;
    ItoaClean(r.alloc);
    ItoaClean(r.free);
    ItoaClean(r.io.readOps);
    ItoaClean(r.io.writeOps);
    ItoaClean(r.io.readBytes);
    ItoaClean(r.io.writeBytes);
  }

  lemma {:induction false} FieldsReadBack(r: Row)
    requires Printable(r)
    ensures RowOfFields(FieldsOfRow(r)) == r
  {
    hide Itoa, ParseUint64;
    ParseUint64OfItoa(r.alloc);
    ParseUint64OfItoa(r.free);
    ParseUint64OfItoa(r.io.readOps);
    ParseUint64OfItoa(r.io.writeOps);
    ParseUint64OfItoa(r.io.readBytes);
    ParseUint64OfItoa(r.io.writeBytes);
  }

  lemma {:induction false} TrimLeftStops(s: string, i: nat)
    requires i < |s| && !IsSpace(s[i])
    ensures TrimLeft(s) != "" && TrimLeft(s)[|TrimLeft(s)| - 1] == s[|s| - 1] && exists c :: c in TrimLeft(s) && !IsSpace(c)
  {
    if IsSpace(s[0]) {
      TrimLeftStops(s[1..], i - 1);
    } else {
      assert s[0] in s;
    }
  }

  lemma {:induction false} TrimRightNonEmpty(s: string)
    requires s != "" && !IsSpace(s[0])
    ensures TrimRight(s) != ""
  {
    if IsSpace(s[|s| - 1]) {
      assert s[..|s| - 1] != "" && s[..|s| - 1][0] == s[0];
      TrimRightNonEmpty(s[..|s| - 1]);
    }
  }

  lemma {:induction false} PrintedRowShape(r: Row)
    ensures PrintRow(r) == r.name + "\t" + (Itoa(r.alloc) + "\t" + Join(FieldsOfRow(r)[2..], "\t"))
  {
    hide Itoa;
    var fields := FieldsOfRow(r);
    var rest := Join(fields[1..], "\t");
    assert fields[1..][1..] == fields[2..];
    assert PrintRow(r) == r.name + "\t" + rest && rest == Itoa(r.alloc) + "\t" + Join(fields[2..], "\t");
  }

  /** A printed row starts with its name and is not blank. */
  lemma {:induction false} PrintedRowNotBlank(r: Row)
    requires Printable(r)
    ensures var line := PrintRow(r); TrimSpace(line) != "" && TrimBlanks(line) == line && '\n' !in line
  {
    hide Join, FieldsOfRow, TrimRight, TrimLeft, Itoa;
    var line := PrintRow(r);
    FieldsClean(r);
    JoinFree(FieldsOfRow(r), "\t", '\n');
    PrintedRowShape(r);
    ItoaClean(r.alloc);
    assert line[|r.name| + 1] == Itoa(r.alloc)[0];
    TrimLeftStops(line, |r.name| + 1);
    TrimRightNonEmpty(TrimLeft(line));
  }

  lemma {:induction false} PrintedRowReads(r: Row)
    requires Printable(r)
    ensures RowOf(PrintRow(r)) == Some(r)
  {
    PrintedRowNotBlank(r);
    FieldsClean(r);
    FieldsReadBack(r);
    hide TrimSpace, TrimBlanks, Fields, Split, Join, Itoa, RowOfFields;
    SplitJoin(FieldsOfRow(r), '\t');
  }

  lemma {:induction false} RowsOfLinesConcat(a: seq<string>, b: seq<string>)
    ensures RowsOfLines(a + b) == RowsOfLines(a) + RowsOfLines(b)
    decreases |b|
  {
    hide RowOf;
    if b == [] {
      assert a + b == a;
    } else {
      RowsOfLinesConcat(a, b[..|b| - 1]);
      assert (a + b)[..|a + b| - 1] == a + b[..|b| - 1];
    }
  }

  lemma {:induction false} FirstLine(line: string, r: Row, rest: string)
    requires '\n' !in line && RowOf(line) == Some(r)
    ensures RowsOf(line + ['\n'] + rest) == [r] + RowsOf(rest)
  {
    SplitFirst(line, '\n', rest);
    hide Split, RowOf;
    RowsOfLinesConcat([line], Split(rest, '\n'));
    assert [line][..0] == [];
    assert RowsOfLines([line]) == [] + [r] == [r];
  }

  lemma {:induction false} PrintRowsStep(rows: seq<Row>)
    requires rows != []
    ensures PrintRows(rows) == PrintRow(rows[0]) + ['\n'] + PrintRows(rows[1..])
  {
    hide PrintRow;
  }

  lemma {:induction false} NothingPrinted()
    ensures RowsOf(PrintRows([])) == []
  {
    assert Split("", '\n') == [""];
    assert RowsOfLines([""][..0]) == [];
  }

  lemma {:induction false} FirstRowReadsBack(r: Row, rest: string)
    requires Printable(r)
    ensures RowsOf(PrintRow(r) + ['\n'] + rest) == [r] + RowsOf(rest)
  {
    hide RowOf, PrintRow, Printable, TrimSpace, TrimBlanks, RowsOf;
    PrintedRowNotBlank(r);
    PrintedRowReads(r);
    FirstLine(PrintRow(r), r, rest);
  }

  /** Printing rows and reading them back changes nothing. */
  lemma {:induction false} PrintRowsReadBack(rows: seq<Row>)
    requires forall r | r in rows :: Printable(r)
    ensures RowsOf(PrintRows(rows)) == rows
  {
    hide *;
    if rows == [] {
      NothingPrinted();
    } else {
      PrintRowsReadBack(rows[1..]);
      PrintRowsStep(rows);
      FirstRowReadsBack(rows[0], PrintRows(rows[1..]));
      assert rows == [rows[0]] + rows[1..];
    }
  }

  // ----- Columns separated by blanks -----

  predicate IsWord(s: string) {
    s != "" && forall c | c in s :: !IsSpace(c)
  }

  lemma {:induction false} WordLengthIs(w: string, rest: string)
    requires (forall c | c in w :: !IsSpace(c)) && (rest == "" || IsSpace(rest[0]))
    ensures WordLength(w + rest) == |w|
  {
    if w == "" {
      assert w + rest == rest;
    } else {
      assert (w + rest)[0] == w[0] && w[0] in w && (w + rest)[1..] == w[1..] + rest;
      WordLengthIs(w[1..], rest);
    }
  }

  lemma {:induction false} FieldsOfWord(w: string, rest: string)
    requires IsWord(w) && (rest == "" || IsSpace(rest[0]))
    ensures Fields(w + rest) == [w] + Fields(rest)
  {
    WordLengthIs(w, rest);
    assert w[0] in w && (w + rest)[0] == w[0];
    assert (w + rest)[..|w|] == w && (w + rest)[|w|..] == rest;
  }

  lemma {:induction false} FieldsJoin(words: seq<string>)
    requires forall w | w in words :: IsWord(w)
    ensures Fields(Join(words, " ")) == words
  {
    if words != [] {
      assert words[0] in words;
      if |words| == 1 {
        assert words[0] + "" == words[0];
        FieldsOfWord(words[0], "");
      } else {
        FieldsJoin(words[1..]);
        var rest := " " + Join(words[1..], " ");
        assert rest[0] == ' ' && rest[1..] == Join(words[1..], " ");
        FieldsOfWord(words[0], rest);
        assert Join(words, " ") == words[0] + rest;
      }
    }
  }

  lemma {:induction false} ItoaIsWord(n: nat)
    ensures IsWord(Itoa(n)) && '\t' !in Itoa(n)
  {
  }

  lemma {:induction false} FieldsAreWords(r: Row)
    requires IsWord(r.name)
    ensures forall f | f in FieldsOfRow(r) :: IsWord(f) && '\t' !in f
  {
    hide Itoa;
    assert '\t' !in r.name;
    ItoaIsWord(r.alloc);
    ItoaIsWord(r.free);
    ItoaIsWord(r.io.readOps);
    ItoaIsWord(r.io.writeOps);
    ItoaIsWord(r.io.readBytes);
    ItoaIsWord(r.io.writeBytes);
  }

  lemma {:induction false} BlankRowStart(r: Row)
    requires IsWord(r.name)
    ensures var line := Join(FieldsOfRow(r), " "); TrimSpace(line) != "" && TrimBlanks(line) == line
  {
    var line := Join(FieldsOfRow(r), " ");
    assert line[0] == r.name[0] && r.name[0] in r.name;
    TrimLeftStops(line, 0);
    TrimRightNonEmpty(TrimLeft(line));
  }

  lemma {:induction false} NoSepNoSplit(s: string, sep: char)
    requires sep !in s
    ensures Split(s, sep) == [s]
  {
  }

  lemma {:induction false} BlankRowFields(r: Row)
    requires IsWord(r.name)
    ensures
      var line := Join(FieldsOfRow(r), " ");
      |Split(line, '\t')| == 1 && Fields(line) == FieldsOfRow(r) && |FieldsOfRow(r)| == 7
  {
    hide Fields, Split, Join, Itoa, IsWord;
    FieldsAreWords(r);
    assert " "[0] != '\t';
    JoinFree(FieldsOfRow(r), " ", '\t');
    NoSepNoSplit(Join(FieldsOfRow(r), " "), '\t');
    FieldsJoin(FieldsOfRow(r));
  }

  /** Builds that ignore -H and separate the columns by blanks are read the same. */
  lemma {:induction false} BlankSeparatedRowReads(r: Row)
    requires Printable(r) && IsWord(r.name)
    ensures RowOf(Join(FieldsOfRow(r), " ")) == Some(r)
  {
    hide TrimSpace, TrimBlanks, Fields, Split, Join, Itoa, RowOfFields, IsWord, FieldsOfRow, Printable;
    BlankRowStart(r);
    BlankRowFields(r);
    FieldsReadBack(r);
  }

  // ----- Columns -----

  /** The columns of a line are, in this order: name, allocated, free, read and write operations, read and
    * written bytes. A seven-column line of 64-bit numbers under any name without tabs is read as that row. */
  lemma {:induction false} ColumnsInOrder(name: string, alloc: nat, free: nat, readOps: nat, writeOps: nat, readBytes: nat, writeBytes: nat)
    requires name != "" && name[0] != ' ' && '\t' !in name && '\n' !in name
    requires alloc < 0x1_0000_0000_0000_0000 && free < 0x1_0000_0000_0000_0000
    requires readOps < 0x1_0000_0000_0000_0000 && writeOps < 0x1_0000_0000_0000_0000
    requires readBytes < 0x1_0000_0000_0000_0000 && writeBytes < 0x1_0000_0000_0000_0000
    ensures
      RowOf(name + "\t" + (Itoa(alloc) + "\t" + (Itoa(free) + "\t" + (Itoa(readOps) + "\t" + (Itoa(writeOps) + "\t"
            + (Itoa(readBytes) + "\t" + Itoa(writeBytes)))))))
      == Some(Row(name, alloc, free, Counters(readOps, writeOps, readBytes, writeBytes)))
  {
    var r := Row(name, alloc, free, Counters(readOps, writeOps, readBytes, writeBytes));
    PrintedRowReads(r);
    hide RowOf, Itoa, Printable;
    SevenJoined(name, Itoa(alloc), Itoa(free), Itoa(readOps), Itoa(writeOps), Itoa(readBytes), Itoa(writeBytes));
  }

  lemma {:induction false} SevenJoined(a: string, b: string, c: string, d: string, e: string, f: string, g: string)
    ensures Join([a, b, c, d, e, f, g], "\t") == a + "\t" + (b + "\t" + (c + "\t" + (d + "\t" + (e + "\t" + (f + "\t" + g)))))
  {
    hide Join;
    JoinStep([f, g], "\t");
    JoinStep([e, f, g], "\t");
    JoinStep([d, e, f, g], "\t");
    JoinStep([c, d, e, f, g], "\t");
    JoinStep([b, c, d, e, f, g], "\t");
    JoinStep([a, b, c, d, e, f, g], "\t");
    assert [a, b, c, d, e, f, g][1..] == [b, c, d, e, f, g] && [b, c, d, e, f, g][1..] == [c, d, e, f, g];
    assert [c, d, e, f, g][1..] == [d, e, f, g] && [d, e, f, g][1..] == [e, f, g];
    assert [e, f, g][1..] == [f, g] && [f, g][1..] == [g];
    JoinOne(g, "\t");
  }

  lemma {:induction false} JoinStep(parts: seq<string>, sep: string)
    requires |parts| > 1
    ensures Join(parts, sep) == parts[0] + sep + Join(parts[1..], sep)
  {
  }

  lemma {:induction false} JoinOne(part: string, sep: string)
    ensures Join([part], sep) == part
  {
  }

  /** Fewer than seven columns are no row. */
  lemma {:induction false} FewerColumnsNoRow(words: seq<string>)
    requires |words| < 7 && forall w | w in words :: IsWord(w)
    ensures RowOf(Join(words, " ")) == None
  {
    hide Fields, Split, TrimSpace;
    var line := Join(words, " ");
    if words == [] {
      NothingLeft();
    } else {
      assert words[0] in words && line[0] == words[0][0] && words[0][0] in words[0];
      assert TrimBlanks(line) == line;
      hide Join, TrimBlanks;
      FieldsJoin(words);
      WordsHaveNoTab(words);
      NoSepNoSplit(line, '\t');
    }
  }

  lemma {:induction false} NothingLeft()
    ensures TrimSpace("") == ""
  {
  }

  lemma {:induction false} WordsHaveNoTab(words: seq<string>)
    requires forall w | w in words :: IsWord(w)
    ensures '\t' !in Join(words, " ")
  {
    assert forall w | w in words :: '\t' !in w;
    assert " "[0] != '\t';
    JoinFree(words, " ", '\t');
  }

  lemma {:induction false} BlankSkipped(c: char, rest: string)
    requires c == ' ' || c == '\t'
    ensures RowOf([c] + rest) == RowOf(rest)
  {
    hide Fields, Split, TrimRight;
    var line := [c] + rest;
    assert line[0] == c && line[1..] == rest;
    assert TrimLeft(line) == TrimLeft(rest) && TrimBlanks(line) == TrimBlanks(rest);
  }

  predicate AllBlank(s: string) {
    forall i | 0 <= i < |s| :: s[i] == ' ' || s[i] == '\t'
  }

  /** Blanks and tabs before a row do not matter. */
  lemma {:induction false} LeadingBlanksIgnored(blanks: string, line: string)
    requires AllBlank(blanks)
    ensures RowOf(blanks + line) == RowOf(line)
  {
    hide RowOf;
    if blanks == "" {
      assert blanks + line == line;
    } else {
      var rest := blanks[1..];
      LeadingBlanksIgnored(rest, line);
      BlankSkipped(blanks[0], rest + line);
      assert blanks + line == [blanks[0]] + (rest + line);
    }
  }
}

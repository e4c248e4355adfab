/** The configuration table (Utils/EntryData.go): what PrintConfigTable writes, that its
    lines are aligned, and that the entries can be read back from it. Column widths are
    taken in bytes, padding is done in runes; a `char` is a rune. */
module ConfigTable {
  import opened Sequences

  datatype Row = Row(name: string, resourceGroup: string, clusterName: string)

  datatype Column = NameColumn | ResourceGroupColumn | ClusterNameColumn

  function Cell(r: Row, col: Column): string {
    match col
    case NameColumn => r.name
    case ResourceGroupColumn => r.resourceGroup
    case ClusterNameColumn => r.clusterName
  }

  // ---------- Widths ----------

  /** Bytes of a rune in UTF-8. */
  function RuneBytes(c: char): nat {
    if c as int < 0x80 then 1 else if c as int < 0x800 then 2 else if c as int < 0x10000 then 3 else 4
  }

  /** Go's len of a string. */
  function ByteLen(s: string): (n: nat)
    ensures n >= |s|
  {
    if s == "" then 0 else ByteLen(s[..|s| - 1]) + RuneBytes(s[|s| - 1])
  }

  /** Bytes and runes are the same for ASCII text, and only for it; no rune takes more than four. */
  lemma {:induction false} ByteLenIsAscii(s: string)
    ensures ByteLen(s) <= 4 * |s|
    ensures ByteLen(s) == |s| <==> forall i :: 0 <= i < |s| ==> s[i] as int < 128
  {
    if s != "" {
      var front := s[..|s| - 1];
      ByteLenIsAscii(front);
      assert s == front + [s[|s| - 1]];
      if forall i :: 0 <= i < |front| ==> front[i] as int < 128 {
        assert forall i :: 0 <= i < |s| - 1 ==> s[i] == front[i];
      }
    }
  }

  /** The bytes of a rune as UTF-8 has them (RFC 3629, section 3). */
  function Utf8(c: char): seq<int> {
    var n := c as int;
    if n < 0x80 then [n]
    else if n < 0x800 then [0xC0 + n / 0x40, 0x80 + n % 0x40]
    else if n < 0x10000 then [0xE0 + n / 0x1000, 0x80 + n / 0x40 % 0x40, 0x80 + n % 0x40]
    else [0xF0 + n / 0x40000, 0x80 + n / 0x1000 % 0x40, 0x80 + n / 0x40 % 0x40, 0x80 + n % 0x40]
  }

  /** The number that the payload bits of UTF-8 bytes make up. */
  function Payload(bytes: seq<int>): int {
    if |bytes| == 1 then bytes[0]
    else if |bytes| == 2 then (bytes[0] - 0xC0) * 0x40 + (bytes[1] - 0x80)
    else if |bytes| == 3 then ((bytes[0] - 0xE0) * 0x40 + (bytes[1] - 0x80)) * 0x40 + (bytes[2] - 0x80)
    else if |bytes| == 4 then
      (((bytes[0] - 0xF0) * 0x40 + (bytes[1] - 0x80)) * 0x40 + (bytes[2] - 0x80)) * 0x40 + (bytes[3] - 0x80)
    else -1
  }

  lemma ThreeDigits(n: int)
    requires 0 <= n
    ensures n == (n / 0x1000 * 0x40 + n / 0x40 % 0x40) * 0x40 + n % 0x40
  {
    assert n / 0x1000 == n / 0x40 / 0x40;
  }

  /** The bytes make up the rune. */
  lemma Utf8Payload(c: char)
    ensures Payload(Utf8(c)) == c as int
  {
    ThreeDigits(c as int);
    ThreeDigits(c as int / 0x40);
    assert c as int / 0x40 / 0x1000 == c as int / 0x40000;
    assert c as int / 0x40 / 0x40 == c as int / 0x1000;
  }

  /** RuneBytes counts these bytes: none is out of place, and fewer of them would not do. */
  lemma RuneBytesIsUtf8(c: char)
    ensures |Utf8(c)| == RuneBytes(c)
    ensures forall i :: 1 <= i < |Utf8(c)| ==> 0x80 <= Utf8(c)[i] < 0xC0
    ensures var b := Utf8(c)[0];
            0 <= b < 0x80 || 0xC0 <= b < 0xE0 || 0xE0 <= b < 0xF0 || 0xF0 <= b < 0xF8
    ensures c as int >= [0, 0x80, 0x800, 0x10000][RuneBytes(c) - 1]
  {
  }

  /** The widest cell of a column in bytes, and at least 15. */
  function MaxLength(rows: seq<Row>, col: Column): nat {
    if rows == [] then 15
    else
      var m := MaxLength(rows[..|rows| - 1], col);
      var n := ByteLen(Cell(rows[|rows| - 1], col));
      if n > m then n else m
  }

  lemma {:induction false} MaxLengthHolds(rows: seq<Row>, col: Column, i: nat)
    requires i < |rows|
    ensures ByteLen(Cell(rows[i], col)) <= MaxLength(rows, col)
  {
    var front := rows[..|rows| - 1];
    if i < |front| {
      assert front[i] == rows[i];
      MaxLengthHolds(front, col, i);
    }
  }

  lemma {:induction false} MaxLengthReached(rows: seq<Row>, col: Column) returns (i: nat)
    ensures MaxLength(rows, col) >= 15
    ensures MaxLength(rows, col) == 15 || (i < |rows| && ByteLen(Cell(rows[i], col)) == MaxLength(rows, col))
  {
    i := 0;
    if rows != [] {
      var front := rows[..|rows| - 1];
      i := MaxLengthReached(front, col);
      if MaxLength(rows, col) != MaxLength(front, col) {
        i := |rows| - 1;
      }
    }
  }

  /** MaxLength is the least number that is at least 15 and holds every cell. */
  lemma MaxLengthIsLeast(rows: seq<Row>, col: Column)
    ensures MaxLength(rows, col) >= 15
    ensures forall i :: 0 <= i < |rows| ==> ByteLen(Cell(rows[i], col)) <= MaxLength(rows, col)
    ensures MaxLength(rows, col) == 15
         || exists i :: 0 <= i < |rows| && ByteLen(Cell(rows[i], col)) == MaxLength(rows, col)
  {
    forall i | 0 <= i < |rows|
      ensures ByteLen(Cell(rows[i], col)) <= MaxLength(rows, col)
    {
      MaxLengthHolds(rows, col, i);
    }
    var k := MaxLengthReached(rows, col);
  }

  function Width(rows: seq<Row>, col: Column): nat {
    MaxLength(rows, col) + 2
  }

  // ---------- The text ----------

  const H := '\U{2500}'
  const V := '\U{2502}'
  const VR := '\U{251C}'
  const VL := '\U{2524}'
  const HD := '\U{252C}'
  const HU := '\U{2534}'
  const X := '\U{253C}'
  const TL := '\U{256D}'
  const TR := '\U{256E}'
  const BR := '\U{256F}'
  const BL := '\U{2570}'

  function Repeat(c: char, n: nat): (s: string)
    ensures |s| == n && forall i :: 0 <= i < n ==> s[i] == c
  {
    seq(n, _ => c)
  }

  /** fmt's %-Ns: padded on the right to N runes, never cut. */
  function Pad(s: string, width: nat): (r: string)
    ensures |s| <= width ==> |r| == width
  {
    s + Repeat(' ', if |s| < width then width - |s| else 0)
  }

  /** The three column widths. */
  datatype Widths = Widths(name: nat, group: nat, cluster: nat)

  function WidthsOf(rows: seq<Row>): Widths {
    Widths(Width(rows, NameColumn), Width(rows, ResourceGroupColumn), Width(rows, ClusterNameColumn))
  }

  function Border(left: char, middle: char, right: char, w: Widths): string {
    Concat([[left], Repeat(H, w.name + 2), [middle], Repeat(H, w.group + 2), [middle], Repeat(H, w.cluster + 2), [right]])
  }

  function RowLine(r: Row, w: Widths): string {
    Concat([[V, ' '], Pad(r.name, w.name), [' ', V, ' '], Pad(r.resourceGroup, w.group),
            [' ', V, ' '], Pad(r.clusterName, w.cluster), [' ', V]])
  }

  lemma ConcatSeven(a: string, b: string, c: string, d: string, e: string, f: string, g: string)
    ensures Concat([a, b, c, d, e, f, g]) == a + b + c + d + e + f + g
  {
    ConcatOne(a);
    ConcatAppend([a], b);
    ConcatAppend([a, b], c);
    ConcatAppend([a, b, c], d);
    ConcatAppend([a, b, c, d], e);
    ConcatAppend([a, b, c, d, e], f);
    ConcatAppend([a, b, c, d, e, f], g);
    assert [a] + [b] == [a, b];
    assert [a, b] + [c] == [a, b, c];
    assert [a, b, c] + [d] == [a, b, c, d];
    assert [a, b, c, d] + [e] == [a, b, c, d, e];
    assert [a, b, c, d, e] + [f] == [a, b, c, d, e, f];
    assert [a, b, c, d, e, f] + [g] == [a, b, c, d, e, f, g];
  }

  lemma BorderIs(left: char, middle: char, right: char, w: Widths)
    ensures Border(left, middle, right, w)
         == [left] + Repeat(H, w.name + 2) + [middle] + Repeat(H, w.group + 2) + [middle] + Repeat(H, w.cluster + 2) + [right]
  {
    ConcatSeven([left], Repeat(H, w.name + 2), [middle], Repeat(H, w.group + 2), [middle], Repeat(H, w.cluster + 2), [right]);
  }

  lemma RowLineIs(r: Row, w: Widths)
    ensures RowLine(r, w)
         == [V, ' '] + Pad(r.name, w.name) + [' ', V, ' '] + Pad(r.resourceGroup, w.group)
            + [' ', V, ' '] + Pad(r.clusterName, w.cluster) + [' ', V]
  {
    ConcatSeven([V, ' '], Pad(r.name, w.name), [' ', V, ' '], Pad(r.resourceGroup, w.group),
                [' ', V, ' '], Pad(r.clusterName, w.cluster), [' ', V]);
  }

  const HEADER := Row("Name", "Resource Group", "Cluster Name")

  /** Line i of the table, without its newline. */
  function LineOf(rows: seq<Row>, w: Widths, i: nat): string
    requires i < |rows| + 4
  {
    if i == 0 then Border(TL, HD, TR, w)
    else if i == 1 then RowLine(HEADER, w)
    else if i == 2 then Border(VR, X, VL, w)
    else if i < |rows| + 3 then RowLine(rows[i - 3], w)
    else Border(BL, HU, BR, w)
  }

  function TableLines(rows: seq<Row>): (lines: seq<string>)
    ensures |lines| == |rows| + 4
  {
    var w := WidthsOf(rows);
    seq(|rows| + 4, i requires 0 <= i < |rows| + 4 => LineOf(rows, w, i))
  }

  function Unlines(lines: seq<string>): string {
    if lines == [] then "" else Unlines(lines[..|lines| - 1]) + lines[|lines| - 1] + "\n"
  }

  lemma UnlinesAppend(lines: seq<string>, line: string)
    ensures Unlines(lines + [line]) == Unlines(lines) + line + "\n"
  {
    assert (lines + [line])[..|lines|] == lines;
  }

  lemma UnlinesNext(lines: seq<string>, k: nat)
    requires k < |lines|
    ensures Unlines(lines[..k + 1]) == Unlines(lines[..k]) + lines[k] + "\n"
  {
    assert lines[..k + 1] == lines[..k] + [lines[k]];
    UnlinesAppend(lines[..k], lines[k]);
  }

  function TableText(rows: seq<Row>): string {
    Unlines(TableLines(rows))
  }

  // ---------- The code ----------

  /** The three width methods, one for each column. */
  method GetColumnMaxLength(rows: seq<Row>, col: Column) returns (ret: nat)
    ensures ret == MaxLength(rows, col)
  {
    ret := 15;
    for i := 0 to |rows|
      invariant ret == MaxLength(rows[..i], col)
    {
      assert rows[..i + 1][..i] == rows[..i];
      if ByteLen(Cell(rows[i], col)) > ret {
        ret := ByteLen(Cell(rows[i], col));
      }
    }
    assert rows[..|rows|] == rows;
  }

  lemma BodyLine(rows: seq<Row>, i: nat)
    requires i < |rows|
    ensures TableLines(rows)[i + 3] == RowLine(rows[i], WidthsOf(rows))
  {
  }

  /** The loop over the entries. */
  method PrintRows(start: string, rows: seq<Row>, w: Widths) returns (sb: string)
    requires w == WidthsOf(rows) && start == Unlines(TableLines(rows)[..3])
    ensures sb == Unlines(TableLines(rows)[..|rows| + 3])
  {
    ghost var lines := TableLines(rows);
    sb := start;
    for i := 0 to |rows|
      invariant sb == Unlines(lines[..i + 3])
    {
      BodyLine(rows, i);
      UnlinesNext(lines, i + 3);
      sb := sb + RowLine(rows[i], w) + "\n";
    }
  }

  method PrintConfigTable(rows: seq<Row>) returns (sb: string)
    ensures sb == TableText(rows)
  {
    var nameWidth := GetColumnMaxLength(rows, NameColumn);
    var rgWidth := GetColumnMaxLength(rows, ResourceGroupColumn);
    var cnWidth := GetColumnMaxLength(rows, ClusterNameColumn);
    var w := Widths(nameWidth + 2, rgWidth + 2, cnWidth + 2);
    ghost var lines := TableLines(rows);
    sb := "";
    sb := sb + Border(TL, HD, TR, w) + "\n";
    UnlinesNext(lines, 0);
    sb := sb + RowLine(HEADER, w) + "\n";
    UnlinesNext(lines, 1);
    sb := sb + Border(VR, X, VL, w) + "\n";
    UnlinesNext(lines, 2);
    sb := PrintRows(sb, rows, w);
    sb := sb + Border(BL, HU, BR, w) + "\n";
    UnlinesNext(lines, |rows| + 3);
    assert lines[..|rows| + 4] == lines;
  }

  // ---------- Reading lines ----------

  predicate HasNewline(s: string) {
    exists i :: 0 <= i < |s| && s[i] == '\n'
  }

  function LineEnd(s: string): (e: nat)
    ensures e <= |s|
  {
    if s == "" || s[0] == '\n' then 0 else 1 + LineEnd(s[1..])
  }

  /** The lines of a text: each newline ends one. */
  function Lines(s: string): seq<string> {
    if s == "" then []
    else
      var e := LineEnd(s);
      [s[..e]] + Lines(s[if e == |s| then e else e + 1..])
  }

  /** LineEnd is the first newline, or the end. */
  lemma {:induction false} LineEndFirst(s: string)
    ensures forall i :: 0 <= i < LineEnd(s) ==> s[i] != '\n'
    ensures LineEnd(s) < |s| ==> s[LineEnd(s)] == '\n'
  {
    if s != "" && s[0] != '\n' {
      LineEndFirst(s[1..]);
      forall i | 0 <= i < LineEnd(s)
        ensures s[i] != '\n'
      {
        if i > 0 {
          assert s[i] == s[1..][i - 1];
        }
      }
    }
  }

  lemma {:induction false} LineEndAt(s: string, e: nat)
    requires e < |s| && s[e] == '\n' && forall i :: 0 <= i < e ==> s[i] != '\n'
    ensures LineEnd(s) == e
  {
    if e > 0 {
      assert s[0] != '\n';
      LineEndAt(s[1..], e - 1);
    }
  }

  lemma LinesCons(head: string, t: string)
    requires !HasNewline(head)
    ensures Lines(head + "\n" + t) == [head] + Lines(t)
  {
    var s := head + "\n" + t;
    LineEndAt(s, |head|);
    assert s[..|head|] == head;
    assert s[|head| + 1..] == t;
  }

  /** A text that is empty or ends in a newline contributes its lines separately. */
  lemma {:induction false} LinesSplit(a: string, b: string)
    requires a == "" || a[|a| - 1] == '\n'
    ensures Lines(a + b) == Lines(a) + Lines(b)
    decreases |a|
  {
    if a == "" {
      assert a + b == b;
    } else {
      var e := LineEnd(a);
      LineEndFirst(a);
      assert e < |a|;
      var head, rest := a[..e], a[e + 1..];
      assert a == head + "\n" + rest;
      AppendAssoc(head + "\n", rest, b);
      LinesCons(head, rest);
      LinesCons(head, rest + b);
      LinesSplit(rest, b);
      AppendAssoc([head], Lines(rest), Lines(b));
    }
  }

  /** One written line reads back as itself, unless it holds a newline; then it reads back
      as several lines, each of them shorter. */
  lemma {:induction false} LinesOfLine(line: string)
    ensures !HasNewline(line) ==> Lines(line + "\n") == [line]
    ensures HasNewline(line) ==> |Lines(line + "\n")| >= 2
    ensures HasNewline(line) ==> forall i :: 0 <= i < |Lines(line + "\n")| ==> |Lines(line + "\n")[i]| < |line|
    decreases |line|
  {
    var e := LineEnd(line);
    LineEndFirst(line);
    if e == |line| {
      assert !HasNewline(line);
      LinesCons(line, "");
      assert line + "\n" + "" == line + "\n";
    } else {
      var head, rest := line[..e], line[e + 1..];
      assert !HasNewline(head);
      assert line + "\n" == head + "\n" + (rest + "\n");
      LinesCons(head, rest + "\n");
      LinesOfLine(rest);
    }
  }

  predicate AnyNewline(lines: seq<string>) {
    exists i :: 0 <= i < |lines| && HasNewline(lines[i])
  }

  lemma UnlinesEnds(lines: seq<string>)
    ensures Unlines(lines) == "" || Unlines(lines)[|Unlines(lines)| - 1] == '\n'
  {
  }

  lemma LinesOfAppend(front: seq<string>, last: string)
    ensures Lines(Unlines(front + [last])) == Lines(Unlines(front)) + Lines(last + "\n")
  {
    UnlinesAppend(front, last);
    UnlinesEnds(front);
    LinesSplit(Unlines(front), last + "\n");
    assert Unlines(front) + last + "\n" == Unlines(front) + (last + "\n");
  }

  /** Written lines without newlines in them read back as themselves. */
  lemma {:induction false} LinesInvertUnlines(lines: seq<string>)
    requires !AnyNewline(lines)
    ensures Lines(Unlines(lines)) == lines
  {
    if lines != [] {
      var n := |lines| - 1;
      assert lines == lines[..n] + [lines[n]];
      assert !HasNewline(lines[n]);
      LinesInvertUnlines(lines[..n]);
      LinesOfAppend(lines[..n], lines[n]);
      LinesOfLine(lines[n]);
    }
  }

  predicate SomeShorter(lines: seq<string>, width: nat) {
    exists i :: 0 <= i < |lines| && |lines[i]| < width
  }

  lemma ShorterAppend(a: seq<string>, b: seq<string>, width: nat)
    ensures SomeShorter(a, width) || SomeShorter(b, width) ==> SomeShorter(a + b, width)
  {
    if SomeShorter(a, width) {
      var i :| 0 <= i < |a| && |a[i]| < width;
      assert (a + b)[i] == a[i];
    }
    if SomeShorter(b, width) {
      var i :| 0 <= i < |b| && |b[i]| < width;
      assert (a + b)[|a| + i] == b[i];
    }
  }

  /** A newline inside a line makes more lines than were written, and one of them shorter
      than what was written. */
  lemma {:induction false} NewlinesAddLines(lines: seq<string>, width: nat)
    requires forall i :: 0 <= i < |lines| ==> |lines[i]| == width
    ensures |Lines(Unlines(lines))| >= |lines|
    ensures AnyNewline(lines) ==> |Lines(Unlines(lines))| > |lines|
    ensures AnyNewline(lines) ==> SomeShorter(Lines(Unlines(lines)), width)
  {
    if lines != [] {
      var n := |lines| - 1;
      var front, last := lines[..n], lines[n];
      assert lines == front + [last];
      NewlinesAddLines(front, width);
      LinesOfAppend(front, last);
      LinesOfLine(last);
      ShorterAppend(Lines(Unlines(front)), Lines(last + "\n"), width);
      if AnyNewline(lines) && !HasNewline(last) {
        var i :| 0 <= i < |lines| && HasNewline(lines[i]);
        assert HasNewline(front[i]);
      }
      if HasNewline(last) {
        assert |Lines(last + "\n")[0]| < width;
      }
    }
  }

  // ---------- Alignment ----------

  predicate RowHasNewline(r: Row) {
    HasNewline(r.name) || HasNewline(r.resourceGroup) || HasNewline(r.clusterName)
  }

  function TotalWidth(w: Widths): nat {
    w.name + w.group + w.cluster + 10
  }

  predicate Fits(r: Row, w: Widths) {
    |r.name| <= w.name && |r.resourceGroup| <= w.group && |r.clusterName| <= w.cluster
  }

  /** Widths taken in bytes leave room for padding done in runes. */
  lemma RowsFit(rows: seq<Row>)
    ensures Fits(HEADER, WidthsOf(rows))
    ensures forall i :: 0 <= i < |rows| ==> Fits(rows[i], WidthsOf(rows))
  {
    MaxLengthIsLeast(rows, NameColumn);
    MaxLengthIsLeast(rows, ResourceGroupColumn);
    MaxLengthIsLeast(rows, ClusterNameColumn);
    forall i | 0 <= i < |rows|
      ensures Fits(rows[i], WidthsOf(rows))
    {
      assert ByteLen(Cell(rows[i], NameColumn)) <= MaxLength(rows, NameColumn);
      assert ByteLen(Cell(rows[i], ResourceGroupColumn)) <= MaxLength(rows, ResourceGroupColumn);
      assert ByteLen(Cell(rows[i], ClusterNameColumn)) <= MaxLength(rows, ClusterNameColumn);
    }
  }

  predicate IsBar(c: char) {
    c in {V, VR, VL, HD, HU, X, TL, TR, BR, BL}
  }

  /** Where the table's four bars stand in every line. */
  function BarOffsets(w: Widths): (offsets: seq<nat>)
    ensures forall k :: 0 <= k < |offsets| ==> offsets[k] < TotalWidth(w)
  {
    [0, w.name + 3, w.name + w.group + 6, w.name + w.group + w.cluster + 9]
  }

  predicate Barred(line: string, w: Widths) {
    |line| == TotalWidth(w) && forall k :: 0 <= k < 4 ==> IsBar(line[BarOffsets(w)[k]])
  }

  lemma BorderBarred(left: char, middle: char, right: char, w: Widths)
    requires IsBar(left) && IsBar(middle) && IsBar(right)
    ensures Barred(Border(left, middle, right, w), w)
  {
    var a, b, c := Repeat(H, w.name + 2), Repeat(H, w.group + 2), Repeat(H, w.cluster + 2);
    var line := [left] + a + [middle] + b + [middle] + c + [right];
    BorderIs(left, middle, right, w);
    assert line[w.name + 3] == middle;
    assert line[w.name + w.group + 6] == middle;
    assert line[w.name + w.group + w.cluster + 9] == right;
  }

  lemma RowBarred(r: Row, w: Widths)
    requires Fits(r, w)
    ensures Barred(RowLine(r, w), w)
    ensures forall k :: 0 <= k < 4 ==> RowLine(r, w)[BarOffsets(w)[k]] == V
  {
    RowLineIs(r, w);
    var line := RowLine(r, w);
    assert line[w.name + 3] == V;
    assert line[w.name + w.group + 6] == V;
    assert line[w.name + w.group + w.cluster + 9] == V;
  }

  lemma LineBarred(rows: seq<Row>, i: nat)
    requires i < |rows| + 4
    ensures Barred(TableLines(rows)[i], WidthsOf(rows))
  {
    var w := WidthsOf(rows);
    RowsFit(rows);
    if i == 0 {
      BorderBarred(TL, HD, TR, w);
    } else if i == 1 {
      RowBarred(HEADER, w);
    } else if i == 2 {
      BorderBarred(VR, X, VL, w);
    } else if i < |rows| + 3 {
      RowBarred(rows[i - 3], w);
    } else {
      BorderBarred(BL, HU, BR, w);
    }
  }

  lemma NewlineInConcat(a: string, b: string)
    ensures HasNewline(a + b) <==> HasNewline(a) || HasNewline(b)
  {
    if HasNewline(a) {
      var i :| 0 <= i < |a| && a[i] == '\n';
      assert (a + b)[i] == '\n';
    }
    if HasNewline(b) {
      var i :| 0 <= i < |b| && b[i] == '\n';
      assert (a + b)[|a| + i] == '\n';
    }
  }

  lemma PadNewline(s: string, width: nat)
    ensures HasNewline(Pad(s, width)) <==> HasNewline(s)
  {
    NewlineInConcat(s, Repeat(' ', if |s| < width then width - |s| else 0));
  }

  lemma RowLineNewline(r: Row, w: Widths)
    ensures HasNewline(RowLine(r, w)) <==> RowHasNewline(r)
  {
    var n, g, c := Pad(r.name, w.name), Pad(r.resourceGroup, w.group), Pad(r.clusterName, w.cluster);
    var s1 := [V, ' '] + n;
    var s2 := s1 + [' ', V, ' '];
    var s3 := s2 + g;
    var s4 := s3 + [' ', V, ' '];
    var s5 := s4 + c;
    RowLineIs(r, w);
    assert RowLine(r, w) == s5 + [' ', V];
    NewlineInConcat([V, ' '], n);
    NewlineInConcat(s1, [' ', V, ' ']);
    NewlineInConcat(s2, g);
    NewlineInConcat(s3, [' ', V, ' ']);
    NewlineInConcat(s4, c);
    NewlineInConcat(s5, [' ', V]);
    PadNewline(r.name, w.name);
    PadNewline(r.resourceGroup, w.group);
    PadNewline(r.clusterName, w.cluster);
  }

  lemma HeaderNewline(w: Widths)
    ensures !HasNewline(RowLine(HEADER, w))
  {
    RowLineNewline(HEADER, w);
  }

  lemma BorderNewline(left: char, middle: char, right: char, w: Widths)
    requires IsBar(left) && IsBar(middle) && IsBar(right)
    ensures !HasNewline(Border(left, middle, right, w))
  {
    BorderIs(left, middle, right, w);
  }

  lemma LineNewline(rows: seq<Row>, i: nat)
    requires i < |rows| + 4
    ensures HasNewline(TableLines(rows)[i]) <==> 3 <= i < |rows| + 3 && RowHasNewline(rows[i - 3])
  {
    var w := WidthsOf(rows);
    if i == 0 {
      BorderNewline(TL, HD, TR, w);
    } else if i == 1 {
      HeaderNewline(w);
    } else if i == 2 {
      BorderNewline(VR, X, VL, w);
    } else if i < |rows| + 3 {
      RowLineNewline(rows[i - 3], w);
    } else {
      BorderNewline(BL, HU, BR, w);
    }
  }

  lemma TableNewlines(rows: seq<Row>)
    ensures AnyNewline(TableLines(rows)) <==> exists i :: 0 <= i < |rows| && RowHasNewline(rows[i])
  {
    var lines := TableLines(rows);
    if i :| 0 <= i < |lines| && HasNewline(lines[i]) {
      LineNewline(rows, i);
      assert RowHasNewline(rows[i - 3]);
    }
    if i :| 0 <= i < |rows| && RowHasNewline(rows[i]) {
      LineNewline(rows, i + 3);
      assert HasNewline(lines[i + 3]);
    }
  }

  /** All lines of a text have the same number of runes. */
  predicate SameWidth(lines: seq<string>) {
    forall i, j :: 0 <= i < |lines| && 0 <= j < |lines| ==> |lines[i]| == |lines[j]|
  }

  lemma {:induction false} FirstOfUnlines(lines: seq<string>)
    requires |lines| > 0 && !HasNewline(lines[0])
    ensures |Lines(Unlines(lines))| > 0 && Lines(Unlines(lines))[0] == lines[0]
  {
    var n := |lines| - 1;
    assert lines == lines[..n] + [lines[n]];
    LinesOfAppend(lines[..n], lines[n]);
    if n == 0 {
      LinesOfLine(lines[0]);
    } else {
      FirstOfUnlines(lines[..n]);
    }
  }

  /** The top border always reads back. */
  lemma FirstLineKept(rows: seq<Row>)
    ensures |Lines(TableText(rows))| > 0
    ensures |Lines(TableText(rows))[0]| == TotalWidth(WidthsOf(rows))
    ensures Lines(TableText(rows))[0] == TableLines(rows)[0]
  {
    var lines := TableLines(rows);
    BorderNewline(TL, HD, TR, WidthsOf(rows));
    FirstOfUnlines(lines);
    BorderBarred(TL, HD, TR, WidthsOf(rows));
    assert !HasNewline(lines[0]);
  }

  /** Alignment, exactly: the lines of the table all have the same rune count if and only if
      no cell holds a newline; then they also carry their bars at the same offsets. Cells of
      multi-byte runes are no exception. */
  lemma AlignedIffNoNewline(rows: seq<Row>)
    ensures SameWidth(Lines(TableText(rows))) <==> (forall i :: 0 <= i < |rows| ==> !RowHasNewline(rows[i]))
    ensures SameWidth(Lines(TableText(rows))) ==>
              && |Lines(TableText(rows))| == |rows| + 4
              && forall i :: 0 <= i < |rows| + 4 ==> Barred(Lines(TableText(rows))[i], WidthsOf(rows))
  {
    var lines := TableLines(rows);
    var width := TotalWidth(WidthsOf(rows));
    forall i | 0 <= i < |lines|
      ensures Barred(lines[i], WidthsOf(rows))
    {
      LineBarred(rows, i);
    }
    TableNewlines(rows);
    NewlinesAddLines(lines, width);
    if AnyNewline(lines) {
      FirstLineKept(rows);
    } else {
      LinesInvertUnlines(lines);
    }
  }

  // ---------- Reading the table back ----------

  function IndexFrom(s: string, c: char, from: nat): (i: nat)
    requires from <= |s|
    ensures from <= i <= |s|
    decreases |s| - from
  {
    if from == |s| || s[from] == c then from else IndexFrom(s, c, from + 1)
  }

  lemma {:induction false} IndexFromIs(s: string, c: char, from: nat, k: nat)
    requires from <= k < |s| && s[k] == c && forall j :: from <= j < k ==> s[j] != c
    ensures IndexFrom(s, c, from) == k
    decreases k - from
  {
    if from < k {
      IndexFromIs(s, c, from + 1, k);
    }
  }

  /** The part of a line between two offsets, as far as the line reaches. */
  function Slice(line: string, from: int, to: int): string {
    if 0 <= from <= to <= |line| then line[from..to] else ""
  }

  function TrimRight(s: string): string {
    if s != "" && s[|s| - 1] == ' ' then TrimRight(s[..|s| - 1]) else s
  }

  /** One body line, cut at the inner bars a and b and the right end of the top border. */
  function ReadRow(line: string, a: nat, b: nat, end: nat): Row {
    Row(TrimRight(Slice(line, 2, a - 1)), TrimRight(Slice(line, a + 2, b - 1)), TrimRight(Slice(line, b + 2, end - 2)))
  }

  /** The offsets of the two inner bars of the top border. */
  function InnerBars(top: string): (nat, nat) {
    var a := IndexFrom(top, HD, 0);
    (a, if a < |top| then IndexFrom(top, HD, a + 1) else |top|)
  }

  function RowReader(a: nat, b: nat, end: nat): string -> Row {
    line => ReadRow(line, a, b, end)
  }

  /** Everything but the three head lines and the last. */
  function ReadBody(read: string -> Row, lines: seq<string>): seq<Row>
    requires |lines| >= 4
  {
    seq(|lines| - 4, i requires 0 <= i < |lines| - 4 => read(lines[i + 3]))
  }

  function ReadTable(text: string): seq<Row> {
    var lines := Lines(text);
    if |lines| < 4 then []
    else
      var (a, b) := InnerBars(lines[0]);
      ReadBody(RowReader(a, b, |lines[0]|), lines)
  }

  predicate EndsInSpace(s: string) {
    s != "" && s[|s| - 1] == ' '
  }

  /** A row that the table shows without loss. */
  predicate Readable(r: Row) {
    && !RowHasNewline(r)
    && !EndsInSpace(r.name) && !EndsInSpace(r.resourceGroup) && !EndsInSpace(r.clusterName)
  }

  lemma {:induction false} TrimPad(s: string, n: nat)
    ensures TrimRight(s + Repeat(' ', n)) == TrimRight(s)
  {
    if n == 0 {
      assert s + Repeat(' ', n) == s;
    } else {
      var padded := s + Repeat(' ', n);
      assert padded[..|padded| - 1] == s + Repeat(' ', n - 1);
      TrimPad(s, n - 1);
    }
  }

  lemma {:induction false} TrimShrinks(s: string)
    ensures |TrimRight(s)| <= |s|
    ensures TrimRight(s) == s <==> !EndsInSpace(s)
  {
    if EndsInSpace(s) {
      TrimShrinks(s[..|s| - 1]);
    }
  }

  lemma TopBars(w: Widths)
    ensures InnerBars(Border(TL, HD, TR, w)) == (w.name + 3, w.name + w.group + 6)
    ensures |Border(TL, HD, TR, w)| == TotalWidth(w)
  {
    var top := Border(TL, HD, TR, w);
    var a, b, c := Repeat(H, w.name + 2), Repeat(H, w.group + 2), Repeat(H, w.cluster + 2);
    BorderIs(TL, HD, TR, w);
    assert top == [TL] + a + [HD] + b + [HD] + c + [TR];
    assert forall j :: 1 <= j < w.name + 3 ==> top[j] == a[j - 1];
    assert top[w.name + 3] == HD;
    assert forall j :: w.name + 4 <= j < w.name + w.group + 6 ==> top[j] == b[j - w.name - 4];
    assert top[w.name + w.group + 6] == HD;
    IndexFromIs(top, HD, 0, w.name + 3);
    IndexFromIs(top, HD, w.name + 4, w.name + w.group + 6);
  }

  lemma CellReads(line: string, from: nat, cell: string, width: nat)
    requires |cell| <= width && from + width <= |line| && line[from..from + width] == Pad(cell, width)
    ensures TrimRight(Slice(line, from, from + width)) == TrimRight(cell)
  {
    TrimPad(cell, width - |cell|);
    assert Pad(cell, width) == cell + Repeat(' ', width - |cell|);
  }

  lemma RowSlices(r: Row, w: Widths)
    requires Fits(r, w)
    ensures |RowLine(r, w)| == TotalWidth(w)
    ensures RowLine(r, w)[2..w.name + 2] == Pad(r.name, w.name)
    ensures RowLine(r, w)[w.name + 5..w.name + w.group + 5] == Pad(r.resourceGroup, w.group)
    ensures RowLine(r, w)[w.name + w.group + 8..w.name + w.group + w.cluster + 8] == Pad(r.clusterName, w.cluster)
  {
    RowLineIs(r, w);
  }

  function Trimmed(r: Row): Row {
    Row(TrimRight(r.name), TrimRight(r.resourceGroup), TrimRight(r.clusterName))
  }

  /** A row's line gives back its cells without their trailing spaces. */
  lemma RowReads(r: Row, w: Widths)
    requires Fits(r, w)
    ensures RowReader(w.name + 3, w.name + w.group + 6, TotalWidth(w))(RowLine(r, w)) == Trimmed(r)
  {
    var line := RowLine(r, w);
    RowSlices(r, w);
    CellReads(line, 2, r.name, w.name);
    CellReads(line, w.name + 5, r.resourceGroup, w.group);
    CellReads(line, w.name + w.group + 8, r.clusterName, w.cluster);
  }

  lemma ReadBodyIs(read: string -> Row, lines: seq<string>, want: seq<Row>)
    requires |lines| == |want| + 4
    requires forall i :: 0 <= i < |want| ==> read(lines[i + 3]) == want[i]
    ensures ReadBody(read, lines) == want
  {
  }

  /** The rows as the table can give them back. */
  function AllTrimmed(rows: seq<Row>): seq<Row> {
    seq(|rows|, i requires 0 <= i < |rows| => Trimmed(rows[i]))
  }

  lemma BodyReads(rows: seq<Row>, w: Widths)
    requires w == WidthsOf(rows)
    ensures ReadBody(RowReader(w.name + 3, w.name + w.group + 6, TotalWidth(w)), TableLines(rows)) == AllTrimmed(rows)
  {
    var read := RowReader(w.name + 3, w.name + w.group + 6, TotalWidth(w));
    forall i | 0 <= i < |rows|
      ensures read(TableLines(rows)[i + 3]) == AllTrimmed(rows)[i]
    {
      RowsFit(rows);
      BodyLine(rows, i);
      RowReads(rows[i], w);
    }
    ReadBodyIs(read, TableLines(rows), AllTrimmed(rows));
  }

  lemma ReadTableIs(text: string, lines: seq<string>, a: nat, b: nat, end: nat, want: seq<Row>)
    requires Lines(text) == lines && |lines| >= 4 && InnerBars(lines[0]) == (a, b) && |lines[0]| == end
    requires ReadBody(RowReader(a, b, end), lines) == want
    ensures ReadTable(text) == want
  {
  }

  lemma CleanLines(rows: seq<Row>)
    requires !AnyNewline(TableLines(rows))
    ensures Lines(TableText(rows)) == TableLines(rows)
  {
    LinesInvertUnlines(TableLines(rows));
  }

  lemma TopLine(rows: seq<Row>, w: Widths)
    requires w == WidthsOf(rows)
    ensures InnerBars(TableLines(rows)[0]) == (w.name + 3, w.name + w.group + 6)
    ensures |TableLines(rows)[0]| == TotalWidth(w)
  {
    TopBars(w);
  }

  lemma CleanTableReads(rows: seq<Row>)
    requires !AnyNewline(TableLines(rows))
    ensures ReadTable(TableText(rows)) == AllTrimmed(rows)
  {
    var w := WidthsOf(rows);
    CleanLines(rows);
    TopLine(rows, w);
    BodyReads(rows, w);
    ReadTableIs(TableText(rows), TableLines(rows), w.name + 3, w.name + w.group + 6, TotalWidth(w), AllTrimmed(rows));
  }

  /** A newline in a cell makes the table read back longer than it is. */
  lemma UncleanTableReads(rows: seq<Row>)
    requires AnyNewline(TableLines(rows))
    ensures |ReadTable(TableText(rows))| > |rows|
  {
    forall i | 0 <= i < |TableLines(rows)|
      ensures Barred(TableLines(rows)[i], WidthsOf(rows))
    {
      LineBarred(rows, i);
    }
    NewlinesAddLines(TableLines(rows), TotalWidth(WidthsOf(rows)));
  }

  /** What reading the table gives: all rows, in order and without the trailing spaces of their
      cells, if and only if no cell holds a newline. */
  lemma TableReadsTrimmed(rows: seq<Row>)
    ensures ReadTable(TableText(rows)) == AllTrimmed(rows) <==> (forall i :: 0 <= i < |rows| ==> !RowHasNewline(rows[i]))
  {
    TableNewlines(rows);
    if AnyNewline(TableLines(rows)) {
      UncleanTableReads(rows);
    } else {
      CleanTableReads(rows);
    }
  }

  /** The round trip, exactly: the table gives back its rows, all of them and in order, if
      and only if no cell holds a newline or ends in a space. */
  lemma TableRoundTrip(rows: seq<Row>)
    ensures ReadTable(TableText(rows)) == rows <==> (forall i :: 0 <= i < |rows| ==> Readable(rows[i]))
  {
    var back := ReadTable(TableText(rows));
    TableNewlines(rows);
    if AnyNewline(TableLines(rows)) {
      UncleanTableReads(rows);
    } else {
      CleanTableReads(rows);
      forall i | 0 <= i < |rows|
        ensures back[i] == rows[i] <==> Readable(rows[i])
      {
        TrimShrinks(rows[i].name);
        TrimShrinks(rows[i].resourceGroup);
        TrimShrinks(rows[i].clusterName);
      }
    }
  }

  /** A name of two lines breaks the table and does not read back. */
  lemma NewlineBreaksTable()
    ensures var rows := [Row("a\nb", "g", "c")];
            !SameWidth(Lines(TableText(rows))) && ReadTable(TableText(rows)) != rows
  {
    var rows := [Row("a\nb", "g", "c")];
    assert rows[0].name[1] == '\n';
    assert RowHasNewline(rows[0]) && !Readable(rows[0]);
    AlignedIffNoNewline(rows);
    TableRoundTrip(rows);
  }

  /** A name that ends in a space keeps the table aligned but does not read back. */
  lemma TrailingSpaceIsLost()
    ensures var rows := [Row("a ", "g", "c")];
            SameWidth(Lines(TableText(rows))) && ReadTable(TableText(rows)) != rows
  {
    var rows := [Row("a ", "g", "c")];
    assert !RowHasNewline(rows[0]) && !Readable(rows[0]);
    AlignedIffNoNewline(rows);
    TableRoundTrip(rows);
  }


  // ---------- The signs ----------

  /** The line has these signs at the bars, and the filling everywhere else. */
  predicate BarsAre(line: string, w: Widths, left: char, middle: char, right: char, filling: char) {
    && |line| == TotalWidth(w)
    && forall i :: 0 <= i < |line| ==>
         line[i] == (if i == 0 then left else if i == BarOffsets(w)[3] then right
                     else if i == BarOffsets(w)[1] || i == BarOffsets(w)[2] then middle else filling)
  }

  lemma BorderSpells(left: char, middle: char, right: char, w: Widths)
    ensures BarsAre(Border(left, middle, right, w), w, left, middle, right, '\U{2500}')
  {
    BorderIs(left, middle, right, w);
  }

  lemma BorderLines(rows: seq<Row>)
    ensures var w, lines := WidthsOf(rows), TableLines(rows);
            && lines[0] == Border('\U{256D}', '\U{252C}', '\U{256E}', w)
            && lines[2] == Border('\U{251C}', '\U{253C}', '\U{2524}', w)
            && lines[|rows| + 3] == Border('\U{2570}', '\U{2534}', '\U{256F}', w)
  {
  }

  /** Which signs the borders of a table are made of, for all rows. */
  lemma BordersSpell(rows: seq<Row>, w: Widths)
    requires w == WidthsOf(rows)
    ensures BarsAre(TableLines(rows)[0], w, '\U{256D}', '\U{252C}', '\U{256E}', '\U{2500}')
    ensures BarsAre(TableLines(rows)[2], w, '\U{251C}', '\U{253C}', '\U{2524}', '\U{2500}')
    ensures BarsAre(TableLines(rows)[|rows| + 3], w, '\U{2570}', '\U{2534}', '\U{256F}', '\U{2500}')
  {
    BorderLines(rows);
    BorderSpells('\U{256D}', '\U{252C}', '\U{256E}', w);
    BorderSpells('\U{251C}', '\U{253C}', '\U{2524}', w);
    BorderSpells('\U{2570}', '\U{2534}', '\U{256F}', w);
  }

  /** Where the bars stand: two runes of padding and two of margin more than the widest cell. */
  lemma BarsStand(rows: seq<Row>)
    ensures var n, g, c := MaxLength(rows, NameColumn), MaxLength(rows, ResourceGroupColumn), MaxLength(rows, ClusterNameColumn);
            && BarOffsets(WidthsOf(rows)) == [0, n + 5, n + g + 10, n + g + c + 15]
            && TotalWidth(WidthsOf(rows)) == n + g + c + 16
  {
  }

  predicate Upright(line: string, w: Widths) {
    && |line| == TotalWidth(w)
    && forall k :: 0 <= k < 4 ==> line[BarOffsets(w)[k]] == '\U{2502}'
  }

  /** The second line of every table, between upright bars, reads Name, Resource Group, Cluster Name. */
  lemma HeaderReads(rows: seq<Row>, w: Widths)
    requires w == WidthsOf(rows)
    ensures Upright(TableLines(rows)[1], w)
    ensures RowReader(w.name + 3, w.name + w.group + 6, TotalWidth(w))(TableLines(rows)[1])
         == Row("Name", "Resource Group", "Cluster Name")
  {
    RowsFit(rows);
    RowBarred(HEADER, w);
    RowReads(HEADER, w);
    TrimShrinks("Name");
    TrimShrinks("Resource Group");
    TrimShrinks("Cluster Name");
    assert "Name"[3] == 'e' && "Resource Group"[13] == 'p' && "Cluster Name"[11] == 'e';
  }

  /** And each body line has the same upright bars. */
  lemma BodyBars(rows: seq<Row>, i: nat)
    requires i < |rows|
    ensures Upright(TableLines(rows)[i + 3], WidthsOf(rows))
  {
    RowsFit(rows);
    BodyLine(rows, i);
    RowBarred(rows[i], WidthsOf(rows));
  }
}

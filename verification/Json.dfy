/** JSON texts as RFC 8259 defines them in sections 2 (white space and structure),
    4 (objects), 5 (arrays) and 7 (strings): a recursive-descent reader. Numbers and the
    three literal names are not part of this model. */
module Json {
  import opened Wrappers

  datatype Json = JString(s: string) | JArray(elements: seq<Json>) | JObject(members: seq<Member>)

  /** Members keep their order, and duplicates stay. */
  datatype Member = Member(key: string, value: Json)

  predicate IsWs(c: char) {
    c == ' ' || c == '\t' || c == '\n' || c == '\r'
  }

  function SkipWs(s: string): (r: string)
    ensures |r| <= |s|
  {
    if s != "" && IsWs(s[0]) then SkipWs(s[1..]) else s
  }

  // ---------- Strings (section 7) ----------

  function HexDigit(c: char): (r: Option<nat>)
    ensures r.Some? ==> r.value < 16
  {
    if '0' <= c <= '9' then Some(c as int - '0' as int)
    else if 'a' <= c <= 'f' then Some(c as int - 'a' as int + 10)
    else if 'A' <= c <= 'F' then Some(c as int - 'A' as int + 10)
    else None
  }

  /** The number written by `uXXXX` at the front of s. */
  function CodeUnit(s: string): (r: Option<nat>)
    ensures r.Some? ==> r.value < 0x10000 && |s| >= 5 && forall i :: 0 <= i < 5 ==> s[i] != '"'
  {
    if |s| < 5 || s[0] != 'u' then None
    else
      var (a, b, c, d) := (HexDigit(s[1]), HexDigit(s[2]), HexDigit(s[3]), HexDigit(s[4]));
      if a.None? || b.None? || c.None? || d.None? then None
      else Some(((a.value * 16 + b.value) * 16 + c.value) * 16 + d.value)
  }

  function TwoCharEscape(c: char): Option<char> {
    match c
    case '"' => Some('"')
    case '\\' => Some('\\')
    case '/' => Some('/')
    case 'b' => Some(8 as char)
    case 'f' => Some(12 as char)
    case 'n' => Some('\n')
    case 'r' => Some('\r')
    case 't' => Some('\t')
    case _ => None
  }

  /** The character written by the escape at the front of s, and how long the escape is. A
      surrogate pair makes one character; half of one makes U+FFFD. */
  function Escape(s: string): (r: Option<(char, nat)>)
    requires s != "" && s[0] == '\\'
    ensures r.Some? ==> 2 <= r.value.1 <= |s| && forall i :: 2 <= i < r.value.1 ==> s[i] != '"'
    ensures |s| > 1 && s[1] == '"' ==> r == Some(('"', 2))
  {
    if |s| < 2 then None
    else if TwoCharEscape(s[1]).Some? then Some((TwoCharEscape(s[1]).value, 2))
    else if CodeUnit(s[1..]).None? then None
    else
      assert forall i :: 2 <= i < 6 ==> s[i] == s[1..][i - 1];
      var u := CodeUnit(s[1..]).value;
      if u < 0xD800 || 0xE000 <= u then Some((u as char, 6))
      else
        var low := if |s| > 6 && s[6] == '\\' then CodeUnit(s[7..]) else None;
        if u < 0xDC00 && low.Some? && 0xDC00 <= low.value < 0xE000 then
          assert forall i :: 7 <= i < 12 ==> s[i] == s[7..][i - 7];
          Some(((0x10000 + (u - 0xD800) * 0x400 + (low.value - 0xDC00)) as char, 12))
        else Some(('\U{FFFD}', 6))
  }

  function Prepend(c: char, r: Option<(string, string)>): Option<(string, string)> {
    if r.None? then None else Some(([c] + r.value.0, r.value.1))
  }

  /** The rest of a string after its opening quote, and the text after its closing one. */
  function ReadChars(s: string): (r: Option<(string, string)>)
    ensures r.Some? ==> |r.value.1| < |s|
  {
    if s == "" then None
    else if s[0] == '"' then Some(("", s[1..]))
    else if s[0] == '\\' then
      var e := Escape(s);
      if e.None? then None else Prepend(e.value.0, ReadChars(s[e.value.1..]))
    else if s[0] < ' ' then None
    else Prepend(s[0], ReadChars(s[1..]))
  }

  // ---------- Values (sections 2, 4 and 5) ----------

  function ReadValue(s0: string): (r: Option<(Json, string)>)
    ensures r.Some? ==> |r.value.1| < |s0|
    decreases |s0|, 2
  {
    var s := SkipWs(s0);
    if s == "" then None
    else if s[0] == '"' then
      var r := ReadChars(s[1..]);
      if r.None? then None else Some((JString(r.value.0), r.value.1))
    else if s[0] == '[' then
      var rest := SkipWs(s[1..]);
      if rest != "" && rest[0] == ']' then Some((JArray([]), rest[1..]))
      else
        var r := ReadElements(s[1..]);
        if r.None? then None else Some((JArray(r.value.0), r.value.1))
    else if s[0] == '{' then
      var rest := SkipWs(s[1..]);
      if rest != "" && rest[0] == '}' then Some((JObject([]), rest[1..]))
      else
        var r := ReadMembers(s[1..]);
        if r.None? then None else Some((JObject(r.value.0), r.value.1))
    else None
  }

  /** One or more values, then a closing bracket. */
  function ReadElements(s: string): (r: Option<(seq<Json>, string)>)
    ensures r.Some? ==> |r.value.1| < |s|
    decreases |s|, 3
  {
    var v := ReadValue(s);
    if v.None? then None
    else
      var rest := SkipWs(v.value.1);
      if rest == "" then None
      else if rest[0] == ']' then Some(([v.value.0], rest[1..]))
      else if rest[0] == ',' then
        var more := ReadElements(rest[1..]);
        if more.None? then None else Some(([v.value.0] + more.value.0, more.value.1))
      else None
  }

  function ReadMember(s0: string): (r: Option<(Member, string)>)
    ensures r.Some? ==> |r.value.1| < |s0|
    decreases |s0|, 2
  {
    var s := SkipWs(s0);
    if s == "" || s[0] != '"' then None
    else
      var key := ReadChars(s[1..]);
      if key.None? then None
      else
        var rest := SkipWs(key.value.1);
        if rest == "" || rest[0] != ':' then None
        else
          var v := ReadValue(rest[1..]);
          if v.None? then None else Some((Member(key.value.0, v.value.0), v.value.1))
  }

  /** One or more members, then a closing brace. */
  function ReadMembers(s: string): (r: Option<(seq<Member>, string)>)
    ensures r.Some? ==> |r.value.1| < |s|
    decreases |s|, 3
  {
    var m := ReadMember(s);
    if m.None? then None
    else
      var rest := SkipWs(m.value.1);
      if rest == "" then None
      else if rest[0] == '}' then Some(([m.value.0], rest[1..]))
      else if rest[0] == ',' then
        var more := ReadMembers(rest[1..]);
        if more.None? then None else Some(([m.value.0] + more.value.0, more.value.1))
      else None
  }

  /** A whole JSON text: one value, with white space around it. */
  function ReadText(s: string): Option<Json> {
    var v := ReadValue(s);
    if v.None? || SkipWs(v.value.1) != "" then None else Some(v.value.0)
  }

  // ---------- Unescaped contents ----------

  /** Characters that may stand in a string as themselves. */
  predicate Plain(c: char) {
    c != '"' && c != '\\' && c >= ' '
  }

  predicate Clean(s: string) {
    forall i :: 0 <= i < |s| ==> Plain(s[i])
  }

  lemma {:induction false} CleanReads(f: string, t: string)
    requires Clean(f)
    ensures ReadChars(f + "\"" + t) == Some((f, t))
  {
    var s := f + "\"" + t;
    if f == "" {
      assert s[1..] == t;
    } else {
      CleanReads(f[1..], t);
      assert s[1..] == f[1..] + "\"" + t;
      assert s[0] == f[0] && Plain(f[0]);
      assert [f[0]] + f[1..] == f;
    }
  }

  predicate EndsWith(d: string, tail: string) {
    |d| >= |tail| && d[|d| - |tail|..] == tail
  }

  lemma EndsWithPrepend(c: char, d: string, tail: string)
    requires EndsWith(d, tail)
    ensures EndsWith([c] + d, tail)
  {
    assert ([c] + d)[|d| + 1 - |tail|..] == d[|d| - |tail|..];
  }

  /** What reading contents f that were quoted without escaping can give: something shorter;
      f itself, if f is clean; or, if f ends in a backslash, a string that swallows its
      closing quote and runs on. */
  lemma {:induction false} QuotedReads(f: string, t: string)
    requires ReadChars(f + "\"" + t).Some?
    ensures var (d, rest) := ReadChars(f + "\"" + t).value;
            || |d| < |f|
            || (d == f && Clean(f) && rest == t)
            || (f != "" && f[|f| - 1] == '\\' && ReadChars(t).Some? && EndsWith(d, "\"" + ReadChars(t).value.0))
    decreases |f|
  {
    var s := f + "\"" + t;
    if f == "" {
      assert s[1..] == t;
    } else if f[0] == '"' {
    } else if f[0] == '\\' {
      var (c, n) := Escape(s).value;
      assert s[|f|] == '"';
      if n > |f| {
        assert |f| == 1;
        assert s[2..] == t;
      } else {
        assert s[n..] == f[n..] + "\"" + t;
        QuotedReads(f[n..], t);
        var (d, rest) := ReadChars(s[n..]).value;
        if |d| >= |f[n..]| && d != f[n..] {
          EndsWithPrepend(c, d, "\"" + ReadChars(t).value.0);
        }
      }
    } else {
      assert s[1..] == f[1..] + "\"" + t;
      QuotedReads(f[1..], t);
      var (d, rest) := ReadChars(s[1..]).value;
      if d == f[1..] && Clean(f[1..]) && rest == t {
        assert [f[0]] + f[1..] == f;
      } else if |d| >= |f[1..]| {
        EndsWithPrepend(f[0], d, "\"" + ReadChars(t).value.0);
      }
    }
  }

  /** Text that, were it swallowed by a string, would not let the string end in a backslash. */
  predicate Harmless(t: string) {
    ReadChars(t).None? || (ReadChars(t).value.0 != "" && ReadChars(t).value.0[|ReadChars(t).value.0| - 1] != '\\')
  }

  /** Quoting without escaping is exact on clean contents, and on no others. */
  lemma QuotedExactly(f: string, t: string)
    requires Harmless(t)
    ensures ReadChars(f + "\"" + t).Some? && ReadChars(f + "\"" + t).value.0 == f <==> Clean(f)
    ensures Clean(f) ==> ReadChars(f + "\"" + t) == Some((f, t))
  {
    if Clean(f) {
      CleanReads(f, t);
    } else if ReadChars(f + "\"" + t).Some? {
      QuotedReads(f, t);
      var d := ReadChars(f + "\"" + t).value.0;
      if ReadChars(t).Some? && EndsWith(d, "\"" + ReadChars(t).value.0) {
        var tail := "\"" + ReadChars(t).value.0;
        assert d[|d| - 1] == d[|d| - |tail|..][|tail| - 1];
      }
    }
  }

  // ---------- Contents with escapes ----------

  /** What f stands for between quotes, if it is the inside of a JSON string. */
  function Contents(f: string): (d: Option<string>) {
    var r := ReadChars(f + "\"");
    if r.Some? && r.value.1 == "" then Some(r.value.0) else None
  }

  predicate Quoteless(f: string) {
    forall i :: 0 <= i < |f| ==> f[i] != '"'
  }

  lemma CodeUnitStable(g: string, t: string)
    ensures CodeUnit(g + "\"" + t) == CodeUnit(g + "\"")
  {
    var s, s' := g + "\"", g + "\"" + t;
    assert s'[|g|] == '"' && s[|g|] == '"';
    assert forall i :: 0 <= i < |s| ==> s'[i] == s[i];
  }

  /** An escape does not look past the closing quote. */
  lemma EscapeStable(f: string, t: string)
    requires f != "" && f[0] == '\\'
    ensures Escape(f + "\"" + t) == Escape(f + "\"")
  {
    var s, s' := f + "\"", f + "\"" + t;
    assert forall i :: 0 <= i < |s| ==> s'[i] == s[i];
    if |f| > 1 {
      assert s[1..] == f[1..] + "\"" && s'[1..] == f[1..] + "\"" + t;
      CodeUnitStable(f[1..], t);
    }
    if |f| > 6 {
      assert s[7..] == f[7..] + "\"" && s'[7..] == f[7..] + "\"" + t;
      CodeUnitStable(f[7..], t);
    }
  }

  /** How a string that starts with an escape reads. */
  lemma EscapeRead(f: string, t: string)
    requires f != "" && f[0] == '\\'
    ensures var e := Escape(f + "\"");
            ReadChars(f + "\"" + t) ==
            (if e.None? then None
             else if e.value.1 <= |f| then Prepend(e.value.0, ReadChars(f[e.value.1..] + "\"" + t))
             else Prepend('"', ReadChars(t)))
  {
    var s := f + "\"" + t;
    EscapeStable(f, t);
    assert s[|f|] == '"';
    if Escape(s).Some? {
      var n := Escape(s).value.1;
      assert n <= |f| ==> s[n..] == f[n..] + "\"" + t;
      assert !(2 <= |f| < n);
      assert |f| == 1 ==> s[1] == '"' && s[2..] == t;
    }
  }

  /** How a string that starts with a character of its own reads. */
  lemma PlainRead(f: string, t: string)
    requires f != "" && f[0] != '"' && f[0] != '\\'
    ensures ReadChars(f + "\"" + t) == if f[0] < ' ' then None else Prepend(f[0], ReadChars(f[1..] + "\"" + t))
  {
    assert (f + "\"" + t)[1..] == f[1..] + "\"" + t;
  }

  /** The string after its first character or escape. */
  function Rest(f: string): string
    requires f != ""
  {
    if f[0] != '\\' then f[1..]
    else
      var e := Escape(f + "\"");
      if e.Some? && e.value.1 <= |f| then f[e.value.1..] else ""
  }

  /** Contents are read whatever follows the closing quote. */
  lemma {:induction false} ContentsRead(f: string, t: string)
    requires Contents(f).Some?
    ensures ReadChars(f + "\"" + t) == Some((Contents(f).value, t))
    decreases |f|
  {
    assert f + "\"" + "" == f + "\"";
    if f == "" {
      assert (f + "\"" + t)[1..] == t;
    } else if f[0] != '"' {
      if f[0] == '\\' {
        EscapeRead(f, t);
        EscapeRead(f, "");
      } else {
        PlainRead(f, t);
        PlainRead(f, "");
      }
      assert Rest(f) + "\"" + "" == Rest(f) + "\"";
      ContentsRead(Rest(f), t);
    }
  }

  /** A string without quotes that is no contents does not read, or swallows its closing quote
      and ends where a string starting after it would. */
  lemma {:induction false} NoContentsRead(f: string, t: string)
    requires Quoteless(f) && Contents(f).None? && ReadChars(f + "\"" + t).Some?
    ensures ReadChars(t).Some? && ReadChars(f + "\"" + t).value.1 == ReadChars(t).value.1
    decreases |f|
  {
    assert f + "\"" + "" == f + "\"";
    if f != "" {
      assert f[0] != '"';
      if f[0] == '\\' {
        EscapeRead(f, t);
        EscapeRead(f, "");
      } else {
        PlainRead(f, t);
        PlainRead(f, "");
      }
      if f[0] != '\\' || Escape(f + "\"").value.1 <= |f| {
        assert Rest(f) + "\"" + "" == Rest(f) + "\"";
        NoContentsRead(Rest(f), t);
      }
    }
  }

  /** A string stands for itself if and only if it is clean. */
  lemma CleanContents(f: string)
    ensures Contents(f) == Some(f) <==> Clean(f)
  {
    assert f + "\"" + "" == f + "\"";
    QuotedExactly(f, "");
  }


  lemma OneEscape(f: string, c: char)
    requires f != "" && f[0] == '\\' && Escape(f + "\"") == Some((c, |f|))
    ensures Contents(f) == Some([c])
  {
    EscapeRead(f, "");
    assert f + "\"" + "" == f + "\"";
    assert f[|f|..] + "\"" + "" == "\"";
    assert "\""[1..] == "";
    assert [c] + "" == [c];
  }

  /** The escapes of two characters, each of them. */
  lemma TwoCharEscapesRead(e: char)
    ensures Contents(['\\', e]) ==
            if e == '"' then Some("\"") else if e == '\\' then Some("\\") else if e == '/' then Some("/")
            else if e == 'b' then Some([8 as char]) else if e == 'f' then Some([12 as char])
            else if e == 'n' then Some([10 as char]) else if e == 'r' then Some([13 as char])
            else if e == 't' then Some([9 as char]) else None
  {
    var f := ['\\', e];
    EscapeRead(f, "");
    assert f + "\"" + "" == f + "\"";
    if TwoCharEscape(e).Some? {
      OneEscape(f, TwoCharEscape(e).value);
    } else {
      assert (f + "\"")[1..] == [e, '"'];
      assert CodeUnit([e, '"']).None?;
    }
  }

  /** The number of four hexadecimal digits, of either case. */
  lemma CodeUnitReads(a: char, b: char, c: char, d: char, t: string)
    requires HexDigit(a).Some? && HexDigit(b).Some? && HexDigit(c).Some? && HexDigit(d).Some?
    ensures CodeUnit(['u', a, b, c, d] + t)
         == Some(HexDigit(a).value * 4096 + HexDigit(b).value * 256 + HexDigit(c).value * 16 + HexDigit(d).value)
  {
  }

  lemma HexDigits(i: nat)
    requires i < 16
    ensures HexDigit("0123456789abcdef"[i]) == HexDigit("0123456789ABCDEF"[i]) == Some(i)
  {
    assert "0123456789abcdef"[i] == if i < 10 then '0' + i as char else 'a' + (i - 10) as char;
    assert "0123456789ABCDEF"[i] == if i < 10 then '0' + i as char else 'A' + (i - 10) as char;
  }

  /** A code unit stands for its character, two surrogates for the character they make up, and
      half of such a pair for U+FFFD. */
  lemma CodeUnitsRead(f: string, u: nat)
    requires |f| == 6 && f[0] == '\\' && CodeUnit(f[1..]) == Some(u)
    ensures Contents(f) == Some([if u < 0xD800 || 0xE000 <= u then u as char else '\U{FFFD}'])
  {
    assert (f + "\"")[1..] == f[1..] + "\"";
    assert f[1..][0] == f[1] == 'u';
    CodeUnitLocal(f[1..], "\"");
    OneEscape(f, if u < 0xD800 || 0xE000 <= u then u as char else '\U{FFFD}');
  }

  lemma CodeUnitLocal(g: string, t: string)
    requires |g| >= 5
    ensures CodeUnit(g + t) == CodeUnit(g)
  {
    assert forall i :: 0 <= i < 5 ==> (g + t)[i] == g[i];
  }

  lemma SurrogatesRead(f: string, high: nat, low: nat)
    requires |f| == 12 && f[0] == '\\' && f[6] == '\\'
    requires CodeUnit(f[1..]) == Some(high) && 0xD800 <= high < 0xDC00
    requires CodeUnit(f[7..]) == Some(low) && 0xDC00 <= low < 0xE000
    ensures Contents(f) == Some([(0x10000 + (high - 0xD800) * 1024 + (low - 0xDC00)) as char])
  {
    assert (f + "\"")[1..] == f[1..] + "\"" && (f + "\"")[7..] == f[7..] + "\"";
    assert f[1..][0] == f[1] == 'u';
    CodeUnitLocal(f[1..], "\"");
    CodeUnitLocal(f[7..], "\"");
    OneEscape(f, (0x10000 + (high - 0xD800) * 0x400 + (low - 0xDC00)) as char);
  }

  lemma NoText(c: char)
    requires !IsWs(c)
    ensures ReadText([c] + "[]").None?
  {
    var s := [c] + "[]";
    assert s[1..] == "[]" && SkipWs(s) == s;
    assert "[]"[1..] == "]" && "]"[1..] == "";
    assert SkipWs("[]") == "[]" && SkipWs("]") == "]" && SkipWs("") == "";
    assert ReadChars("").None? && ReadChars("]").None? && ReadChars("[]").None?;
    assert ReadValue("[]") == Some((JArray([]), ""));
    assert ReadElements("[]").None? && ReadMember("[]").None?;
    assert ReadMembers("[]").None?;
    assert s[0] == c && ReadValue(s).None?;
  }

  /** Only the four white space characters of section 2 may stand before a value. */
  lemma WhiteSpace(c: char)
    ensures ReadText([c] + "[]").Some? <==> c as int in [0x20, 0x09, 0x0A, 0x0D]
  {
    if IsWs(c) {
      var s := [c] + "[]";
      assert s[1..] == "[]" && SkipWs("[]") == "[]" && SkipWs(s) == "[]";
      assert "[]"[1..] == "]" && SkipWs("]") == "]" && "]"[1..] == "" && SkipWs("") == "";
    } else {
      NoText(c);
    }
  }
}

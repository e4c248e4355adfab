/** The text aks-status builds by hand (Server/ServerCommands/ServerCommands.go) and what
    the web handler decodes from it (Web/Utils/PageHandler.go, Web/Utils/Page.go). */
module StatusJson {
  import opened Wrappers
  import opened Json
  import opened Sequences

  /** A refreshed entry, as far as the text shows it. */
  datatype Status = Status(name: string, resourceGroup: string, clusterName: string, powerState: string)

  // ---------- The text ----------

  /** A member as the format string spells it: both parts quoted, nothing escaped. */
  function Quoted(key: string, value: string): string {
    "\"" + key + "\": \"" + value + "\""
  }

  /** The piece fmt.Sprintf makes for one entry. */
  function ItemText(e: Status): string {
    "{" + Quoted("name", e.name) + ", " + Quoted("resourceGroup", e.resourceGroup) + ", "
    + Quoted("clusterName", e.clusterName) + ", " + Quoted("powerState", e.powerState) + "}"
  }

  function ItemTexts(es: seq<Status>): seq<string> {
    seq(|es|, i requires 0 <= i < |es| => ItemText(es[i]))
  }

  /** CmdResult of a successful aks-status. */
  function StatusText(es: seq<Status>): string {
    "[" + Join(ItemTexts(es), ",") + "]"
  }

  /** The same with the newline the server adds to every result. */
  function ReplyText(es: seq<Status>): string {
    StatusText(es) + "\n"
  }

  // ---------- The document it is meant to be ----------

  datatype Pair = Pair(key: string, value: string)

  function Pairs(e: Status): seq<Pair> {
    [Pair("name", e.name), Pair("resourceGroup", e.resourceGroup),
     Pair("clusterName", e.clusterName), Pair("powerState", e.powerState)]
  }

  function MembersOf(ps: seq<Pair>): seq<Member> {
    seq(|ps|, i requires 0 <= i < |ps| => Member(ps[i].key, JString(ps[i].value)))
  }

  function ObjectOf(e: Status): Json {
    JObject(MembersOf(Pairs(e)))
  }

  function ObjectsOf(es: seq<Status>): seq<Json> {
    seq(|es|, i requires 0 <= i < |es| => ObjectOf(es[i]))
  }

  function Document(es: seq<Status>): Json {
    JArray(ObjectsOf(es))
  }

  predicate CleanStatus(e: Status) {
    Clean(e.name) && Clean(e.resourceGroup) && Clean(e.clusterName) && Clean(e.powerState)
  }

  // ---------- Members ----------

  /** Members of one object, its closing brace, and what follows it. */
  function MembersText(ps: seq<Pair>, t: string): string
    requires ps != []
  {
    Quoted(ps[0].key, ps[0].value) + if |ps| == 1 then "}" + t else ", " + MembersText(ps[1..], t)
  }

  lemma Regroup(open: string, a: string, b: string, c: string, d: string, comma: string, close: string, t: string)
    ensures open + a + comma + b + comma + c + comma + d + close + t
         == open + (a + (comma + (b + (comma + (c + (comma + (d + (close + t))))))))
  {
    var s2 := open + a + comma;
    var s3 := s2 + b + comma;
    var s4 := s3 + c + comma;
    var t4 := d + (close + t);
    var t3 := c + (comma + t4);
    var t2 := b + (comma + t3);
    AppendAssoc(s4 + d, close, t);
    AppendAssoc(s4, d, close + t);
    assert s4 + d + close + t == s4 + t4;
    AppendAssoc(s3 + c, comma, t4);
    AppendAssoc(s3, c, comma + t4);
    assert s4 + t4 == s3 + t3;
    AppendAssoc(s2 + b, comma, t3);
    AppendAssoc(s2, b, comma + t3);
    assert s3 + t3 == s2 + t2;
    AppendAssoc(open + a, comma, t2);
    AppendAssoc(open, a, comma + t2);
  }

  lemma FourMembers(p0: Pair, p1: Pair, p2: Pair, p3: Pair, t: string)
    ensures MembersText([p0, p1, p2, p3], t)
         == Quoted(p0.key, p0.value) + (", " + (Quoted(p1.key, p1.value) + (", " + (Quoted(p2.key, p2.value)
            + (", " + (Quoted(p3.key, p3.value) + ("}" + t)))))))
  {
    assert [p0, p1, p2, p3][1..] == [p1, p2, p3];
    assert [p1, p2, p3][1..] == [p2, p3];
    assert [p2, p3][1..] == [p3];
    assert MembersText([p3], t) == Quoted(p3.key, p3.value) + ("}" + t);
    assert MembersText([p2, p3], t) == Quoted(p2.key, p2.value) + (", " + MembersText([p3], t));
    assert MembersText([p1, p2, p3], t) == Quoted(p1.key, p1.value) + (", " + MembersText([p2, p3], t));
  }

  lemma ItemIsMembers(e: Status, t: string)
    ensures ItemText(e) + t == "{" + MembersText(Pairs(e), t)
  {
    Regroup("{", Quoted("name", e.name), Quoted("resourceGroup", e.resourceGroup),
            Quoted("clusterName", e.clusterName), Quoted("powerState", e.powerState), ", ", "}", t);
    FourMembers(Pairs(e)[0], Pairs(e)[1], Pairs(e)[2], Pairs(e)[3], t);
  }

  /** A member with a clean key reads as the string after its colon reads. */
  lemma MemberIs(p: Pair, rest: string)
    requires Clean(p.key)
    ensures var r := ReadChars(p.value + "\"" + rest);
            ReadMember(Quoted(p.key, p.value) + rest) ==
            if r.None? then None else Some((Member(p.key, JString(r.value.0)), r.value.1))
  {
    var s := Quoted(p.key, p.value) + rest;
    var afterKey := ": \"" + p.value + "\"" + rest;
    assert s[1..] == p.key + "\"" + afterKey;
    CleanReads(p.key, afterKey);
    assert SkipWs(s) == s;
    assert SkipWs(afterKey) == afterKey;
    var v := " \"" + p.value + "\"" + rest;
    assert afterKey[1..] == v;
    assert v[1..] == "\"" + p.value + "\"" + rest;
    assert SkipWs(v) == SkipWs(v[1..]) == v[1..];
    assert v[1..][1..] == p.value + "\"" + rest;
  }

  /** A member reads back exactly if its value is clean. */
  lemma MemberReads(p: Pair, rest: string)
    requires Clean(p.key) && Harmless(rest)
    ensures Clean(p.value) ==>
              ReadMember(Quoted(p.key, p.value) + rest) == Some((Member(p.key, JString(p.value)), rest))
    ensures !Clean(p.value) && ReadMember(Quoted(p.key, p.value) + rest).Some? ==>
              ReadMember(Quoted(p.key, p.value) + rest).value.0 != Member(p.key, JString(p.value))
  {
    MemberIs(p, rest);
    QuotedExactly(p.value, rest);
  }

  lemma SkipSpace(s: string)
    requires s != "" && !IsWs(s[0])
    ensures SkipWs(" " + s) == s && SkipWs(s) == s
  {
    assert (" " + s)[1..] == s;
  }

  lemma LeadingSpace(s: string)
    requires s != "" && !IsWs(s[0])
    ensures ReadMember(" " + s) == ReadMember(s)
    ensures ReadMembers(" " + s) == ReadMembers(s)
  {
    SkipSpace(s);
  }

  /** After a value comes a comma, a space and a quote, or a closing brace. */
  lemma CommaHarmless(s: string)
    requires s != "" && s[0] == '"'
    ensures Harmless(", " + s)
  {
    var t := ", " + s;
    assert t[1..] == " " + s;
    assert t[1..][1..] == s;
    assert ReadChars(t[1..][1..]) == Some(("", s[1..]));
    assert [' '] + "" == " ";
    assert ReadChars(t[1..]) == Some((" ", s[1..]));
    assert [','] + " " == ", ";
    assert ReadChars(t) == Some((", ", s[1..]));
  }

  predicate AllClean(ps: seq<Pair>) {
    forall i :: 0 <= i < |ps| ==> Clean(ps[i].value)
  }

  lemma HeadOfMembers(s: string)
    requires ReadMembers(s).Some?
    ensures ReadMember(s).Some? && |ReadMembers(s).value.0| > 0
    ensures ReadMembers(s).value.0[0] == ReadMember(s).value.0
  {
  }

  lemma LastMember(s: string, m: Member, t: string)
    requires ReadMember(s) == Some((m, "}" + t))
    ensures ReadMembers(s) == Some(([m], t))
  {
    assert ("}" + t)[1..] == t;
    assert SkipWs("}" + t) == "}" + t;
  }

  lemma MoreMembers(s: string, m: Member, next: string)
    requires next != "" && !IsWs(next[0]) && ReadMember(s) == Some((m, ", " + next))
    ensures ReadMembers(s) == if ReadMembers(next).None? then None
                              else Some(([m] + ReadMembers(next).value.0, ReadMembers(next).value.1))
  {
    assert (", " + next)[1..] == " " + next;
    assert SkipWs(", " + next) == ", " + next;
    LeadingSpace(next);
  }

  lemma ConsInjective<T>(x: T, a: seq<T>, b: seq<T>)
    ensures [x] + a == [x] + b <==> a == b
  {
    assert ([x] + a)[1..] == a && ([x] + b)[1..] == b;
  }

  /** The members of one object read back exactly if every value is clean. */
  lemma {:induction false} MembersRead(ps: seq<Pair>, t: string)
    requires ps != [] && Harmless("}" + t)
    requires forall i :: 0 <= i < |ps| ==> Clean(ps[i].key)
    ensures AllClean(ps) ==> ReadMembers(MembersText(ps, t)) == Some((MembersOf(ps), t))
    ensures !AllClean(ps) && ReadMembers(MembersText(ps, t)).Some? ==>
              ReadMembers(MembersText(ps, t)).value.0 != MembersOf(ps)
    decreases |ps|
  {
    var s := MembersText(ps, t);
    var m := Member(ps[0].key, JString(ps[0].value));
    assert MembersOf(ps)[0] == m;
    if |ps| == 1 {
      assert MembersOf(ps) == [m];
      assert AllClean(ps) <==> Clean(ps[0].value);
      MemberReads(ps[0], "}" + t);
      if Clean(ps[0].value) {
        LastMember(s, m, t);
      } else if ReadMembers(s).Some? {
        HeadOfMembers(s);
      }
    } else {
      var next := MembersText(ps[1..], t);
      assert next[0] == '"';
      assert MembersOf(ps) == [m] + MembersOf(ps[1..]);
      assert AllClean(ps) <==> Clean(ps[0].value) && AllClean(ps[1..]) by {
        assert ps == [ps[0]] + ps[1..];
      }
      CommaHarmless(next);
      MemberReads(ps[0], ", " + next);
      MembersRead(ps[1..], t);
      if Clean(ps[0].value) {
        MoreMembers(s, m, next);
        if ReadMembers(next).Some? {
          ConsInjective(m, ReadMembers(next).value.0, MembersOf(ps[1..]));
        }
      } else if ReadMembers(s).Some? {
        HeadOfMembers(s);
      }
    }
  }

  // ---------- Elements ----------

  lemma KeyNamesClean()
    ensures Clean("name") && Clean("resourceGroup") && Clean("clusterName") && Clean("powerState")
  {
  }

  lemma KeysClean(e: Status)
    ensures forall i :: 0 <= i < |Pairs(e)| ==> Clean(Pairs(e)[i].key)
    ensures AllClean(Pairs(e)) <==> CleanStatus(e)
  {
    var ps := Pairs(e);
    KeyNamesClean();
    assert ps[0].value == e.name && ps[1].value == e.resourceGroup;
    assert ps[2].value == e.clusterName && ps[3].value == e.powerState;
  }

  lemma ObjectReads(ms: string)
    requires ms != "" && ms[0] == '"'
    ensures ReadValue("{" + ms) == if ReadMembers(ms).None? then None
                                   else Some((JObject(ReadMembers(ms).value.0), ReadMembers(ms).value.1))
  {
    assert ("{" + ms)[1..] == ms;
    assert SkipWs("{" + ms) == "{" + ms;
    assert SkipWs(ms) == ms;
  }

  /** One entry's piece reads back as its object exactly if its fields are clean. */
  lemma ItemReads(e: Status, t: string)
    requires Harmless("}" + t)
    ensures CleanStatus(e) ==> ReadValue(ItemText(e) + t) == Some((JObject(MembersOf(Pairs(e))), t))
    ensures !CleanStatus(e) && ReadValue(ItemText(e) + t).Some? ==>
              ReadValue(ItemText(e) + t).value.0 != JObject(MembersOf(Pairs(e)))
  {
    var ms := MembersText(Pairs(e), t);
    ItemIsMembers(e, t);
    KeysClean(e);
    MembersRead(Pairs(e), t);
    assert ms[0] == '"';
    ObjectReads(ms);
  }

  /** The elements of the array, its closing bracket, and what follows it. */
  function ElementsText(es: seq<Status>, t: string): string
    requires es != []
  {
    ItemText(es[0]) + if |es| == 1 then "]" + t else "," + ElementsText(es[1..], t)
  }

  lemma {:induction false} JoinIsElements(es: seq<Status>, t: string)
    requires es != []
    ensures Join(ItemTexts(es), ",") + "]" + t == ElementsText(es, t)
  {
    if |es| == 1 {
      AppendAssoc(ItemText(es[0]), "]", t);
    } else {
      var more := Join(ItemTexts(es[1..]), ",");
      JoinIsElements(es[1..], t);
      assert ItemTexts(es)[1..] == ItemTexts(es[1..]);
      AppendAssoc(ItemText(es[0]) + ",", more, "]");
      AppendAssoc(ItemText(es[0]) + ",", more + "]", t);
      AppendAssoc(ItemText(es[0]), ",", more + "]" + t);
    }
  }

  lemma ElementsStart(es: seq<Status>, t: string)
    requires es != []
    ensures ElementsText(es, t) != "" && ElementsText(es, t)[0] == '{'
    ensures |ElementsText(es, t)| > 1 && ElementsText(es, t)[1] == '"'
  {
    var rest := if |es| == 1 then "]" + t else "," + ElementsText(es[1..], t);
    ItemIsMembers(es[0], rest);
    assert MembersText(Pairs(es[0]), rest)[0] == '"';
  }

  lemma NextHarmless(s: string)
    requires |s| > 1 && s[0] == '{' && s[1] == '"'
    ensures Harmless("}" + ("," + s))
  {
    var t := "}" + ("," + s);
    assert t[1..] == "," + s;
    assert t[1..][1..] == s;
    assert ReadChars(s[1..]) == Some(("", s[1..][1..]));
    assert ['{'] + "" == "{";
    assert ReadChars(s) == Some(("{", s[1..][1..]));
    assert [','] + "{" == ",{";
    assert ReadChars(t[1..]) == Some((",{", s[1..][1..]));
  }

  lemma LastHarmless()
    ensures Harmless("}" + ("]" + "\n"))
  {
    var t := "}" + ("]" + "\n");
    assert t[1..] == "]" + "\n";
    assert t[1..][1..] == "\n";
    assert ReadChars("\n") == None;
    assert ReadChars(t[1..]) == None;
  }

  predicate AllCleanStatus(es: seq<Status>) {
    forall i :: 0 <= i < |es| ==> CleanStatus(es[i])
  }

  lemma HeadOfElements(s: string)
    requires ReadElements(s).Some?
    ensures ReadValue(s).Some? && |ReadElements(s).value.0| > 0
    ensures ReadElements(s).value.0[0] == ReadValue(s).value.0
  {
  }

  lemma LastElement(s: string, v: Json, t: string)
    requires ReadValue(s) == Some((v, "]" + t))
    ensures ReadElements(s) == Some(([v], t))
  {
    assert ("]" + t)[1..] == t;
    assert SkipWs("]" + t) == "]" + t;
  }

  lemma MoreElements(s: string, v: Json, next: string)
    requires ReadValue(s) == Some((v, "," + next))
    ensures ReadElements(s) == if ReadElements(next).None? then None
                               else Some(([v] + ReadElements(next).value.0, ReadElements(next).value.1))
  {
    assert ("," + next)[1..] == next;
    assert SkipWs("," + next) == "," + next;
  }

  lemma {:induction false} ElementsRead(es: seq<Status>)
    requires es != []
    ensures AllCleanStatus(es) ==> ReadElements(ElementsText(es, "\n")) == Some((ObjectsOf(es), "\n"))
    ensures !AllCleanStatus(es) && ReadElements(ElementsText(es, "\n")).Some? ==>
              ReadElements(ElementsText(es, "\n")).value.0 != ObjectsOf(es)
    decreases |es|
  {
    var s := ElementsText(es, "\n");
    var v := ObjectOf(es[0]);
    assert ObjectsOf(es)[0] == v;
    if |es| == 1 {
      assert ObjectsOf(es) == [v];
      assert AllCleanStatus(es) <==> CleanStatus(es[0]);
      LastHarmless();
      ItemReads(es[0], "]" + "\n");
      if CleanStatus(es[0]) {
        LastElement(s, v, "\n");
      } else if ReadElements(s).Some? {
        HeadOfElements(s);
      }
    } else {
      var next := ElementsText(es[1..], "\n");
      assert ObjectsOf(es) == [v] + ObjectsOf(es[1..]);
      assert AllCleanStatus(es) <==> CleanStatus(es[0]) && AllCleanStatus(es[1..]) by {
        assert es == [es[0]] + es[1..];
      }
      ElementsStart(es[1..], "\n");
      NextHarmless(next);
      ItemReads(es[0], "," + next);
      ElementsRead(es[1..]);
      if CleanStatus(es[0]) {
        MoreElements(s, v, next);
        if ReadElements(next).Some? {
          ConsInjective(v, ReadElements(next).value.0, ObjectsOf(es[1..]));
        }
      } else if ReadElements(s).Some? {
        HeadOfElements(s);
      }
    }
  }

  // ---------- The whole text ----------

  lemma ArrayReads(s: string)
    requires s != "" && s[0] == '{'
    ensures ReadValue("[" + s) == if ReadElements(s).None? then None
                                  else Some((JArray(ReadElements(s).value.0), ReadElements(s).value.1))
  {
    assert ("[" + s)[1..] == s;
    assert SkipWs("[" + s) == "[" + s;
    assert SkipWs(s) == s;
  }

  lemma EmptyReads()
    ensures ReadText(ReplyText([])) == Some(JArray([]))
  {
    var s := ReplyText([]);
    assert s == "[" + "]" + "\n";
    assert s[1..] == "]\n";
    assert SkipWs(s) == s && SkipWs(s[1..]) == s[1..];
    assert s[1..][1..] == "\n";
    assert SkipWs("\n") == "" by {
      assert "\n"[1..] == "";
    }
  }

  lemma ReplyReads(es: seq<Status>)
    requires es != []
    ensures ReadValue(ReplyText(es)) ==
            if ReadElements(ElementsText(es, "\n")).None? then None
            else Some((JArray(ReadElements(ElementsText(es, "\n")).value.0), ReadElements(ElementsText(es, "\n")).value.1))
  {
    ElementsStart(es, "\n");
    JoinIsElements(es, "\n");
    AppendAssoc("[", Join(ItemTexts(es), ","), "]");
    AppendAssoc("[", Join(ItemTexts(es), ",") + "]", "\n");
    assert ReplyText(es) == "[" + ElementsText(es, "\n");
    ArrayReads(ElementsText(es, "\n"));
  }

  lemma SkipNewline()
    ensures SkipWs("\n") == ""
  {
    assert "\n"[1..] == "";
  }

  /** The reply of aks-status, exactly: it is a JSON text that denotes the document of the
      refreshed entries, all of them and in order, if and only if no field holds a quote, a
      backslash or a control character. The empty list is no exception. */
  lemma ReplyDenotesIffClean(es: seq<Status>)
    ensures ReadText(ReplyText(es)) == Some(Document(es)) <==> AllCleanStatus(es)
  {
    if es == [] {
      EmptyReads();
      assert ObjectsOf([]) == [];
    } else {
      ReplyReads(es);
      ElementsRead(es);
      SkipNewline();
    }
  }

  // ---------- Escapes in the fields ----------

  /** What the fields stand for, if all of them are the insides of JSON strings. */
  predicate Sound(ps: seq<Pair>) {
    forall i :: 0 <= i < |ps| ==> Contents(ps[i].value).Some?
  }

  predicate NoQuotes(ps: seq<Pair>) {
    forall i :: 0 <= i < |ps| ==> Quoteless(ps[i].value)
  }

  function Meant(ps: seq<Pair>): seq<Pair>
    requires Sound(ps)
  {
    seq(|ps|, i requires 0 <= i < |ps| => Pair(ps[i].key, Contents(ps[i].value).value))
  }

  predicate NoSeparator(t: string) {
    SkipWs(t) == "" || (SkipWs(t)[0] != ',' && SkipWs(t)[0] != '}')
  }

  /** Text after which, were it swallowed by a string, an object could not go on. */
  predicate Blocking(t: string) {
    ReadChars(t).None? || NoSeparator(ReadChars(t).value.1)
  }

  predicate KeyLike(key: string) {
    key != "" && Clean(key) && 'a' <= key[0] <= 'z'
  }

  /** A member reads as what its value stands for; a value without quotes that stands for
      nothing does not read, or ends where no object goes on. */
  lemma MemberContents(p: Pair, rest: string)
    requires KeyLike(p.key)
    ensures var m := ReadMember(Quoted(p.key, p.value) + rest);
            && (Contents(p.value).Some? ==> m == Some((Member(p.key, JString(Contents(p.value).value)), rest)))
            && (Contents(p.value).None? && Quoteless(p.value) && Blocking(rest) && m.Some? ==> NoSeparator(m.value.1))
  {
    MemberIs(p, rest);
    if Contents(p.value).Some? {
      ContentsRead(p.value, rest);
    } else if Quoteless(p.value) && Blocking(rest) && ReadChars(p.value + "\"" + rest).Some? {
      NoContentsRead(p.value, rest);
    }
  }

  lemma NoMoreMembers(s: string)
    requires ReadMember(s).None? || NoSeparator(ReadMember(s).value.1)
    ensures ReadMembers(s).None?
  {
  }

  /** A string that starts at s ends where one that starts a character earlier does. */
  lemma Swallows(c: string, s: string)
    requires |c| == 1 && Plain(c[0])
    ensures ReadChars(c + s).Some? <==> ReadChars(s).Some?
    ensures ReadChars(s).Some? ==> ReadChars(c + s).value.1 == ReadChars(s).value.1
  {
    assert (c + s)[1..] == s;
  }

  lemma KeyBlocks(key: string, t: string)
    requires KeyLike(key)
    ensures Blocking(", " + ("\"" + key + t))
  {
    var s2 := "\"" + key + t;
    assert s2[1..] == key + t && (key + t)[0] == key[0];
    assert ", " + s2 == "," + (" " + s2);
    Swallows(" ", s2);
    Swallows(",", " " + s2);
  }

  lemma MembersStart(ps: seq<Pair>, t: string) returns (rest: string)
    requires ps != [] && KeyLike(ps[0].key)
    ensures MembersText(ps, t) == "\"" + ps[0].key + rest
    ensures MembersText(ps, t) != "" && MembersText(ps, t)[0] == '"' && Blocking(", " + MembersText(ps, t))
  {
    rest := "\": \"" + ps[0].value + "\"" + if |ps| == 1 then "}" + t else ", " + MembersText(ps[1..], t);
    assert MembersText(ps, t) == "\"" + ps[0].key + rest;
    KeyBlocks(ps[0].key, rest);
  }

  function MeantMember(p: Pair): Member
    requires Contents(p.value).Some?
  {
    Member(p.key, JString(Contents(p.value).value))
  }

  lemma OneMemberContents(p: Pair, t: string)
    requires KeyLike(p.key) && Blocking("}" + t)
    ensures var r := ReadMembers(Quoted(p.key, p.value) + ("}" + t));
            && (Contents(p.value).Some? ==> r == Some(([MeantMember(p)], t)))
            && (Contents(p.value).None? && Quoteless(p.value) ==> r.None?)
  {
    var s := Quoted(p.key, p.value) + ("}" + t);
    MemberContents(p, "}" + t);
    if Contents(p.value).Some? {
      LastMember(s, MeantMember(p), t);
    } else if Quoteless(p.value) {
      NoMoreMembers(s);
    }
  }

  lemma MoreMembersContents(p: Pair, next: string)
    requires KeyLike(p.key) && next != "" && next[0] == '"' && Blocking(", " + next)
    ensures var r := ReadMembers(Quoted(p.key, p.value) + (", " + next));
            && (Contents(p.value).Some? ==>
                  r == if ReadMembers(next).None? then None
                       else Some(([MeantMember(p)] + ReadMembers(next).value.0, ReadMembers(next).value.1)))
            && (Contents(p.value).None? && Quoteless(p.value) ==> r.None?)
  {
    var s := Quoted(p.key, p.value) + (", " + next);
    MemberContents(p, ", " + next);
    if Contents(p.value).Some? {
      MoreMembers(s, MeantMember(p), next);
    } else if Quoteless(p.value) {
      NoMoreMembers(s);
    }
  }

  lemma PairsSplit(ps: seq<Pair>)
    requires ps != []
    ensures Sound(ps) <==> Contents(ps[0].value).Some? && Sound(ps[1..])
    ensures NoQuotes(ps) <==> Quoteless(ps[0].value) && NoQuotes(ps[1..])
    ensures Sound(ps) ==> MembersOf(Meant(ps)) == [MeantMember(ps[0])] + MembersOf(Meant(ps[1..]))
  {
    assert ps == [ps[0]] + ps[1..];
  }

  /** The members of one object read as what their values stand for, if all of them stand for
      something; if they are free of quotes, not otherwise. */
  lemma {:induction false} MembersContents(ps: seq<Pair>, t: string)
    requires ps != [] && Blocking("}" + t)
    requires forall i :: 0 <= i < |ps| ==> KeyLike(ps[i].key)
    ensures Sound(ps) ==> ReadMembers(MembersText(ps, t)) == Some((MembersOf(Meant(ps)), t))
    ensures NoQuotes(ps) && !Sound(ps) ==> ReadMembers(MembersText(ps, t)).None?
    decreases |ps|
  {
    PairsSplit(ps);
    if |ps| == 1 {
      OneMemberContents(ps[0], t);
      if Sound(ps) {
        assert MembersOf(Meant(ps)) == [MeantMember(ps[0])];
      }
    } else {
      var _ := MembersStart(ps[1..], t);
      MoreMembersContents(ps[0], MembersText(ps[1..], t));
      MembersContents(ps[1..], t);
    }
  }

  /** Every field is the inside of a JSON string. */
  predicate SoundStatus(e: Status) {
    && Contents(e.name).Some? && Contents(e.resourceGroup).Some?
    && Contents(e.clusterName).Some? && Contents(e.powerState).Some?
  }

  predicate QuotelessStatus(e: Status) {
    Quoteless(e.name) && Quoteless(e.resourceGroup) && Quoteless(e.clusterName) && Quoteless(e.powerState)
  }

  function MeantStatus(e: Status): Status
    requires SoundStatus(e)
  {
    Status(Contents(e.name).value, Contents(e.resourceGroup).value,
           Contents(e.clusterName).value, Contents(e.powerState).value)
  }

  lemma PairsKeyLike(e: Status)
    ensures forall i :: 0 <= i < |Pairs(e)| ==> KeyLike(Pairs(e)[i].key)
  {
    assert KeyLike("name") && KeyLike("resourceGroup") && KeyLike("clusterName") && KeyLike("powerState");
  }

  lemma PairsMeant(e: Status)
    ensures Sound(Pairs(e)) <==> SoundStatus(e)
    ensures SoundStatus(e) ==> Meant(Pairs(e)) == Pairs(MeantStatus(e))
    ensures QuotelessStatus(e) ==> NoQuotes(Pairs(e))
  {
    var ps := Pairs(e);
    assert ps[0].value == e.name && ps[1].value == e.resourceGroup;
    assert ps[2].value == e.clusterName && ps[3].value == e.powerState;
  }

  lemma ItemContents(e: Status, t: string)
    requires Blocking("}" + t)
    ensures SoundStatus(e) ==> ReadValue(ItemText(e) + t) == Some((ObjectOf(MeantStatus(e)), t))
    ensures QuotelessStatus(e) && !SoundStatus(e) ==> ReadValue(ItemText(e) + t).None?
  {
    var ms := MembersText(Pairs(e), t);
    ItemIsMembers(e, t);
    PairsKeyLike(e);
    PairsMeant(e);
    var _ := MembersStart(Pairs(e), t);
    MembersContents(Pairs(e), t);
    ObjectReads(ms);
  }

  predicate AllSound(es: seq<Status>) {
    forall i :: 0 <= i < |es| ==> SoundStatus(es[i])
  }

  predicate AllQuoteless(es: seq<Status>) {
    forall i :: 0 <= i < |es| ==> QuotelessStatus(es[i])
  }

  function AllMeant(es: seq<Status>): seq<Status>
    requires AllSound(es)
  {
    seq(|es|, i requires 0 <= i < |es| => MeantStatus(es[i]))
  }

  lemma ObjectBlocks(key: string, t: string)
    requires KeyLike(key)
    ensures Blocking("}" + ("," + ("{" + ("\"" + key + t))))
  {
    var s3 := "\"" + key + t;
    var s2 := "{" + s3;
    var s1 := "," + s2;
    assert s3[1..] == key + t && (key + t)[0] == key[0];
    Swallows("{", s3);
    Swallows(",", s2);
    Swallows("}", s1);
  }

  /** Between two objects nothing that swallows a quote lets the first one go on. */
  lemma ElementsBlock(es: seq<Status>, t: string)
    requires es != []
    ensures Blocking("}" + ("," + ElementsText(es, t)))
  {
    var rest := if |es| == 1 then "]" + t else "," + ElementsText(es[1..], t);
    ItemIsMembers(es[0], rest);
    PairsKeyLike(es[0]);
    var after := MembersStart(Pairs(es[0]), rest);
    ObjectBlocks(Pairs(es[0])[0].key, after);
  }

  lemma LastBlocks()
    ensures Blocking("}" + ("]" + "\n"))
  {
    var t := "}" + ("]" + "\n");
    assert t[1..] == "]" + "\n";
    assert t[1..][1..] == "\n";
    assert ReadChars("\n") == None;
    assert ReadChars(t[1..]) == None;
  }

  lemma NoElement(s: string)
    requires ReadValue(s).None?
    ensures ReadElements(s).None?
  {
  }

  lemma OneElementContents(e: Status)
    ensures SoundStatus(e) ==> ReadElements(ItemText(e) + ("]" + "\n")) == Some(([ObjectOf(MeantStatus(e))], "\n"))
    ensures QuotelessStatus(e) && !SoundStatus(e) ==> ReadElements(ItemText(e) + ("]" + "\n")).None?
  {
    LastBlocks();
    ItemContents(e, "]" + "\n");
    if SoundStatus(e) {
      LastElement(ItemText(e) + ("]" + "\n"), ObjectOf(MeantStatus(e)), "\n");
    } else if QuotelessStatus(e) {
      NoElement(ItemText(e) + ("]" + "\n"));
    }
  }

  lemma MoreElementsContents(e: Status, next: string)
    requires Blocking("}" + ("," + next))
    ensures SoundStatus(e) ==>
              ReadElements(ItemText(e) + ("," + next)) ==
              (if ReadElements(next).None? then None
               else Some(([ObjectOf(MeantStatus(e))] + ReadElements(next).value.0, ReadElements(next).value.1)))
    ensures QuotelessStatus(e) && !SoundStatus(e) ==> ReadElements(ItemText(e) + ("," + next)).None?
  {
    ItemContents(e, "," + next);
    if SoundStatus(e) {
      MoreElements(ItemText(e) + ("," + next), ObjectOf(MeantStatus(e)), next);
    } else if QuotelessStatus(e) {
      NoElement(ItemText(e) + ("," + next));
    }
  }

  lemma ObjectsCons(e: Status, more: seq<Status>)
    ensures ObjectsOf([e] + more) == [ObjectOf(e)] + ObjectsOf(more)
  {
  }

  lemma AllSplit(es: seq<Status>)
    requires es != []
    ensures AllSound(es) <==> SoundStatus(es[0]) && AllSound(es[1..])
    ensures AllQuoteless(es) <==> QuotelessStatus(es[0]) && AllQuoteless(es[1..])
  {
    assert es == [es[0]] + es[1..];
  }

  lemma MeantSplit(es: seq<Status>)
    requires es != [] && AllSound(es) && AllSound(es[1..])
    ensures AllMeant(es) == [MeantStatus(es[0])] + AllMeant(es[1..])
  {
  }

  /** The elements of the reply read as what their fields stand for, if all of them stand for
      something; if they are free of quotes, not otherwise. */
  lemma {:induction false} ElementsContents(es: seq<Status>)
    requires es != []
    ensures AllSound(es) ==> ReadElements(ElementsText(es, "\n")) == Some((ObjectsOf(AllMeant(es)), "\n"))
    ensures AllQuoteless(es) && !AllSound(es) ==> ReadElements(ElementsText(es, "\n")).None?
    decreases |es|
  {
    var more := es[1..];
    AllSplit(es);
    if |es| == 1 {
      OneElementContents(es[0]);
      if AllSound(es) {
        MeantSplit(es);
        assert ObjectsOf(AllMeant(es)) == [ObjectOf(MeantStatus(es[0]))];
      }
    } else {
      ElementsBlock(more, "\n");
      MoreElementsContents(es[0], ElementsText(more, "\n"));
      ElementsContents(more);
      if AllSound(es) {
        MeantSplit(es);
        ObjectsCons(MeantStatus(es[0]), AllMeant(more));
      }
    }
  }

  // ---------- What the web handler decodes ----------

  datatype AksStatusRecord = AksStatusRecord(
    resourceGroup: string, clusterName: string, status: string, timestamp: string, user: string)

  const ZERO_RECORD := AksStatusRecord("", "", "", "", "")

  /** One member into the record's field of that name; a field has to be a string, other
      members are skipped, and a later member wins. */
  function SetField(r: AksStatusRecord, m: Member): Option<AksStatusRecord> {
    if m.key !in ["resourceGroup", "clusterName", "powerState", "Timestamp", "User"] then Some(r)
    else if !m.value.JString? then None
    else
      var s := m.value.s;
      if m.key == "resourceGroup" then Some(r.(resourceGroup := s))
      else if m.key == "clusterName" then Some(r.(clusterName := s))
      else if m.key == "powerState" then Some(r.(status := s))
      else if m.key == "Timestamp" then Some(r.(timestamp := s))
      else Some(r.(user := s))
  }

  function SetFields(r: AksStatusRecord, ms: seq<Member>): Option<AksStatusRecord>
    decreases |ms|
  {
    if ms == [] then Some(r)
    else
      var r' := SetField(r, ms[0]);
      if r'.None? then None else SetFields(r'.value, ms[1..])
  }

  function DecodeObjects(js: seq<Json>): Option<seq<AksStatusRecord>> {
    if js == [] then Some([])
    else if !js[0].JObject? then None
    else
      var r := SetFields(ZERO_RECORD, js[0].members);
      var rest := DecodeObjects(js[1..]);
      if r.None? || rest.None? then None else Some([r.value] + rest.value)
  }

  /** json.Unmarshal into the slice of status records. */
  function Unmarshal(text: string): Option<seq<AksStatusRecord>> {
    var j := ReadText(text);
    if j.None? || !j.value.JArray? then None else DecodeObjects(j.value.elements)
  }

  function RecordOf(e: Status): AksStatusRecord {
    AksStatusRecord(e.resourceGroup, e.clusterName, e.powerState, "", "")
  }

  lemma MembersDecode(e: Status)
    ensures SetFields(ZERO_RECORD, MembersOf(Pairs(e))) == Some(RecordOf(e))
  {
    var m0, m1 := Member("name", JString(e.name)), Member("resourceGroup", JString(e.resourceGroup));
    var m2, m3 := Member("clusterName", JString(e.clusterName)), Member("powerState", JString(e.powerState));
    assert MembersOf(Pairs(e)) == [m0, m1, m2, m3];
    assert [m0, m1, m2, m3][1..] == [m1, m2, m3];
    assert [m1, m2, m3][1..] == [m2, m3];
    assert [m2, m3][1..] == [m3];
    assert [m3][1..] == [];
    var r1 := ZERO_RECORD.(resourceGroup := e.resourceGroup);
    var r2 := r1.(clusterName := e.clusterName);
    assert SetField(ZERO_RECORD, m0) == Some(ZERO_RECORD);
    assert SetField(ZERO_RECORD, m1) == Some(r1);
    assert SetField(r1, m2) == Some(r2);
    assert SetField(r2, m3) == Some(RecordOf(e));
    assert SetFields(RecordOf(e), []) == Some(RecordOf(e));
    assert SetFields(r2, [m3]) == Some(RecordOf(e));
    assert SetFields(r1, [m2, m3]) == Some(RecordOf(e));
    assert SetFields(ZERO_RECORD, [m1, m2, m3]) == Some(RecordOf(e));
  }

  /** One row for each entry, in order. */
  function RowsOf(es: seq<Status>): seq<AksStatusRecord> {
    seq(|es|, i requires 0 <= i < |es| => RecordOf(es[i]))
  }

  lemma {:induction false} ObjectsDecode(es: seq<Status>)
    ensures DecodeObjects(ObjectsOf(es)) == Some(RowsOf(es))
  {
    if es == [] {
      assert ObjectsOf(es) == [];
    } else {
      ObjectsDecode(es[1..]);
      MembersDecode(es[0]);
      assert ObjectsOf(es)[1..] == ObjectsOf(es[1..]);
      assert RowsOf(es) == [RecordOf(es[0])] + RowsOf(es[1..]);
    }
  }

  /** What the web handler decodes from fields with escapes in them: the rows they stand for,
      if all of them stand for something; if they are free of quotes, nothing otherwise. */
  lemma WebDecodesMeant(es: seq<Status>)
    ensures AllSound(es) ==> Unmarshal(ReplyText(es)) == Some(RowsOf(AllMeant(es)))
    ensures AllQuoteless(es) && !AllSound(es) ==> Unmarshal(ReplyText(es)) == None
  {
    if es == [] {
      EmptyReads();
      assert RowsOf(AllMeant(es)) == [];
    } else {
      ReplyReads(es);
      ElementsContents(es);
      SkipNewline();
      if AllSound(es) {
        ObjectsDecode(AllMeant(es));
      }
    }
  }

  /** The fields that the web handler uses are clean; the name it skips need only be the inside
      of a JSON string. */
  predicate Shown(e: Status) {
    Contents(e.name).Some? && Clean(e.resourceGroup) && Clean(e.clusterName) && Clean(e.powerState)
  }

  predicate AllShown(es: seq<Status>) {
    forall i :: 0 <= i < |es| ==> Shown(es[i])
  }

  lemma ShownIsMeant(e: Status)
    ensures Shown(e) <==> SoundStatus(e) && RecordOf(MeantStatus(e)) == RecordOf(e)
  {
    CleanContents(e.resourceGroup);
    CleanContents(e.clusterName);
    CleanContents(e.powerState);
  }

  /** The web handler sees one row per refreshed entry, in the order of the configuration. */
  lemma WebDecodesReply(es: seq<Status>)
    requires AllShown(es)
    ensures Unmarshal(ReplyText(es)) == Some(RowsOf(es))
  {
    forall i | 0 <= i < |es|
      ensures SoundStatus(es[i]) && RecordOf(MeantStatus(es[i])) == RecordOf(es[i])
    {
      ShownIsMeant(es[i]);
    }
    WebDecodesMeant(es);
    assert RowsOf(AllMeant(es)) == RowsOf(es);
  }

  /** Exactly so, for fields free of quotes: the web handler sees the right rows if and only if
      every name is the inside of a JSON string and the other fields are clean. */
  lemma WebDecodesIffShown(es: seq<Status>)
    requires AllQuoteless(es)
    ensures Unmarshal(ReplyText(es)) == Some(RowsOf(es)) <==> AllShown(es)
  {
    WebDecodesMeant(es);
    if AllShown(es) {
      WebDecodesReply(es);
    } else if AllSound(es) {
      var i :| 0 <= i < |es| && !Shown(es[i]);
      ShownIsMeant(es[i]);
      assert RowsOf(AllMeant(es))[i] != RowsOf(es)[i];
    }
  }

  // ---------- Fields with quotes ----------

  /** A reply of one entry reads as its members do. */
  lemma OneReplyReads(e: Status)
    ensures var r := ReadMembers(MembersText(Pairs(e), "]" + "\n"));
            && (r.None? ==> ReadText(ReplyText([e])) == None)
            && (r.Some? && r.value.1 == "]" + "\n" ==> ReadText(ReplyText([e])) == Some(JArray([JObject(r.value.0)])))
  {
    var t := "]" + "\n";
    var ms := MembersText(Pairs(e), t);
    PairsKeyLike(e);
    ItemIsMembers(e, t);
    var _ := MembersStart(Pairs(e), t);
    ObjectReads(ms);
    ReplyReads([e]);
    SkipNewline();
    if ReadMembers(ms).None? {
      NoElement(ItemText(e) + t);
    } else if ReadMembers(ms).value.1 == t {
      LastElement(ItemText(e) + t, JObject(ReadMembers(ms).value.0), "\n");
    }
  }

  const QUOTED_NAME := Status("a\"b", "g", "c", "Running")

  /** A name cut short by its own quote, with more of it before the next member. */
  lemma CutName(a: string, rest: string)
    requires Clean(a) && NoSeparator(rest)
    ensures ReadMembers(Quoted("name", a) + rest).None?
  {
    KeyNamesClean();
    MemberIs(Pair("name", a), rest);
    CleanReads(a, rest);
    NoMoreMembers(Quoted("name", a) + rest);
  }

  /** A quote in a name, and the web handler decodes nothing. */
  lemma QuoteBreaksReply()
    ensures ReadText(ReplyText([QUOTED_NAME])) != Some(Document([QUOTED_NAME]))
    ensures Unmarshal(ReplyText([QUOTED_NAME])) == None
  {
    var es, ps, t := [QUOTED_NAME], Pairs(QUOTED_NAME), "]" + "\n";
    assert QUOTED_NAME.name[1] == '"';
    assert !CleanStatus(es[0]);
    ReplyDenotesIffClean(es);
    var ms := MembersText(ps, t);
    var rest := "b\"" + (", " + MembersText(ps[1..], t));
    assert Quoted("name", "a\"b") == Quoted("name", "a") + "b\"";
    assert ms == Quoted("name", "a") + rest;
    assert rest[0] == 'b';
    CutName("a", rest);
    OneReplyReads(QUOTED_NAME);
  }

  /** A name that closes its own string and spells another member. */
  function Injecting(a: string, key: string, b: string): string {
    a + ("\", \"" + (key + ("\": \"" + b)))
  }

  lemma InjectedQuoted(open: string, a: string, key: string, b: string)
    ensures open + Injecting(a, key, b) + "\"" == open + a + "\"" + ", " + Quoted(key, b)
  {
  }

  lemma InjectedText(a: string, key: string, b: string, ps: seq<Pair>, t: string)
    requires ps != []
    ensures MembersText([Pair("name", Injecting(a, key, b))] + ps, t)
         == MembersText([Pair("name", a), Pair(key, b)] + ps, t)
  {
    var p0, p1, p2 := Pair("name", Injecting(a, key, b)), Pair("name", a), Pair(key, b);
    var more := MembersText(ps, t);
    assert ([p0] + ps)[1..] == ps;
    assert ([p1, p2] + ps)[1..] == [p2] + ps && ([p2] + ps)[1..] == ps;
    assert MembersText([p2] + ps, t) == Quoted(key, b) + (", " + more);
    InjectedQuoted("\"name\": \"", a, key, b);
    AppendAssoc(Quoted("name", a) + ", ", Quoted(key, b), ", " + more);
    AppendAssoc(Quoted("name", a), ", ", Quoted(key, b) + (", " + more));
  }

  lemma MeantClean(ps: seq<Pair>)
    requires AllClean(ps)
    ensures Sound(ps) && Meant(ps) == ps
  {
    forall i | 0 <= i < |ps|
      ensures Contents(ps[i].value) == Some(ps[i].value)
    {
      CleanContents(ps[i].value);
    }
  }

  lemma CleanMembers(ps: seq<Pair>, t: string)
    requires ps != [] && Blocking("}" + t) && AllClean(ps)
    requires forall i :: 0 <= i < |ps| ==> KeyLike(ps[i].key)
    ensures ReadMembers(MembersText(ps, t)) == Some((MembersOf(ps), t))
  {
    MeantClean(ps);
    MembersContents(ps, t);
  }

  lemma SpelledMembers(p: Pair, q: Pair, ps: seq<Pair>)
    ensures MembersOf([p, q] + ps) == [Member(p.key, JString(p.value)), Member(q.key, JString(q.value))] + MembersOf(ps)
  {
  }

  lemma InjectedReads(a: string, key: string, b: string, ps: seq<Pair>, t: string)
    requires ps != [] && Blocking("}" + t) && KeyLike(key) && Clean(a) && Clean(b) && AllClean(ps)
    requires forall i :: 0 <= i < |ps| ==> KeyLike(ps[i].key)
    ensures ReadMembers(MembersText([Pair("name", Injecting(a, key, b))] + ps, t))
         == Some(([Member("name", JString(a)), Member(key, JString(b))] + MembersOf(ps), t))
  {
    var spelled := [Pair("name", a), Pair(key, b)] + ps;
    assert KeyLike("name");
    SpelledMembers(Pair("name", a), Pair(key, b), ps);
    CleanMembers(spelled, t);
    InjectedText(a, key, b, ps, t);
  }

  lemma InjectedDecodes(e: Status, a: string, b: string)
    ensures SetFields(ZERO_RECORD, [Member("name", JString(a)), Member("x", JString(b))] + MembersOf(Pairs(e)[1..]))
         == Some(RecordOf(e))
  {
    var m0, m1, rest := Member("name", JString(a)), Member("x", JString(b)), MembersOf(Pairs(e)[1..]);
    MembersDecode(e);
    assert MembersOf(Pairs(e))[0].key == "name" && MembersOf(Pairs(e))[1..] == rest;
    assert ([m0, m1] + rest)[1..] == [m1] + rest && ([m1] + rest)[1..] == rest;
    assert SetField(ZERO_RECORD, m0) == Some(ZERO_RECORD) && SetField(ZERO_RECORD, m1) == Some(ZERO_RECORD);
  }

  lemma NotContents(a: string, key: string, b: string)
    requires Clean(a)
    ensures Contents(Injecting(a, key, b)).None?
  {
    var rest := ", \"" + (key + ("\": \"" + b)) + "\"";
    CleanReads(a, rest);
    assert Injecting(a, key, b) + "\"" == a + "\"" + rest;
  }

  lemma OneDecodes(v: Json, r: AksStatusRecord)
    requires v.JObject? && SetFields(ZERO_RECORD, v.members) == Some(r)
    ensures DecodeObjects([v]) == Some([r])
  {
    assert DecodeObjects([]) == Some([]);
    assert [v][1..] == [] && [r] + [] == [r];
  }

  /** A reply of one entry, from its members to the rows. */
  lemma OneReplyDecodes(e: Status, members: seq<Member>, r: AksStatusRecord)
    requires ReadMembers(MembersText(Pairs(e), "]" + "\n")) == Some((members, "]" + "\n"))
    requires SetFields(ZERO_RECORD, members) == Some(r)
    ensures Unmarshal(ReplyText([e])) == Some([r])
  {
    OneReplyReads(e);
    OneDecodes(JObject(members), r);
  }

  lemma TailClean(e: Status)
    requires CleanStatus(e.(name := ""))
    ensures Pairs(e) == [Pair("name", e.name)] + Pairs(e)[1..] && |Pairs(e)| == 4
    ensures AllClean(Pairs(e)[1..])
    ensures forall i :: 0 <= i < |Pairs(e)[1..]| ==> KeyLike(Pairs(e)[1..][i].key)
  {
    PairsKeyLike(e);
  }

  /** With quotes there is no such rule for single fields: a name that closes its string and adds
      a member that the web handler skips leaves the row right all the same. */
  lemma QuotesCanPass(a: string, b: string, e: Status)
    requires Clean(a) && Clean(b) && CleanStatus(e.(name := "")) && e.name == Injecting(a, "x", b)
    ensures !Shown(e) && Unmarshal(ReplyText([e])) == Some(RowsOf([e]))
  {
    var ps, members := Pairs(e)[1..], [Member("name", JString(a)), Member("x", JString(b))] + MembersOf(Pairs(e)[1..]);
    NotContents(a, "x", b);
    LastBlocks();
    TailClean(e);
    InjectedReads(a, "x", b, ps, "]" + "\n");
    InjectedDecodes(e, a, b);
    OneReplyDecodes(e, members, RecordOf(e));
    assert RowsOf([e]) == [RecordOf(e)];
  }


  // ---------- The words of the text ----------

  /** The document, in words. */
  lemma DocumentInWords(es: seq<Status>)
    ensures Document(es).JArray? && |Document(es).elements| == |es|
    ensures forall i :: 0 <= i < |es| ==>
              Document(es).elements[i] ==
              JObject([Member("name", JString(es[i].name)), Member("resourceGroup", JString(es[i].resourceGroup)),
                       Member("clusterName", JString(es[i].clusterName)), Member("powerState", JString(es[i].powerState))])
  {
    forall i | 0 <= i < |es|
      ensures MembersOf(Pairs(es[i])) ==
              [Member("name", JString(es[i].name)), Member("resourceGroup", JString(es[i].resourceGroup)),
               Member("clusterName", JString(es[i].clusterName)), Member("powerState", JString(es[i].powerState))]
    {
    }
  }

  /** The fields that the web handler fills, in words. */
  lemma FieldsInWords(r: AksStatusRecord, key: string, s: string)
    ensures SetField(r, Member(key, JString(s))) ==
            Some(if key == "resourceGroup" then AksStatusRecord(s, r.clusterName, r.status, r.timestamp, r.user)
                 else if key == "clusterName" then AksStatusRecord(r.resourceGroup, s, r.status, r.timestamp, r.user)
                 else if key == "powerState" then AksStatusRecord(r.resourceGroup, r.clusterName, s, r.timestamp, r.user)
                 else if key == "Timestamp" then AksStatusRecord(r.resourceGroup, r.clusterName, r.status, s, r.user)
                 else if key == "User" then AksStatusRecord(r.resourceGroup, r.clusterName, r.status, r.timestamp, s)
                 else r)
  {
  }
}

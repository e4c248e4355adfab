/** The entries and the Run loops of aks-status, aks-start and aks-stop
    (Utils/EntryData.go, Server/ServerCommands/ServerCommands.go). The cloud is an oracle:
    one outcome for each entry a loop calls it on. */
module PowerState {
  import opened Wrappers
  import opened Sequences
  import StatusJson

  datatype ClusterInfo = ClusterInfo(powerCode: string)

  /** The outcome of a remote call; for a start or stop, of the call and its polling. */
  datatype Outcome = Success(info: ClusterInfo) | Failed(msg: string)

  /** An entry's fields. */
  datatype Entry = Entry(
    name: string, resourceGroup: string, clusterName: string, powerState: string, clusterResponse: Option<ClusterInfo>)

  datatype Action = Start | Stop

  /** aks-start and aks-stop are one loop over different words. */
  datatype Command = Status(cluster: string) | Act(action: Action, cluster: string)

  /** The cached state a start or a stop insists on. */
  function Required(a: Action): string {
    if a.Start? then "Stopped" else "Running"
  }

  /** What a Run can fail with: a guard, or an error from outside. */
  datatype Error = AlreadyThere(action: Action, cluster: string) | Remote(msg: string) {
    function Text(): string {
      match this
      case AlreadyThere(a, c) => "cluster " + c + " is already " + if a.Start? then "running" else "stopped"
      case Remote(m) => m
    }
  }

  function DoneText(a: Action, cluster: string): string {
    (if a.Start? then "Started " else "Stopped ") + cluster + " successfully\n"
  }

  function Said(done: seq<Entry>, a: Action, cluster: string): string {
    if done == [] then "" else DoneText(a, cluster)
  }

  predicate Configured(e: Entry) {
    |e.resourceGroup| > 0 && |e.clusterName| > 0
  }

  /** The entries a command does not skip. */
  predicate Matches(cmd: Command, e: Entry) {
    && Configured(e)
    && match cmd
       case Status(c) => c == "ALL" || c == e.clusterName
       case Act(_, c) => c == e.clusterName
  }

  function Refresh(e: Entry, info: ClusterInfo): Entry {
    e.(powerState := info.powerCode, clusterResponse := Some(info))
  }

  // ---------- One entry ----------

  datatype Event = Refreshed(entry: nat, code: string) | Issued(entry: nat, action: Action)

  /** What one turn of a Run loop leaves: the entry, what it did, the entry again if the turn
      got through it (skipped entries do not count), and the error that ends the loop. */
  datatype Turn = Turn(entry: Entry, events: seq<Event>, done: seq<Entry>, error: Option<Error>)

  /** One turn of a Run loop, at entry i. */
  function VisitEntry(cmd: Command, i: nat, e: Entry, o: Outcome): Turn {
    if !Matches(cmd, e) then Turn(e, [], [], None)
    else
      match cmd {
        case Status(_) =>
          if o.Failed? then Turn(e, [], [], Some(Remote(o.msg)))
          else Turn(Refresh(e, o.info), [Refreshed(i, o.info.powerCode)], [Refresh(e, o.info)], None)
        case Act(a, _) =>
          if e.powerState != Required(a) then Turn(e, [], [], Some(AlreadyThere(a, e.clusterName)))
          else if o.Failed? then Turn(e, [Issued(i, a)], [], Some(Remote(o.msg)))
          else Turn(e, [Issued(i, a)], [e], None)
      }
  }

  /** The entries at which a Run gives up: a guard or a remote failure. */
  predicate Stops(cmd: Command, e: Entry, o: Outcome) {
    && Matches(cmd, e)
    && (o.Failed? || (cmd.Act? && e.powerState != Required(cmd.action)))
  }

  lemma StopsIsError(cmd: Command, i: nat, e: Entry, o: Outcome)
    ensures Stops(cmd, e, o) <==> VisitEntry(cmd, i, e, o).error.Some?
  {
  }

  // ---------- One Run ----------

  /** A Run loop after some of its turns. */
  datatype Progress = Progress(entries: seq<Entry>, events: seq<Event>, done: seq<Entry>, error: Option<Error>)

  function Fold(v: seq<Entry>, turns: seq<Turn>, n: nat): (p: Progress)
    requires n <= |v| == |turns|
    ensures |p.entries| == |v|
  {
    if n == 0 then Progress(v, [], [], None)
    else
      var p := Fold(v, turns, n - 1);
      if p.error.Some? then p
      else
        var t := turns[n - 1];
        Progress(p.entries[n - 1 := t.entry], p.events + t.events, p.done + t.done, t.error)
  }

  /** The turns of one Run. No turn changes an entry that a later one looks at. */
  function Turns(v: seq<Entry>, cmd: Command, oracle: nat -> Outcome): (turns: seq<Turn>)
    ensures |turns| == |v|
  {
    seq(|v|, i requires 0 <= i < |v| => VisitEntry(cmd, i, v[i], oracle(i)))
  }

  function Run(v: seq<Entry>, cmd: Command, oracle: nat -> Outcome): Progress {
    Fold(v, Turns(v, cmd, oracle), |v|)
  }

  /** The first of the first n turns that ends in an error, or n. */
  function FirstError(turns: seq<Turn>, n: nat): (k: nat)
    requires n <= |turns|
    ensures k <= n
  {
    if n == 0 then 0
    else
      var k := FirstError(turns, n - 1);
      if k < n - 1 || turns[n - 1].error.Some? then k else n
  }

  lemma {:induction false} FirstErrorIsFirst(turns: seq<Turn>, n: nat)
    requires n <= |turns|
    ensures FirstError(turns, n) < n ==> turns[FirstError(turns, n)].error.Some?
    ensures forall i :: 0 <= i < FirstError(turns, n) ==> turns[i].error.None?
  {
    if n > 0 {
      FirstErrorIsFirst(turns, n - 1);
    }
  }

  /** Where a Run gives up: at its first stop, or never. */
  function StopOf(v: seq<Entry>, cmd: Command, oracle: nat -> Outcome): nat {
    FirstError(Turns(v, cmd, oracle), |v|)
  }

  lemma StopOfIsFirstStop(v: seq<Entry>, cmd: Command, oracle: nat -> Outcome)
    ensures StopOf(v, cmd, oracle) <= |v|
    ensures StopOf(v, cmd, oracle) < |v| ==>
              Stops(cmd, v[StopOf(v, cmd, oracle)], oracle(StopOf(v, cmd, oracle)))
    ensures forall i :: 0 <= i < StopOf(v, cmd, oracle) ==> !Stops(cmd, v[i], oracle(i))
  {
    var turns := Turns(v, cmd, oracle);
    FirstErrorIsFirst(turns, |v|);
    forall i | 0 <= i < |v|
      ensures Stops(cmd, v[i], oracle(i)) <==> turns[i].error.Some?
    {
      StopsIsError(cmd, i, v[i], oracle(i));
    }
  }

  /** The turns that were taken. */
  function Taken(turns: seq<Turn>, n: nat): (m: nat)
    requires n <= |turns|
    ensures m <= n
  {
    var k := FirstError(turns, n);
    if k < n then k + 1 else n
  }

  function EventsOf(turns: seq<Turn>, n: nat): seq<Event>
    requires n <= |turns|
  {
    if n == 0 then [] else EventsOf(turns, n - 1) + turns[n - 1].events
  }

  function DoneOf(turns: seq<Turn>, n: nat): seq<Entry>
    requires n <= |turns|
  {
    if n == 0 then [] else DoneOf(turns, n - 1) + turns[n - 1].done
  }

  /** A Run's events and finished entries are those of the turns taken, and it fails exactly
      at the first turn that ends in an error. */
  lemma {:induction false} FoldIsTaken(v: seq<Entry>, turns: seq<Turn>, n: nat)
    requires n <= |v| == |turns|
    ensures Fold(v, turns, n).events == EventsOf(turns, Taken(turns, n))
    ensures Fold(v, turns, n).done == DoneOf(turns, Taken(turns, n))
    ensures Fold(v, turns, n).error.Some? <==> FirstError(turns, n) < n
    ensures FirstError(turns, n) < n ==> Fold(v, turns, n).error == turns[FirstError(turns, n)].error
  {
    if n > 0 {
      FoldIsTaken(v, turns, n - 1);
    }
  }

  /** Its entries are those the turns taken left. */
  lemma {:induction false} FoldEntry(v: seq<Entry>, turns: seq<Turn>, n: nat, i: nat)
    requires n <= |v| == |turns| && i < |v|
    ensures Fold(v, turns, n).entries[i] == if i < Taken(turns, n) then turns[i].entry else v[i]
  {
    if n > 0 {
      FoldEntry(v, turns, n - 1, i);
      FoldIsTaken(v, turns, n - 1);
    }
  }

  lemma {:induction false} FoldAhead(v: seq<Entry>, turns: seq<Turn>, n: nat, i: nat)
    requires n <= i < |v| == |turns|
    ensures Fold(v, turns, n).entries[i] == v[i]
  {
    if n > 0 {
      FoldAhead(v, turns, n - 1, i);
    }
  }

  lemma TurnAt(v: seq<Entry>, cmd: Command, oracle: nat -> Outcome, i: nat)
    requires i < |v|
    ensures Turns(v, cmd, oracle)[i] == VisitEntry(cmd, i, v[i], oracle(i))
  {
  }

  lemma FoldNext(v: seq<Entry>, turns: seq<Turn>, n: nat, p: Progress)
    requires n < |v| == |turns| && p == Fold(v, turns, n) && p.error.None?
    ensures Fold(v, turns, n + 1)
         == Progress(p.entries[n := turns[n].entry], p.events + turns[n].events, p.done + turns[n].done, turns[n].error)
  {
  }

  /** Once a Run has failed its later turns change nothing. */
  lemma {:induction false} ErrorStays(v: seq<Entry>, turns: seq<Turn>, m: nat, n: nat)
    requires m <= n <= |v| == |turns| && Fold(v, turns, m).error.Some?
    ensures Fold(v, turns, n) == Fold(v, turns, m)
  {
    if m < n {
      ErrorStays(v, turns, m, n - 1);
    }
  }

  /** One more turn of a Run that has not failed. */
  lemma RunTurn(v: seq<Entry>, cmd: Command, oracle: nat -> Outcome, n: nat, p: Progress, t: Turn)
    requires n < |v| && p == Fold(v, Turns(v, cmd, oracle), n) && p.error.None?
    requires t == VisitEntry(cmd, n, p.entries[n], oracle(n))
    ensures var p' := Progress(p.entries[n := t.entry], p.events + t.events, p.done + t.done, t.error);
            && Fold(v, Turns(v, cmd, oracle), n + 1) == p'
            && (t.error.Some? ==> Run(v, cmd, oracle) == p')
  {
    var turns := Turns(v, cmd, oracle);
    FoldAhead(v, turns, n, n);
    TurnAt(v, cmd, oracle, n);
    FoldNext(v, turns, n, p);
    if t.error.Some? {
      ErrorStays(v, turns, n + 1, |v|);
    }
  }

  // ---------- What a Run comes to ----------

  /** The matching entries among the first n, as indices in order. */
  function MatchIndices(v: seq<Entry>, cmd: Command, n: nat): seq<nat>
    requires n <= |v|
  {
    if n == 0 then [] else MatchIndices(v, cmd, n - 1) + if Matches(cmd, v[n - 1]) then [n - 1] else []
  }

  /** MatchIndices lists exactly the matching entries, each once, in list order. */
  lemma {:induction false} MatchIndicesExact(v: seq<Entry>, cmd: Command, n: nat)
    requires n <= |v|
    ensures forall i :: i in MatchIndices(v, cmd, n) <==> 0 <= i < n && Matches(cmd, v[i])
    ensures forall a, b :: 0 <= a < b < |MatchIndices(v, cmd, n)| ==>
              MatchIndices(v, cmd, n)[a] < MatchIndices(v, cmd, n)[b]
  {
    if n > 0 {
      MatchIndicesExact(v, cmd, n - 1);
      var front := MatchIndices(v, cmd, n - 1);
      forall a, b | 0 <= a < b < |MatchIndices(v, cmd, n)|
        ensures MatchIndices(v, cmd, n)[a] < MatchIndices(v, cmd, n)[b]
      {
        assert front[a] in front;
      }
    }
  }

  /** A status turn that does not fail leaves the entry like this. */
  function AfterStatus(cluster: string, e: Entry, o: Outcome): Entry {
    if Matches(Status(cluster), e) && o.Success? then Refresh(e, o.info) else e
  }

  lemma StatusTurn(cluster: string, i: nat, e: Entry, o: Outcome)
    ensures var t := VisitEntry(Status(cluster), i, e, o);
            && t.entry == AfterStatus(cluster, e, o)
            && t.error == (if Matches(Status(cluster), e) && o.Failed? then Some(Remote(o.msg)) else None)
            && t.done == (if Matches(Status(cluster), e) && o.Success? then [t.entry] else [])
  {
  }

  /** A Run fails exactly when one of its turns stops it, and with that turn's error. */
  lemma RunError(v: seq<Entry>, cmd: Command, oracle: nat -> Outcome)
    ensures Run(v, cmd, oracle).error.Some? <==> StopOf(v, cmd, oracle) < |v|
    ensures var k := StopOf(v, cmd, oracle);
            k < |v| ==> Run(v, cmd, oracle).error == VisitEntry(cmd, k, v[k], oracle(k)).error
  {
    FoldIsTaken(v, Turns(v, cmd, oracle), |v|);
    if StopOf(v, cmd, oracle) < |v| {
      TurnAt(v, cmd, oracle, StopOf(v, cmd, oracle));
    }
  }

  lemma StatusEntry(v: seq<Entry>, cluster: string, oracle: nat -> Outcome, i: nat)
    requires i < |v|
    ensures Run(v, Status(cluster), oracle).entries[i]
         == if i < StopOf(v, Status(cluster), oracle) then AfterStatus(cluster, v[i], oracle(i)) else v[i]
  {
    var turns := Turns(v, Status(cluster), oracle);
    FoldEntry(v, turns, |v|, i);
    FirstErrorIsFirst(turns, |v|);
    TurnAt(v, Status(cluster), oracle, i);
    StatusTurn(cluster, i, v[i], oracle(i));
  }

  /** A status Run is an exact prefix update: the matching entries before the first failure
      hold what the cloud answered, all other entries are as they were, and there is an error
      if and only if there was a failure. */
  lemma StatusUpdatesPrefix(v: seq<Entry>, cluster: string, oracle: nat -> Outcome)
    ensures var p, k := Run(v, Status(cluster), oracle), StopOf(v, Status(cluster), oracle);
            && |p.entries| == |v|
            && (p.error.Some? <==> k < |v|)
            && (k < |v| ==> oracle(k).Failed? && p.error == Some(Remote(oracle(k).msg)))
            && (forall i :: 0 <= i < k && Matches(Status(cluster), v[i]) ==>
                  oracle(i).Success? && p.entries[i] == Refresh(v[i], oracle(i).info))
            && (forall i :: 0 <= i < |v| && !(i < k && Matches(Status(cluster), v[i])) ==> p.entries[i] == v[i])
  {
    var k := StopOf(v, Status(cluster), oracle);
    RunError(v, Status(cluster), oracle);
    StopOfIsFirstStop(v, Status(cluster), oracle);
    if k < |v| {
      StatusTurn(cluster, k, v[k], oracle(k));
    }
    forall i | 0 <= i < |v|
      ensures Run(v, Status(cluster), oracle).entries[i] == if i < k then AfterStatus(cluster, v[i], oracle(i)) else v[i]
      ensures i < k && Matches(Status(cluster), v[i]) ==> oracle(i).Success?
    {
      StatusEntry(v, cluster, oracle, i);
      assert i < k ==> !Stops(Status(cluster), v[i], oracle(i));
    }
  }

  /** The entries at some indices. */
  function Picked(es: seq<Entry>, hits: seq<nat>): seq<Entry>
    requires forall j :: 0 <= j < |hits| ==> hits[j] < |es|
  {
    seq(|hits|, j requires 0 <= j < |hits| => es[hits[j]])
  }

  lemma PickedAppend(es: seq<Entry>, hits: seq<nat>, n: nat)
    requires n < |es| && forall j :: 0 <= j < |hits| ==> hits[j] < |es|
    ensures Picked(es, hits + [n]) == Picked(es, hits) + [es[n]]
  {
  }

  lemma {:induction false} DonePicked(v: seq<Entry>, es: seq<Entry>, cluster: string, oracle: nat -> Outcome, n: nat)
    requires n <= |v| == |es|
    requires forall i :: 0 <= i < n ==> Turns(v, Status(cluster), oracle)[i].error.None?
    requires forall i :: 0 <= i < n ==> es[i] == Turns(v, Status(cluster), oracle)[i].entry
    ensures forall j :: 0 <= j < |MatchIndices(v, Status(cluster), n)| ==> MatchIndices(v, Status(cluster), n)[j] < n
    ensures DoneOf(Turns(v, Status(cluster), oracle), n) == Picked(es, MatchIndices(v, Status(cluster), n))
  {
    if n > 0 {
      DonePicked(v, es, cluster, oracle, n - 1);
      TurnAt(v, Status(cluster), oracle, n - 1);
      StatusTurn(cluster, n - 1, v[n - 1], oracle(n - 1));
      PickedAppend(es, MatchIndices(v, Status(cluster), n - 1), n - 1);
    }
  }

  /** What a successful status Run reports: the refreshed entries, all of them and in list order. */
  lemma StatusReportsRefreshed(v: seq<Entry>, cluster: string, oracle: nat -> Outcome)
    requires Run(v, Status(cluster), oracle).error.None?
    ensures forall j :: 0 <= j < |MatchIndices(v, Status(cluster), |v|)| ==> MatchIndices(v, Status(cluster), |v|)[j] < |v|
    ensures Run(v, Status(cluster), oracle).done
         == Picked(Run(v, Status(cluster), oracle).entries, MatchIndices(v, Status(cluster), |v|))
  {
    var turns := Turns(v, Status(cluster), oracle);
    FoldIsTaken(v, turns, |v|);
    FirstErrorIsFirst(turns, |v|);
    forall i | 0 <= i < |v|
      ensures Run(v, Status(cluster), oracle).entries[i] == turns[i].entry
    {
      FoldEntry(v, turns, |v|, i);
    }
    DonePicked(v, Run(v, Status(cluster), oracle).entries, cluster, oracle, |v|);
  }

  /** What the status text shows of an entry. */
  function ReportOf(e: Entry): StatusJson.Status {
    StatusJson.Status(e.name, e.resourceGroup, e.clusterName, e.powerState)
  }

  function Reported(es: seq<Entry>): seq<StatusJson.Status> {
    seq(|es|, i requires 0 <= i < |es| => ReportOf(es[i]))
  }

  /** Entry by entry: each matching entry is reported as the cloud answered it. */
  lemma ReportedRefreshed(v: seq<Entry>, cluster: string, oracle: nat -> Outcome, j: nat)
    requires Run(v, Status(cluster), oracle).error.None? && j < |MatchIndices(v, Status(cluster), |v|)|
    ensures |Run(v, Status(cluster), oracle).done| == |MatchIndices(v, Status(cluster), |v|)|
    ensures var k, e := MatchIndices(v, Status(cluster), |v|)[j], Run(v, Status(cluster), oracle).done[j];
            && k < |v| && oracle(k).Success? && e == Refresh(v[k], oracle(k).info)
            && ReportOf(e).name == v[k].name && ReportOf(e).resourceGroup == v[k].resourceGroup
            && ReportOf(e).clusterName == v[k].clusterName && ReportOf(e).powerState == oracle(k).info.powerCode
  {
    StatusReportsRefreshed(v, cluster, oracle);
    StatusUpdatesPrefix(v, cluster, oracle);
    MatchIndicesExact(v, Status(cluster), |v|);
    assert MatchIndices(v, Status(cluster), |v|)[j] in MatchIndices(v, Status(cluster), |v|);
  }

  function IssuedAt(hits: seq<nat>, a: Action): seq<Event> {
    seq(|hits|, i requires 0 <= i < |hits| => Issued(hits[i], a))
  }

  lemma ActTurn(a: Action, cluster: string, i: nat, e: Entry, o: Outcome)
    ensures var t := VisitEntry(Act(a, cluster), i, e, o);
            && t.entry == e
            && (t.error.None? ==> t.events == if Matches(Act(a, cluster), e) then [Issued(i, a)] else [])
            && (t.error.Some? ==> t.events == if e.powerState == Required(a) then [Issued(i, a)] else [])
            && (t.error.Some? ==> e.powerState == Required(a) ==> o.Failed?)
            && (t.error.Some? ==> t.error.value == if e.powerState == Required(a) then Remote(o.msg) else AlreadyThere(a, cluster))
  {
  }

  lemma {:induction false} EventsIssued(v: seq<Entry>, a: Action, cluster: string, oracle: nat -> Outcome, n: nat)
    requires n <= |v|
    requires forall i :: 0 <= i < n ==> Turns(v, Act(a, cluster), oracle)[i].error.None?
    ensures EventsOf(Turns(v, Act(a, cluster), oracle), n) == IssuedAt(MatchIndices(v, Act(a, cluster), n), a)
  {
    if n > 0 {
      EventsIssued(v, a, cluster, oracle, n - 1);
      TurnAt(v, Act(a, cluster), oracle, n - 1);
      ActTurn(a, cluster, n - 1, v[n - 1], oracle(n - 1));
      var hits := MatchIndices(v, Act(a, cluster), n - 1);
      assert IssuedAt(hits + [n - 1], a) == IssuedAt(hits, a) + [Issued(n - 1, a)];
    }
  }

  /** A start or stop changes no cached state. */
  lemma ActKeepsEntries(v: seq<Entry>, a: Action, cluster: string, oracle: nat -> Outcome)
    ensures Run(v, Act(a, cluster), oracle).entries == v
  {
    var turns := Turns(v, Act(a, cluster), oracle);
    forall i | 0 <= i < |v|
      ensures Run(v, Act(a, cluster), oracle).entries[i] == v[i]
    {
      FoldEntry(v, turns, |v|, i);
      TurnAt(v, Act(a, cluster), oracle, i);
      ActTurn(a, cluster, i, v[i], oracle(i));
    }
  }

  lemma ActEvents(v: seq<Entry>, a: Action, cluster: string, oracle: nat -> Outcome, k: nat)
    requires k == StopOf(v, Act(a, cluster), oracle)
    ensures k <= |v|
    ensures var last := if k < |v| then Turns(v, Act(a, cluster), oracle)[k].events else [];
            Run(v, Act(a, cluster), oracle).events == IssuedAt(MatchIndices(v, Act(a, cluster), k), a) + last
  {
    var turns := Turns(v, Act(a, cluster), oracle);
    FoldIsTaken(v, turns, |v|);
    FirstErrorIsFirst(turns, |v|);
    EventsIssued(v, a, cluster, oracle, k);
  }

  /** The remote calls a start or stop issues are exactly the matching entries in list order
      before the first failure, and the failing entry too if it was the call that failed;
      there is an error if and only if there was a failure. */
  lemma ActIssuesExactly(v: seq<Entry>, a: Action, cluster: string, oracle: nat -> Outcome)
    ensures var p, k := Run(v, Act(a, cluster), oracle), StopOf(v, Act(a, cluster), oracle);
            && (p.error.Some? <==> k < |v|)
            && p.events == IssuedAt(MatchIndices(v, Act(a, cluster), k), a)
                         + (if k < |v| && v[k].powerState == Required(a) then [Issued(k, a)] else [])
            && (k < |v| ==> v[k].powerState == Required(a) ==> oracle(k).Failed?)
            && (k < |v| ==> p.error.value == if v[k].powerState == Required(a) then Remote(oracle(k).msg) else AlreadyThere(a, cluster))
  {
    var k := StopOf(v, Act(a, cluster), oracle);
    ActEvents(v, a, cluster, oracle, k);
    RunError(v, Act(a, cluster), oracle);
    if k < |v| {
      StopOfIsFirstStop(v, Act(a, cluster), oracle);
      StopsIsError(Act(a, cluster), k, v[k], oracle(k));
      TurnAt(v, Act(a, cluster), oracle, k);
      ActTurn(a, cluster, k, v[k], oracle(k));
    }
  }

  lemma TextsAppend(a: seq<Entry>, b: seq<Entry>)
    ensures StatusJson.ItemTexts(Reported(a + b)) == StatusJson.ItemTexts(Reported(a)) + StatusJson.ItemTexts(Reported(b))
  {
  }

  lemma IssuedAtHits(hits: seq<nat>, a: Action, e: Event)
    ensures e in IssuedAt(hits, a) <==> e.Issued? && e.action == a && e.entry in hits
  {
    if e.Issued? && e.action == a && e.entry in hits {
      var j :| 0 <= j < |hits| && hits[j] == e.entry;
      assert IssuedAt(hits, a)[j] == e;
    }
  }

  /** What a start or stop looks for and insists on, in words: it calls the cloud for entries of
      its cluster alone, for a start only while Stopped, for a stop only while Running, and for
      all of these before it gives up; a guard refuses only an entry that is not so. */
  lemma ActInWords(v: seq<Entry>, a: Action, cluster: string, oracle: nat -> Outcome)
    ensures var p, k, state := Run(v, Act(a, cluster), oracle), StopOf(v, Act(a, cluster), oracle),
                               if a.Start? then "Stopped" else "Running";
            && k <= |v|
            && (forall e :: e in p.events ==>
                  && e.Issued? && e.action == a && e.entry < |v|
                  && v[e.entry].resourceGroup != "" && v[e.entry].clusterName == cluster != ""
                  && v[e.entry].powerState == state)
            && (forall i: nat :: i < k && v[i].resourceGroup != "" && v[i].clusterName == cluster != "" ==>
                  v[i].powerState == state && Issued(i, a) in p.events)
            && (k == |v| ==> p.error.None?)
            && (k < |v| ==>
                  && v[k].resourceGroup != "" && v[k].clusterName == cluster != ""
                  && (v[k].powerState == state ==>
                        Issued(k, a) in p.events && oracle(k).Failed? && p.error == Some(Remote(oracle(k).msg)))
                  && (v[k].powerState != state ==> p.error == Some(AlreadyThere(a, cluster))))
  {
    var cmd := Act(a, cluster);
    var p, k := Run(v, cmd, oracle), StopOf(v, cmd, oracle);
    ActIssuesExactly(v, a, cluster, oracle);
    StopOfIsFirstStop(v, cmd, oracle);
    MatchIndicesExact(v, cmd, k);
    forall e
      ensures e in IssuedAt(MatchIndices(v, cmd, k), a) <==> e.Issued? && e.action == a && e.entry in MatchIndices(v, cmd, k)
    {
      IssuedAtHits(MatchIndices(v, cmd, k), a, e);
    }
    forall i: nat | i < k && v[i].resourceGroup != "" && v[i].clusterName == cluster != ""
      ensures v[i].powerState == Required(a) && Issued(i, a) in p.events
    {
      assert Matches(cmd, v[i]) && !Stops(cmd, v[i], oracle(i));
    }
  }

  // ---------- The code ----------

  class AksEntry {
    const name: string
    const resourceGroup: string
    const clusterName: string
    var powerState: string
    var clusterResponse: Option<ClusterInfo>

    constructor (name: string, resourceGroup: string, clusterName: string, powerState: string)
      ensures Value() == Entry(name, resourceGroup, clusterName, powerState, None)
    {
      this.name, this.resourceGroup, this.clusterName := name, resourceGroup, clusterName;
      this.powerState, clusterResponse := powerState, None;
    }

    function Value(): Entry
      reads this
    {
      Entry(name, resourceGroup, clusterName, powerState, clusterResponse)
    }
  }

  class AksEntryList {
    var entries: seq<AksEntry>

    constructor (es: seq<AksEntry>)
      ensures entries == es
    {
      entries := es;
    }

    /** The decoder allocates one entry for each element of the configuration. */
    ghost predicate Valid()
      reads this
    {
      forall i, j :: 0 <= i < j < |entries| ==> entries[i] != entries[j]
    }

    ghost function View(): (v: seq<Entry>)
      reads this, entries
      ensures |v| == |entries|
      ensures forall i :: 0 <= i < |v| ==> v[i] == entries[i].Value()
    {
      var es := entries;
      seq(|es|, i requires 0 <= i < |es| reads es => es[i].Value())
    }

    /** The body of AksStatusCommand.Run's loop at entry i; `statuses` is what it appends. */
    method StatusTurn(i: nat, cluster: string, oracle: nat -> Outcome)
      returns (error: Option<Error>, statuses: seq<string>)
      requires Valid() && i < |entries|
      modifies entries
      ensures unchanged(this)
      ensures var r := VisitEntry(Status(cluster), i, old(View())[i], oracle(i));
              && View() == old(View())[i := r.entry]
              && error == r.error
              && statuses == StatusJson.ItemTexts(Reported(r.done))
    {
      var entry := entries[i];
      ghost var before := View();
      error, statuses := None, [];
      if |entry.resourceGroup| == 0 || |entry.clusterName| == 0 {
        return;
      }
      if cluster != "ALL" && cluster != entry.clusterName {
        return;
      }
      var res := oracle(i);
      if res.Failed? {
        return Some(Remote(res.msg)), [];
      }
      entry.clusterResponse := Some(res.info);
      entry.powerState := res.info.powerCode;
      statuses := [StatusJson.ItemText(ReportOf(entry.Value()))];
      assert View() == before[i := Refresh(before[i], res.info)];
    }

    /** The loop of AksStatusCommand.Run. */
    method StatusLoop(cluster: string, oracle: nat -> Outcome) returns (statuses: seq<string>, err: Option<Error>)
      requires Valid()
      modifies entries
      ensures unchanged(this)
      ensures var p := Run(old(View()), Status(cluster), oracle);
              && View() == p.entries
              && err == p.error
              && statuses == StatusJson.ItemTexts(Reported(p.done))
    {
      ghost var v := View();
      ghost var p := Progress(v, [], [], None);
      statuses, err := [], None;
      for i := 0 to |entries|
        invariant unchanged(this) && p == Fold(v, Turns(v, Status(cluster), oracle), i)
        invariant View() == p.entries && err == p.error == None
        invariant statuses == StatusJson.ItemTexts(Reported(p.done))
      {
        var more;
        ghost var t := VisitEntry(Status(cluster), i, View()[i], oracle(i));
        RunTurn(v, Status(cluster), oracle, i, p, t);
        TextsAppend(p.done, t.done);
        err, more := StatusTurn(i, cluster, oracle);
        statuses := statuses + more;
        p := Progress(p.entries[i := t.entry], p.events + t.events, p.done + t.done, t.error);
        if err.Some? {
          return;
        }
      }
    }

    /** AksStatusCommand.Run; `setup` is a failure to get credentials or a client. */
    method RunStatus(cluster: string, setup: Option<Error>, oracle: nat -> Outcome)
      returns (cmdResult: string, cmdError: string, err: Option<Error>)
      requires Valid()
      modifies entries
      ensures unchanged(this)
      ensures cmdError == if err.Some? then err.value.Text() else ""
      ensures setup.Some? ==> err == setup && cmdResult == "" && View() == old(View())
      ensures setup.None? ==>
                var p := Run(old(View()), Status(cluster), oracle);
                && View() == p.entries
                && err == p.error
                && cmdResult == if err.Some? then "" else StatusJson.StatusText(Reported(p.done))
    {
      cmdResult, cmdError, err := "", "", setup;
      if setup.Some? {
        cmdError := err.value.Text();
        return;
      }
      var statuses;
      statuses, err := StatusLoop(cluster, oracle);
      if err.Some? {
        cmdError := err.value.Text();
        return;
      }
      cmdResult := "[" + Join(statuses, ",") + "]";
    }

    /** The body of the start and stop loops at entry i. */
    method ActTurn(i: nat, action: Action, cluster: string, oracle: nat -> Outcome, soFar: string)
      returns (error: Option<Error>, issued: seq<Event>, cmdResult: string)
      requires i < |entries|
      ensures var r := VisitEntry(Act(action, cluster), i, entries[i].Value(), oracle(i));
              && error == r.error && issued == r.events && r.entry == entries[i].Value()
              && (r.done == [] ==> cmdResult == soFar)
              && (r.done != [] ==> cmdResult == DoneText(action, cluster))
    {
      var entry := entries[i];
      error, issued, cmdResult := None, [], soFar;
      if entry.resourceGroup == "" || entry.clusterName == "" {
        return;
      }
      if cluster != entry.clusterName {
        return;
      }
      if entry.powerState != Required(action) {
        error := Some(AlreadyThere(action, entry.clusterName));
        return;
      }
      issued := [Issued(i, action)];
      var res := oracle(i);
      if res.Failed? {
        error := Some(Remote(res.msg));
        return;
      }
      cmdResult := DoneText(action, entry.clusterName);
    }

    /** Their loop. */
    method ActLoop(action: Action, cluster: string, oracle: nat -> Outcome)
      returns (cmdResult: string, err: Option<Error>, issued: seq<Event>)
      ensures var p := Run(View(), Act(action, cluster), oracle);
              && issued == p.events
              && err == p.error
              && cmdResult == Said(p.done, action, cluster)
    {
      cmdResult, err, issued := "", None, [];
      ghost var v := View();
      ghost var p := Progress(v, [], [], None);
      for i := 0 to |entries|
        invariant p == Fold(v, Turns(v, Act(action, cluster), oracle), i) && p.entries == v && err == p.error == None
        invariant issued == p.events && cmdResult == Said(p.done, action, cluster)
      {
        var more;
        ghost var t := VisitEntry(Act(action, cluster), i, v[i], oracle(i));
        RunTurn(v, Act(action, cluster), oracle, i, p, t);
        err, more, cmdResult := ActTurn(i, action, cluster, oracle, cmdResult);
        issued := issued + more;
        p := Progress(v, p.events + t.events, p.done + t.done, t.error);
        assert v[i := t.entry] == v;
        if err.Some? {
          break;
        }
      }
    }

    /** AksStartCommand.Run and AksStopCommand.Run. `issued` are the BeginStart or BeginStop
        calls made, in order. */
    method RunAct(action: Action, cluster: string, setup: Option<Error>, oracle: nat -> Outcome)
      returns (cmdResult: string, cmdError: string, err: Option<Error>, issued: seq<Event>)
      ensures cmdError == if err.Some? then err.value.Text() else ""
      ensures setup.Some? ==> err == setup && cmdResult == "" && issued == []
      ensures setup.None? ==>
                var p := Run(View(), Act(action, cluster), oracle);
                && issued == p.events
                && err == p.error
                && cmdResult == if p.done == [] then "" else DoneText(action, cluster)
      // in words: a start is issued only while Stopped, a stop only while Running
      ensures forall j :: 0 <= j < |issued| ==>
                && issued[j].Issued? && issued[j].action == action && issued[j].entry < |entries|
                && entries[issued[j].entry].powerState == if action.Start? then "Stopped" else "Running"
      ensures setup.None? && err.Some? && err.value.AlreadyThere? ==>
                cmdError == "cluster " + cluster + " is already " + if action.Start? then "running" else "stopped"
      ensures cmdResult == "" || cmdResult == (if action.Start? then "Started " else "Stopped ") + cluster + " successfully\n"
    {
      cmdResult, cmdError, err, issued := "", "", setup, [];
      if err.None? {
        cmdResult, err, issued := ActLoop(action, cluster, oracle);
        ActInWords(View(), action, cluster, oracle);
        assert forall j :: 0 <= j < |issued| ==> issued[j] in issued;
      }
      if err.Some? {
        cmdError := err.value.Text();
      }
    }
  }
}

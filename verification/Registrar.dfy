/** The registrar that drains the audit channel into its tables (Server/Data/Registrar.go). */
module Registrar {
  import opened Wrappers
  import opened Records
  import opened Sequences

  datatype Table = NebirosLogs | K8sStatus

  /** One ExecInsert: the statement's table, the stamped record, and whether Exec succeeded. */
  datatype Insert = Insert(table: Table, rec: Record, ok: bool)

  /** The table made for a record's dynamic type. */
  function TableFor(r: Record): Table {
    match r
    case AuditRecord(_, _, _, _, _, _, _, _, _) => NebirosLogs
    case KubeStatusRecord(_, _, _, _, _) => K8sStatus
  }

  /** The insert that answers a taken record: right table, nothing changed but the Tstp. */
  predicate Answers(i: Insert, taken: Record) {
    && (i.table == NebirosLogs <==> taken.AuditRecord?)
    && i.rec.Erase() == taken.Erase() && i.rec.cmdType == taken.cmdType
  }

  /** The record as it was taken, but for its Tstp, which is the time t. */
  predicate IsStamped(row: Record, taken: Record, t: Time) {
    row.tstp == t && row.Erase() == taken.Erase() && row.cmdType == taken.cmdType
  }

  /** A table's rows after the inserts: the accepted ones for that table are added, in order. */
  function Stored(rows: seq<Record>, inserts: seq<Insert>, table: Table): seq<Record> {
    if inserts == [] then rows
    else
      var last, before := inserts[|inserts| - 1], Stored(rows, inserts[..|inserts| - 1], table);
      if last.table == table && last.ok then before + [last.rec] else before
  }

  /** What a turn's insert, if there is one, adds to a table. */
  function Kept(done: seq<Insert>, table: Table): seq<Record> {
    if |done| == 1 && done[0].table == table && done[0].ok then [done[0].rec] else []
  }

  lemma StoredNext(rows: seq<Record>, inserts: seq<Insert>, done: seq<Insert>, table: Table)
    requires |done| <= 1
    ensures Stored(rows, inserts + done, table) == Stored(rows, inserts, table) + Kept(done, table)
  {
    if done == [] {
      assert inserts + done == inserts;
    } else {
      assert (inserts + done)[..|inserts|] == inserts && (inserts + done)[|inserts|] == done[0];
    }
  }

  /** A row is in the table if it was before or one of the table's accepted inserts brought it. */
  lemma {:induction false} StoredHolds(rows: seq<Record>, inserts: seq<Insert>, table: Table)
    ensures rows <= Stored(rows, inserts, table)
    ensures forall r :: r in Stored(rows, inserts, table) <==>
              r in rows || exists i :: 0 <= i < |inserts| && inserts[i] == Insert(table, r, true)
  {
    if inserts != [] {
      var front, last := inserts[..|inserts| - 1], inserts[|inserts| - 1];
      StoredHolds(rows, front, table);
      forall r, i | 0 <= i < |front|
        ensures front[i] == Insert(table, r, true) <==> inserts[i] == Insert(table, r, true)
      {
      }
      assert inserts[|inserts| - 1] == last;
    }
  }

  /** What happens around one turn of Watch: records sent since the last turn, a Shutdown (and
      the error of closing the database, if any), the clock at the insert, and whether the
      database accepts it. */
  datatype Turn = Turn(arrivals: seq<Record>, shutdown: bool, closeError: Option<string>, now: Time, execOk: bool)

  function Arrivals(turns: seq<Turn>, n: nat): seq<Record>
    requires n <= |turns|
  {
    if n == 0 then [] else Arrivals(turns, n - 1) + turns[n - 1].arrivals
  }

  ghost predicate ClockMonotone(turns: seq<Turn>) {
    forall i, j :: 0 <= i <= j < |turns| ==> turns[i].now <= turns[j].now
  }

  ghost predicate StampsSorted(inserts: seq<Insert>) {
    forall i, j :: 0 <= i <= j < |inserts| ==> inserts[i].rec.tstp <= inserts[j].rec.tstp
  }

  /** Sorted, and no stamp is later than the clock of any turn still to come. */
  ghost predicate StampsBy(inserts: seq<Insert>, turns: seq<Turn>, n: nat) {
    && StampsSorted(inserts)
    && forall i, k :: 0 <= i < |inserts| && n <= k < |turns| ==> inserts[i].rec.tstp <= turns[k].now
  }

  ghost predicate AllAnswered(inserts: seq<Insert>, taken: seq<Record>) {
    |inserts| == |taken| && forall i :: 0 <= i < |taken| ==> Answers(inserts[i], taken[i])
  }

  /** What one turn of Watch makes of the channel: whether it stops, what it took and inserted
      (nothing, when the channel is empty and it sleeps), and what stays in the channel. */
  datatype VisitResult = VisitResult(stop: bool, took: seq<Record>, done: seq<Insert>, buf: seq<Record>)

  function VisitOf(stop: bool, buf: seq<Record>, now: Time, execOk: bool): (v: VisitResult)
    ensures |v.done| <= 1
  {
    if stop || buf == [] then VisitResult(stop, [], [], buf)
    else VisitResult(stop, [buf[0]], [Insert(TableFor(buf[0]), buf[0].SetTimestamp(now), execOk)], buf[1..])
  }

  /** A turn takes at most one record, the oldest; it takes none only when it stops or there is
      none; and what it takes it inserts. */
  lemma VisitTakes(stop: bool, buf: seq<Record>, now: Time, execOk: bool)
    ensures var v := VisitOf(stop, buf, now, execOk);
            && v.took + v.buf == buf
            && |v.took| == |v.done| <= 1 && (v.took == [] <==> stop || buf == [])
            && (v.took != [] ==>
                  && Answers(v.done[0], v.took[0])
                  && (v.done[0].table == NebirosLogs <==> v.took[0].AuditRecord?)
                  && IsStamped(v.done[0].rec, v.took[0], now)
                  && v.done[0].ok == execOk)
  {
    if !stop && buf != [] {
      StampOnly(buf[0], now);
    }
  }

  /** Where a number of turns leave the loop, the channel and the two tables. */
  datatype Watched = Watched(
    stop: bool, taken: seq<Record>, inserts: seq<Insert>, buf: seq<Record>,
    nebirosLogs: seq<Record>, k8sStatus: seq<Record>)

  function AfterTurn(w: Watched, turn: Turn): Watched {
    var v := VisitOf(w.stop || turn.shutdown, w.buf + turn.arrivals, turn.now, turn.execOk);
    Watched(v.stop, w.taken + v.took, w.inserts + v.done, v.buf,
            w.nebirosLogs + Kept(v.done, NebirosLogs), w.k8sStatus + Kept(v.done, K8sStatus))
  }

  function WatchOf(start: Watched, turns: seq<Turn>, n: nat): Watched
    requires n <= |turns|
  {
    if n == 0 then start else AfterTurn(WatchOf(start, turns, n - 1), turns[n - 1])
  }

  lemma WatchNext(start: Watched, turns: seq<Turn>, n: nat, w: Watched)
    requires n < |turns| && w == WatchOf(start, turns, n)
    ensures WatchOf(start, turns, n + 1) == AfterTurn(w, turns[n])
  {
  }

  /** Watch stops once a turn has seen a Shutdown. */
  lemma {:induction false} WatchStops(start: Watched, turns: seq<Turn>, n: nat)
    requires n <= |turns|
    ensures WatchOf(start, turns, n).stop <==> start.stop || exists i :: 0 <= i < n && turns[i].shutdown
  {
    if n > 0 {
      WatchStops(start, turns, n - 1);
    }
  }

  /** Nothing is taken or inserted yet. */
  predicate Fresh(start: Watched) {
    start.taken == [] && start.inserts == []
  }

  /** Everything that was in the channel or arrived is either taken, in order, or still there. */
  lemma {:induction false} WatchConserves(start: Watched, turns: seq<Turn>, n: nat)
    requires n <= |turns| && Fresh(start)
    ensures start.buf + Arrivals(turns, n) == WatchOf(start, turns, n).taken + WatchOf(start, turns, n).buf
  {
    if n > 0 {
      WatchConserves(start, turns, n - 1);
      var w, turn := WatchOf(start, turns, n - 1), turns[n - 1];
      var v := VisitOf(w.stop || turn.shutdown, w.buf + turn.arrivals, turn.now, turn.execOk);
      VisitTakes(w.stop || turn.shutdown, w.buf + turn.arrivals, turn.now, turn.execOk);
      AppendAssoc(start.buf, Arrivals(turns, n - 1), turn.arrivals);
      AppendAssoc(w.taken, w.buf, turn.arrivals);
      AppendAssoc(w.taken, v.took, v.buf);
    }
  }

  lemma {:induction false} WatchAnswers(start: Watched, turns: seq<Turn>, n: nat)
    requires n <= |turns| && Fresh(start)
    ensures AllAnswered(WatchOf(start, turns, n).inserts, WatchOf(start, turns, n).taken)
  {
    if n > 0 {
      WatchAnswers(start, turns, n - 1);
    }
  }

  lemma {:induction false} WatchStores(start: Watched, turns: seq<Turn>, n: nat)
    requires n <= |turns| && Fresh(start)
    ensures WatchOf(start, turns, n).nebirosLogs == Stored(start.nebirosLogs, WatchOf(start, turns, n).inserts, NebirosLogs)
    ensures WatchOf(start, turns, n).k8sStatus == Stored(start.k8sStatus, WatchOf(start, turns, n).inserts, K8sStatus)
  {
    if n > 0 {
      WatchStores(start, turns, n - 1);
      var w, turn := WatchOf(start, turns, n - 1), turns[n - 1];
      var done := VisitOf(w.stop || turn.shutdown, w.buf + turn.arrivals, turn.now, turn.execOk).done;
      StoredNext(start.nebirosLogs, w.inserts, done, NebirosLogs);
      StoredNext(start.k8sStatus, w.inserts, done, K8sStatus);
    }
  }

  lemma StampsNext(inserts: seq<Insert>, done: seq<Insert>, turns: seq<Turn>, n: nat)
    requires ClockMonotone(turns) && n < |turns| && StampsBy(inserts, turns, n)
    requires |done| <= 1 && (done != [] ==> done[0].rec.tstp == turns[n].now)
    ensures StampsBy(inserts + done, turns, n + 1)
  {
  }

  lemma StampsAfterTurn(w: Watched, w': Watched, turns: seq<Turn>, n: nat)
    requires ClockMonotone(turns) && 0 < n <= |turns| && StampsBy(w.inserts, turns, n - 1)
    requires w' == AfterTurn(w, turns[n - 1])
    ensures StampsBy(w'.inserts, turns, n)
  {
    var turn := turns[n - 1];
    var v := VisitOf(w.stop || turn.shutdown, w.buf + turn.arrivals, turn.now, turn.execOk);
    StampsNext(w.inserts, v.done, turns, n - 1);
  }

  lemma {:induction false} WatchStamps(start: Watched, turns: seq<Turn>, n: nat)
    requires ClockMonotone(turns) && n <= |turns| && Fresh(start)
    ensures StampsBy(WatchOf(start, turns, n).inserts, turns, n)
  {
    if n > 0 {
      WatchStamps(start, turns, n - 1);
      StampsAfterTurn(WatchOf(start, turns, n - 1), WatchOf(start, turns, n), turns, n);
    }
  }

  /** What Watch keeps over any stretch of turns. */
  lemma WatchKeeps(start: Watched, turns: seq<Turn>, n: nat)
    requires n <= |turns| && Fresh(start)
    ensures var w := WatchOf(start, turns, n);
            && start.buf + Arrivals(turns, n) == w.taken + w.buf
            && AllAnswered(w.inserts, w.taken)
            && (forall i :: 0 <= i < |w.taken| ==> (w.inserts[i].table == NebirosLogs <==> w.taken[i].AuditRecord?))
            && w.nebirosLogs == Stored(start.nebirosLogs, w.inserts, NebirosLogs)
            && w.k8sStatus == Stored(start.k8sStatus, w.inserts, K8sStatus)
            && (ClockMonotone(turns) ==> StampsSorted(w.inserts))
  {
    WatchConserves(start, turns, n);
    WatchAnswers(start, turns, n);
    WatchStores(start, turns, n);
    if ClockMonotone(turns) {
      WatchStamps(start, turns, n);
    }
  }

  class AuditChannel {
    var buf: seq<Record>

    constructor ()
      ensures buf == []
    {
      buf := [];
    }
  }

  class Registrar {
    var doShutdown: bool
    var open: bool
    var nebirosLogs: seq<Record>
    var k8sStatus: seq<Record>

    constructor ()
      ensures !doShutdown && open && nebirosLogs == [] && k8sStatus == []
    {
      doShutdown, open := false, true;
      nebirosLogs, k8sStatus := [], [];
    }

    /** `closeError` is what closing the database answers. */
    method Shutdown(closeError: Option<string>) returns (err: Option<string>)
      modifies this`doShutdown, this`open
      ensures doShutdown && err == closeError
      ensures open == (old(open) && closeError.Some?)
    {
      doShutdown := true;
      err := closeError;
      if err.Some? {
        return;
      }
      open := false;
    }

    /** A failed type assertion would panic, so callers must pass the record's own type. */
    method ExecInsert(record: Record, cmdType: CommandType, now: Time, execOk: bool)
      returns (failed: bool, done: Option<Insert>)
      requires cmdType == COMMAND ==> record.AuditRecord?
      requires cmdType == KUBERNETES ==> record.KubeStatusRecord?
      modifies this`nebirosLogs, this`k8sStatus
      ensures cmdType !in [0, 1] ==>
                failed && done.None? && nebirosLogs == old(nebirosLogs) && k8sStatus == old(k8sStatus)
      ensures cmdType == COMMAND || cmdType == KUBERNETES ==>
                && done == Some(Insert(TableFor(record), record.SetTimestamp(now), execOk)) && failed == !execOk
                && nebirosLogs == old(nebirosLogs) + Kept([done.value], NebirosLogs)
                && k8sStatus == old(k8sStatus) + Kept([done.value], K8sStatus)
      // an audit record goes into nebiroslogs, a status record into k8sstatus, stamped with the clock
      ensures cmdType == COMMAND && execOk ==>
                && k8sStatus == old(k8sStatus) && |nebirosLogs| == |old(nebirosLogs)| + 1
                && nebirosLogs == old(nebirosLogs) + [nebirosLogs[|old(nebirosLogs)|]]
                && IsStamped(nebirosLogs[|old(nebirosLogs)|], record, now)
      ensures cmdType == KUBERNETES && execOk ==>
                && nebirosLogs == old(nebirosLogs) && |k8sStatus| == |old(k8sStatus)| + 1
                && k8sStatus == old(k8sStatus) + [k8sStatus[|old(k8sStatus)|]]
                && IsStamped(k8sStatus[|old(k8sStatus)|], record, now)
      ensures !execOk ==> nebirosLogs == old(nebirosLogs) && k8sStatus == old(k8sStatus)
    {
      var query: Table;
      if cmdType == COMMAND {
        assert record.AuditRecord?;
        query := NebirosLogs;
      } else if cmdType == KUBERNETES {
        assert record.KubeStatusRecord?;
        query := K8sStatus;
      } else {
        return true, None;
      }
      var stamped := record.SetTimestamp(now);
      StampOnly(record, now);
      if execOk {
        if query == NebirosLogs {
          nebirosLogs := nebirosLogs + [stamped];
        } else {
          k8sStatus := k8sStatus + [stamped];
        }
      }
      failed := !execOk;
      done := Some(Insert(query, stamped, execOk));
    }

    /** The receive arm of Watch's select: the oldest record is taken and inserted. */
    method TakeOne(auditChannel: AuditChannel, now: Time, execOk: bool) returns (cr: Record, done: Insert)
      requires auditChannel.buf != []
      modifies this`nebirosLogs, this`k8sStatus, auditChannel
      ensures old(auditChannel.buf) == [cr] + auditChannel.buf
      ensures done == Insert(TableFor(cr), cr.SetTimestamp(now), execOk)
      ensures nebirosLogs == old(nebirosLogs) + Kept([done], NebirosLogs)
      ensures k8sStatus == old(k8sStatus) + Kept([done], K8sStatus)
    {
      cr := auditChannel.buf[0];
      auditChannel.buf := auditChannel.buf[1..];
      var _, inserted := ExecInsert(cr, cr.GetCommandType(), now, execOk);
      done := inserted.value;
    }

    /** One turn of Watch's loop, after the rest of the world has moved. */
    method Visit(auditChannel: AuditChannel, turn: Turn) returns (stop: bool, took: seq<Record>, done: seq<Insert>)
      modifies this, auditChannel
      ensures doShutdown == (old(doShutdown) || turn.shutdown)
      ensures var v := VisitOf(doShutdown, old(auditChannel.buf) + turn.arrivals, turn.now, turn.execOk);
              stop == v.stop && took == v.took && done == v.done && auditChannel.buf == v.buf
      ensures nebirosLogs == old(nebirosLogs) + Kept(done, NebirosLogs)
      ensures k8sStatus == old(k8sStatus) + Kept(done, K8sStatus)
    {
      took, done := [], [];
      auditChannel.buf := auditChannel.buf + turn.arrivals;
      if turn.shutdown {
        var _ := Shutdown(turn.closeError);
      }
      stop := doShutdown;
      if !stop && auditChannel.buf != [] {
        var cr, insert := TakeOne(auditChannel, turn.now, turn.execOk);
        took, done := [cr], [insert];
      }
    }

    /** Everything Watch works on. */
    ghost function State(taken: seq<Record>, inserts: seq<Insert>, auditChannel: AuditChannel): Watched
      reads this, auditChannel
    {
      Watched(doShutdown, taken, inserts, auditChannel.buf, nebirosLogs, k8sStatus)
    }

    /** The loop of Watch over a finite stretch of turns; `n` of them are used. */
    method WatchLoop(auditChannel: AuditChannel, turns: seq<Turn>)
      returns (taken: seq<Record>, inserts: seq<Insert>, n: nat)
      modifies this, auditChannel
      ensures n <= |turns| && (n < |turns| ==> doShutdown)
      ensures State(taken, inserts, auditChannel) == WatchOf(old(State([], [], auditChannel)), turns, n)
      ensures n > 1 ==> !WatchOf(old(State([], [], auditChannel)), turns, n - 1).stop
    {
      n, taken, inserts := 0, [], [];
      ghost var start := State([], [], auditChannel);
      while n < |turns|
        invariant n <= |turns| && (n > 0 ==> !doShutdown)
        invariant State(taken, inserts, auditChannel) == WatchOf(start, turns, n)
        invariant n > 1 ==> !WatchOf(start, turns, n - 1).stop
      {
        WatchNext(start, turns, n, State(taken, inserts, auditChannel));
        var stop, took, done := Visit(auditChannel, turns[n]);
        n := n + 1;
        taken := taken + took;
        inserts := inserts + done;
        if stop {
          break;
        }
      }
    }

    /** Watch, with what its loop keeps: everything that was in the channel or arrived is either
        taken, in order, or still there; the tables hold what was taken and accepted. */
    method Watch(auditChannel: AuditChannel, turns: seq<Turn>)
      returns (taken: seq<Record>, inserts: seq<Insert>, n: nat)
      modifies this, auditChannel
      ensures n <= |turns| && (n < |turns| ==> doShutdown)
      ensures forall i :: 0 <= i < n - 1 ==> !turns[i].shutdown
      ensures doShutdown ==> old(doShutdown) || (n > 0 && turns[n - 1].shutdown)
      ensures State(taken, inserts, auditChannel) == WatchOf(old(State([], [], auditChannel)), turns, n)
      ensures old(auditChannel.buf) + Arrivals(turns, n) == taken + auditChannel.buf
      ensures AllAnswered(inserts, taken)
      ensures forall i :: 0 <= i < |taken| ==> (inserts[i].table == NebirosLogs <==> taken[i].AuditRecord?)
      ensures nebirosLogs == Stored(old(nebirosLogs), inserts, NebirosLogs)
      ensures k8sStatus == Stored(old(k8sStatus), inserts, K8sStatus)
      ensures ClockMonotone(turns) ==> StampsSorted(inserts)
    {
      ghost var start := State([], [], auditChannel);
      taken, inserts, n := WatchLoop(auditChannel, turns);
      WatchStops(start, turns, n);
      if n > 0 {
        WatchStops(start, turns, n - 1);
      }
      WatchKeeps(start, turns, n);
    }
  }
}

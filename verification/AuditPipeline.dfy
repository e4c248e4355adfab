/** The audit pipeline as a transition system: any number of unary and streaming handlers
    (Server/NebirosServer.go), the bounded channel between them and the registrar, and its
    Watch loop (Server/Data/Registrar.go). Each handler step is one blocking point of the
    code: receive, send the audit record, ask the command's name, send the status record. */
module AuditPipeline {
  import opened Records
  import opened Registrar
  import opened Sequences

  /** The capacity of the audit channel made in main. */
  const CAPACITY := 20

  /** What a request does to the pipeline: whether it has a user, its audit record, and what
      follows it. ServerPipeline ties scripts to the handlers' own code. */
  datatype Script = Script(hasUser: bool, audit: Record, ending: Ending)
  datatype Ending =
    | Panics
    | Plain
    | Status(username: NullString, clusterName: NullString, status: NullString)

  datatype Kind = Unary | Stream

  datatype Pc = AtRecv | AtSendAudit | AtName | AtSendStatus | Finished

  /** A handler with the requests it will see; a unary handler sees one. */
  datatype Handler = Handler(kind: Kind, scripts: seq<Script>, next: nat, pc: Pc)

  /** A record on the channel, with the handler and the request it comes from. */
  datatype Message = Message(handler: nat, index: nat, rec: Record)

  datatype WatchPc = AtCheck | AtSelect | Inserting(msg: Message) | Stopped

  /** `sent` and `taken` are histories of the two ends of the channel. */
  datatype State = State(
    handlers: seq<Handler>, queue: seq<Message>, shutdown: bool, watch: WatchPc, clock: Time,
    crashed: bool, sent: seq<Message>, taken: seq<Message>, inserts: seq<Insert>)

  const INIT := State([], [], false, AtCheck, 0, false, [], [], [])

  datatype Action =
    | Accept(kind: Kind, scripts: seq<Script>)
    | Proceed(handler: nat)
    | CheckShutdown
    | Select
    | Exec(ok: bool)
    | Shutdown
    | Tick(now: Time)

  /** Handler h can take a step: it has not returned, and if it is about to send, the
      channel has room. */
  predicate Ready(s: State, h: nat) {
    && h < |s.handlers|
    && !s.handlers[h].pc.Finished?
    && (s.handlers[h].pc.AtSendAudit? || s.handlers[h].pc.AtSendStatus? ==> |s.queue| < CAPACITY)
  }

  predicate Enabled(s: State, a: Action) {
    && !s.crashed
    && match a
       case Accept(kind, scripts) =>
         (kind.Unary? ==> |scripts| == 1) && forall i :: 0 <= i < |scripts| ==> scripts[i].audit.AuditRecord?
       case Proceed(h) => Ready(s, h)
       case CheckShutdown => s.watch.AtCheck?
       case Select => s.watch.AtSelect?
       case Exec(_) => s.watch.Inserting?
       case Shutdown => true
       case Tick(_) => true
  }

  /** In every state that occurs: requests behind the cursor had a user and did not panic,
      and a handler in the middle of a request stands on one. */
  predicate HandlerWf(hd: Handler) {
    && hd.next <= |hd.scripts|
    && (forall i :: 0 <= i < |hd.scripts| ==> hd.scripts[i].audit.AuditRecord?)
    && (hd.kind.Unary? ==> |hd.scripts| == 1 && (hd.pc.AtRecv? ==> hd.next == 0))
    && (forall i :: 0 <= i < hd.next ==> hd.scripts[i].hasUser && !hd.scripts[i].ending.Panics?)
    && (hd.pc.AtSendAudit? || hd.pc.AtName? || hd.pc.AtSendStatus? ==>
          hd.next < |hd.scripts| && hd.scripts[hd.next].hasUser)
    && (hd.pc.AtSendStatus? ==> hd.scripts[hd.next].ending.Status?)
    && (hd.pc.Finished? ==> hd.next == |hd.scripts| || !hd.scripts[hd.next].hasUser)
  }

  predicate AllWf(s: State) {
    forall h :: 0 <= h < |s.handlers| ==> HandlerWf(s.handlers[h])
  }

  /** The second record. The unary handler sets CmdType, the streaming one leaves it zero. */
  function StatusRecord(e: Ending, kind: Kind, now: Time): Record
    requires e.Status?
  {
    KubeStatusRecord(e.username, e.clusterName, e.status, now, if kind.Unary? then KUBERNETES else COMMAND)
  }

  /** The record a handler sends in its next step, if it sends one. */
  function Sends(hd: Handler, now: Time): seq<Record>
    requires HandlerWf(hd)
  {
    match hd.pc
    case AtSendAudit => [hd.scripts[hd.next].audit]
    case AtSendStatus => [StatusRecord(hd.scripts[hd.next].ending, hd.kind, now)]
    case _ => []
  }

  function NewMessages(hd: Handler, now: Time, h: nat): seq<Message>
    requires HandlerWf(hd)
  {
    var rs := Sends(hd, now);
    if rs == [] then [] else [Message(h, hd.next, rs[0])]
  }

  /** A unary handler returns after its request; a streaming one goes back to Recv. */
  function NextRequest(hd: Handler): Handler {
    hd.(next := hd.next + 1, pc := if hd.kind.Unary? then Finished else AtRecv)
  }

  predicate Dies(hd: Handler)
    requires HandlerWf(hd)
  {
    hd.pc.AtName? && hd.scripts[hd.next].ending.Panics?
  }

  function Advance(hd: Handler): Handler
    requires HandlerWf(hd)
  {
    match hd.pc
    case AtRecv =>
      // the end of the stream, or a request without a user, ends the handler
      hd.(pc := if hd.next == |hd.scripts| || !hd.scripts[hd.next].hasUser then Finished else AtSendAudit)
    case AtSendAudit => hd.(pc := AtName)
    case AtName =>
      match hd.scripts[hd.next].ending {
        case Panics => hd
        case Plain => NextRequest(hd)
        case Status(_, _, _) => hd.(pc := AtSendStatus)
      }
    case AtSendStatus => NextRequest(hd)
    case Finished => hd
  }

  function Apply(s: State, a: Action): State
    requires AllWf(s) && Enabled(s, a)
  {
    match a
    case Accept(kind, scripts) => s.(handlers := s.handlers + [Handler(kind, scripts, 0, AtRecv)])
    case Proceed(h) =>
      var hd := s.handlers[h];
      var ms := NewMessages(hd, s.clock, h);
      // asking the name of a command that did not resolve is a nil call: the process dies
      s.(handlers := s.handlers[h := Advance(hd)], queue := s.queue + ms, sent := s.sent + ms, crashed := Dies(hd))
    case CheckShutdown => s.(watch := if s.shutdown then Stopped else AtSelect)
    case Select =>
      if s.queue == [] then s.(watch := AtCheck)
      else s.(queue := s.queue[1..], taken := s.taken + [s.queue[0]], watch := Inserting(s.queue[0]))
    case Exec(ok) =>
      var r := s.watch.msg.rec;
      s.(inserts := s.inserts + [Insert(TableFor(r), r.SetTimestamp(s.clock), ok)], watch := AtCheck)
    case Shutdown => s.(shutdown := true)
    case Tick(now) => s.(clock := now)
  }

  lemma StepKeepsWf(s: State, a: Action)
    requires AllWf(s) && Enabled(s, a)
    ensures AllWf(Apply(s, a))
  {
    if a.Proceed? {
      assert HandlerWf(Advance(s.handlers[a.handler]));
    } else if a.Accept? {
      assert HandlerWf(Handler(a.kind, a.scripts, 0, AtRecv));
    }
  }

  ghost predicate Step(s: State, s': State) {
    AllWf(s) && exists a :: Enabled(s, a) && s' == Apply(s, a)
  }

  ghost predicate IsPath(path: seq<State>) {
    && 0 < |path|
    && forall i :: 0 <= i < |path| - 1 ==> Step(path[i], path[i + 1])
  }

  /** A run: any number of handlers, interleaved in any way with the registrar. */
  ghost predicate IsRun(run: seq<State>) {
    IsPath(run) && run[0] == INIT
  }

  /** The action behind the i-th step of a path. */
  lemma ActionAt(path: seq<State>, i: nat) returns (a: Action)
    requires IsPath(path) && i + 1 < |path|
    ensures AllWf(path[i]) && Enabled(path[i], a) && path[i + 1] == Apply(path[i], a)
  {
    assert Step(path[i], path[i + 1]);
    a :| Enabled(path[i], a) && path[i + 1] == Apply(path[i], a);
  }

  /** One more step at the end of a path. */
  lemma Extended(path: seq<State>, a: Action) returns (path': seq<State>)
    requires IsPath(path) && AllWf(path[|path| - 1]) && Enabled(path[|path| - 1], a)
    ensures IsPath(path') && path' == path + [Apply(path[|path| - 1], a)]
    ensures AllWf(path'[|path'| - 1])
  {
    var last := path[|path| - 1];
    path' := path + [Apply(last, a)];
    StepKeepsWf(last, a);
    assert Step(last, Apply(last, a));
    forall i | 0 <= i < |path'| - 1
      ensures Step(path'[i], path'[i + 1])
    {
      if i < |path| - 1 {
        assert path'[i] == path[i] && path'[i + 1] == path[i + 1];
      }
    }
  }

  /** Some way of going on from s ends in t. */
  ghost predicate Reaches(s: State, t: State) {
    exists path :: IsPath(path) && path[0] == s && path[|path| - 1] == t
  }

  /** Asking for well-formed handlers in Step excludes nothing: every state of a run has them. */
  lemma RunWf(run: seq<State>, i: nat)
    requires IsRun(run) && i < |run|
    ensures AllWf(run[i])
  {
    if i > 0 {
      var a := ActionAt(run, i - 1);
      StepKeepsWf(run[i - 1], a);
    }
  }

  // ---------- Conservation and order ----------

  lemma StepConserves(s: State, s': State)
    requires Step(s, s') && s.sent == s.taken + s.queue && |s.queue| <= CAPACITY
    ensures s'.sent == s'.taken + s'.queue && |s'.queue| <= CAPACITY
  {
  }

  /** Nothing is lost, duplicated or reordered between the two ends, in any interleaving. */
  lemma {:induction false} Conservation(run: seq<State>, i: nat)
    requires IsRun(run) && i < |run|
    ensures run[i].sent == run[i].taken + run[i].queue
    ensures |run[i].queue| <= CAPACITY == 20
  {
    if i > 0 {
      Conservation(run, i - 1);
      assert Step(run[i - 1], run[i - 1 + 1]);
      StepConserves(run[i - 1], run[i]);
    }
  }

  // ---------- Shutdown ----------

  /** Records Watch may still take once shutdown is set: one, if it is past its check. */
  function Grace(s: State): nat {
    if s.watch.AtSelect? && !s.crashed then 1 else 0
  }

  lemma StepAfterShutdown(s: State, s': State)
    requires Step(s, s') && s.shutdown
    ensures s'.shutdown
    ensures s.taken <= s'.taken
    ensures |s'.taken| + Grace(s') <= |s.taken| + Grace(s)
  {
  }

  lemma {:induction false} AfterShutdown(path: seq<State>, i: nat, j: nat)
    requires IsPath(path) && i <= j < |path| && path[i].shutdown
    ensures path[j].shutdown
    ensures path[i].taken <= path[j].taken
    ensures |path[j].taken| + Grace(path[j]) <= |path[i].taken| + Grace(path[i])
    decreases j
  {
    if i < j {
      AfterShutdown(path, i, j - 1);
      assert Step(path[j - 1], path[j - 1 + 1]);
      StepAfterShutdown(path[j - 1], path[j]);
      PrefixTransitive(path[i].taken, path[j - 1].taken, path[j].taken);
    }
  }

  lemma StoppedStep(s: State, s': State)
    requires Step(s, s') && s.watch.Stopped?
    ensures s'.watch.Stopped? && s'.taken == s.taken
  {
  }

  lemma {:induction false} StoppedStays(path: seq<State>, i: nat, j: nat)
    requires IsPath(path) && i <= j < |path| && path[i].watch.Stopped?
    ensures path[j].watch.Stopped? && path[j].taken == path[i].taken
    decreases j
  {
    if i < j {
      StoppedStays(path, i, j - 1);
      assert Step(path[j - 1], path[j - 1 + 1]);
      StoppedStep(path[j - 1], path[j]);
    }
  }

  /** From a shutdown on, at most one more record is taken; from the moment Watch stops none
      is, and at most CAPACITY sent records are left behind. */
  lemma ShutdownLosesAtMostTheQueue(run: seq<State>, i: nat, j: nat)
    requires IsRun(run) && i <= j < |run| && run[i].shutdown
    ensures run[i].taken <= run[j].taken <= run[j].sent
    ensures |run[j].taken| <= |run[i].taken| + 1
    ensures run[i].watch.Stopped? ==> run[j].taken == run[i].taken && |run[j].sent| <= |run[i].taken| + 20
  {
    AfterShutdown(run, i, j);
    Conservation(run, j);
    if run[i].watch.Stopped? {
      StoppedStays(run, i, j);
    }
  }

  lemma StoppedStepNeedsShutdown(s: State, s': State)
    requires Step(s, s') && (s.watch.Stopped? ==> s.shutdown)
    ensures s'.watch.Stopped? ==> s'.shutdown
  {
  }

  lemma {:induction false} StoppedIsShutdown(run: seq<State>, i: nat)
    requires IsRun(run) && i < |run|
    ensures run[i].watch.Stopped? ==> run[i].shutdown
  {
    if i > 0 {
      StoppedIsShutdown(run, i - 1);
      assert Step(run[i - 1], run[i - 1 + 1]);
      StoppedStepNeedsShutdown(run[i - 1], run[i]);
    }
  }

  /** Watch goes round to its next receive. */
  lemma TakesOne(path: seq<State>) returns (path': seq<State>)
    requires IsPath(path)
    requires var s := path[|path| - 1];
             && AllWf(s) && !s.crashed && s.queue != []
             && (s.watch.AtSelect? || (!s.shutdown && !s.watch.Stopped?))
    ensures IsPath(path') && path'[0] == path[0]
    ensures var s, t := path[|path| - 1], path'[|path'| - 1];
            && AllWf(t) && !t.crashed && !t.watch.Stopped? && !t.watch.AtSelect?
            && t.shutdown == s.shutdown && t.handlers == s.handlers
            && t.queue == s.queue[1..] && t.taken == s.taken + [s.queue[0]]
  {
    var s := path[|path| - 1];
    path' := path;
    if s.watch.Inserting? {
      path' := Extended(path', Exec(true));
    }
    if !s.watch.AtSelect? {
      path' := Extended(path', CheckShutdown);
    }
    path' := Extended(path', Select);
  }

  /** Some continuation takes the record at position p of the queue. */
  ghost predicate CanTake(s: State, p: nat)
    requires p < |s.queue|
  {
    exists t :: Reaches(s, t) && |s.taken| + p < |t.taken| && t.taken[|s.taken| + p] == s.queue[p]
  }

  lemma HeadThenMore(taken: seq<Message>, queue: seq<Message>, p: nat)
    requires 0 < p < |queue|
    ensures taken + [queue[0]] + queue[1..][..p] == taken + queue[..p + 1]
  {
  }

  lemma {:induction false} TakesAll(path: seq<State>, p: nat) returns (path': seq<State>)
    requires IsPath(path)
    requires var s := path[|path| - 1];
             && AllWf(s) && !s.crashed && p < |s.queue|
             && (p < Grace(s) || (!s.shutdown && !s.watch.Stopped?))
    ensures IsPath(path') && path'[0] == path[0]
    ensures path'[|path'| - 1].taken == path[|path| - 1].taken + path[|path| - 1].queue[..p + 1]
    decreases p
  {
    var s := path[|path| - 1];
    path' := TakesOne(path);
    if p > 0 {
      path' := TakesAll(path', p - 1);
      HeadThenMore(s.taken, s.queue, p);
    }
  }

  lemma CrashedStays(path: seq<State>)
    requires IsPath(path) && path[0].crashed
    ensures |path| == 1
  {
    if |path| > 1 {
      var _ := ActionAt(path, 0);
    }
  }

  lemma TakeableInState(s: State, p: nat)
    requires AllWf(s) && (s.watch.Stopped? ==> s.shutdown) && p < |s.queue|
    ensures CanTake(s, p) <==> !s.crashed && (!s.shutdown || p < Grace(s))
  {
    if !s.crashed && (!s.shutdown || p < Grace(s)) {
      var path := TakesAll([s], p);
      var t := path[|path| - 1];
      assert Reaches(s, t);
      assert t.taken[|s.taken| + p] == s.queue[p];
    }
    if CanTake(s, p) {
      var t :| Reaches(s, t) && |s.taken| + p < |t.taken| && t.taken[|s.taken| + p] == s.queue[p];
      var path :| IsPath(path) && path[0] == s && path[|path| - 1] == t;
      if s.crashed {
        CrashedStays(path);
      }
      if s.shutdown {
        AfterShutdown(path, 0, |path| - 1);
      }
    }
  }

  /** Which records can still be taken, exactly: in every state of every run, some continuation
      takes the record at position p of the queue if and only if the process is alive and there
      is no shutdown, or the record is the first one and Watch is already past its check. */
  lemma TakeableIff(run: seq<State>, i: nat, p: nat)
    requires IsRun(run) && i < |run| && p < |run[i].queue|
    ensures CanTake(run[i], p) <==> !run[i].crashed && (!run[i].shutdown || p < Grace(run[i]))
  {
    RunWf(run, i);
    StoppedIsShutdown(run, i);
    TakeableInState(run[i], p);
  }

  /** Once Watch has stopped, nothing sent so far is lost if and only if the queue is empty. */
  lemma StoppedLosesIffQueued(run: seq<State>, i: nat, j: nat)
    requires IsRun(run) && i <= j < |run| && run[i].watch.Stopped?
    ensures run[i].sent <= run[j].taken <==> run[i].queue == []
  {
    Conservation(run, i);
    StoppedStays(run, i, j);
  }

  /** n requests of one handler each have sent their audit record; nothing has been taken. */
  lemma {:induction false} Filled(audit: Record, n: nat) returns (run: seq<State>)
    requires audit.AuditRecord? && n <= CAPACITY
    ensures IsRun(run)
    ensures var s := run[|run| - 1];
            && AllWf(s) && !s.crashed && !s.shutdown && s.watch.AtCheck? && s.taken == []
            && |s.queue| == |s.handlers| == n
  {
    if n == 0 {
      run := [INIT];
    } else {
      run := Filled(audit, n - 1);
      run := Extended(run, Accept(Unary, [Script(true, audit, Plain)]));
      run := Extended(run, Proceed(n - 1));
      run := Extended(run, Proceed(n - 1));
    }
  }

  /** The loss happens, in every size up to the capacity: a run that ends with Watch stopped
      and exactly n sent records untaken. */
  lemma ShutdownStrands(audit: Record, n: nat) returns (run: seq<State>)
    requires audit.AuditRecord? && n <= 20
    ensures IsRun(run) && run[|run| - 1].watch.Stopped?
    ensures |run[|run| - 1].queue| == n && run[|run| - 1].sent == run[|run| - 1].taken + run[|run| - 1].queue
  {
    run := Filled(audit, n);
    run := Extended(run, Shutdown);
    run := Extended(run, CheckShutdown);
    Conservation(run, |run| - 1);
  }

  // ---------- A full channel ----------

  /** A handler that has not returned waits for nothing but room in the channel. */
  lemma OnlyAFullChannelBlocks(run: seq<State>, i: nat, h: nat)
    requires IsRun(run) && i < |run| && h < |run[i].handlers|
    requires !run[i].crashed && !run[i].handlers[h].pc.Finished? && !Enabled(run[i], Proceed(h))
    ensures |run[i].queue| == CAPACITY == 20
    ensures run[i].handlers[h].pc.AtSendAudit? || run[i].handlers[h].pc.AtSendStatus?
  {
    Conservation(run, i);
  }

  /** Handler h waits for room that Watch will not make. */
  predicate Stuck(s: State, h: nat) {
    && s.shutdown && !s.watch.AtSelect? && |s.queue| >= CAPACITY
    && h < |s.handlers| && (s.handlers[h].pc.AtSendAudit? || s.handlers[h].pc.AtSendStatus?)
  }

  lemma StuckStep(s: State, s': State, h: nat)
    requires Step(s, s') && Stuck(s, h)
    ensures Stuck(s', h)
  {
  }

  lemma {:induction false} StuckForever(path: seq<State>, n: nat, h: nat)
    requires IsPath(path) && n < |path| && Stuck(path[0], h)
    ensures Stuck(path[n], h)
  {
    if n > 0 {
      StuckForever(path, n - 1, h);
      assert Step(path[n - 1], path[n - 1 + 1]);
      StuckStep(path[n - 1], path[n], h);
    }
  }

  /** A blocked handler can still go on, in some continuation, if and only if there is no
      shutdown or Watch is already past its check; otherwise it waits for ever. */
  lemma BlockedCanProceedIff(run: seq<State>, i: nat, h: nat)
    requires IsRun(run) && i < |run| && h < |run[i].handlers|
    requires !run[i].crashed && !run[i].handlers[h].pc.Finished? && !Enabled(run[i], Proceed(h))
    ensures (exists t :: Reaches(run[i], t) && Enabled(t, Proceed(h))) <==> !run[i].shutdown || run[i].watch.AtSelect?
  {
    var s := run[i];
    OnlyAFullChannelBlocks(run, i, h);
    RunWf(run, i);
    if !s.shutdown || s.watch.AtSelect? {
      StoppedIsShutdown(run, i);
      var path := TakesOne([s]);
      var t := path[|path| - 1];
      assert Reaches(s, t);
      assert Enabled(t, Proceed(h));
    } else if t :| Reaches(s, t) && Enabled(t, Proceed(h)) {
      var path :| IsPath(path) && path[0] == s && path[|path| - 1] == t;
      StuckForever(path, |path| - 1, h);
    }
  }

  // ---------- What each request contributes ----------

  /** The records of a served request, up to Tstp and CmdType. */
  function Emits(sc: Script): seq<Record> {
    [sc.audit.Erase()] +
    match sc.ending
    case Status(u, c, st) => [KubeStatusRecord(u, c, st, 0, COMMAND)]
    case _ => []
  }

  function EmitsAll(scripts: seq<Script>, n: nat): seq<Record>
    requires n <= |scripts|
  {
    Concat(seq(n, i requires 0 <= i < n => Emits(scripts[i])))
  }

  lemma EmitsAllNext(scripts: seq<Script>, n: nat)
    requires n < |scripts|
    ensures EmitsAll(scripts, n + 1) == EmitsAll(scripts, n) + Emits(scripts[n])
  {
    var pieces := seq(n, i requires 0 <= i < n => Emits(scripts[i]));
    ConcatAppend(pieces, Emits(scripts[n]));
    assert seq(n + 1, i requires 0 <= i < n + 1 => Emits(scripts[i])) == pieces + [Emits(scripts[n])];
  }

  /** The records one handler has sent, up to Tstp and CmdType, in order. */
  function OfHandler(ms: seq<Message>, h: nat): seq<Record> {
    if ms == [] then []
    else
      var last := ms[|ms| - 1];
      OfHandler(ms[..|ms| - 1], h) + if last.handler == h then [last.rec.Erase()] else []
  }

  /** The records sent for one request of one handler. */
  function OfRequest(ms: seq<Message>, h: nat, k: nat): seq<Record> {
    if ms == [] then []
    else
      var last := ms[|ms| - 1];
      OfRequest(ms[..|ms| - 1], h, k) + if last.handler == h && last.index == k then [last.rec.Erase()] else []
  }

  lemma OfAppend(ms: seq<Message>, m: Message, h: nat, k: nat)
    ensures OfHandler(ms + [m], h) == OfHandler(ms, h) + if m.handler == h then [m.rec.Erase()] else []
    ensures OfRequest(ms + [m], h, k)
         == OfRequest(ms, h, k) + if m.handler == h && m.index == k then [m.rec.Erase()] else []
  {
    assert (ms + [m])[..|ms|] == ms;
  }

  /** What the request under the cursor has sent so far. */
  function Partial(hd: Handler): seq<Record> {
    if (hd.pc.AtName? || hd.pc.AtSendStatus?) && hd.next < |hd.scripts|
    then [hd.scripts[hd.next].audit.Erase()] else []
  }

  /** What a handler has sent so far. */
  function SoFar(hd: Handler): seq<Record>
    requires HandlerWf(hd)
  {
    EmitsAll(hd.scripts, hd.next) + Partial(hd)
  }

  /** What request k of a handler has sent so far. */
  function SoFarFor(hd: Handler, k: nat): seq<Record> {
    if k < hd.next && k < |hd.scripts| then Emits(hd.scripts[k])
    else if k == hd.next then Partial(hd)
    else []
  }

  function EraseOne(rs: seq<Record>): seq<Record>
    requires |rs| <= 1
  {
    if rs == [] then [] else [rs[0].Erase()]
  }

  lemma AdvanceAccountsByRequest(hd: Handler, now: Time, k: nat)
    requires HandlerWf(hd)
    ensures SoFarFor(Advance(hd), k) == SoFarFor(hd, k) + if k == hd.next then EraseOne(Sends(hd, now)) else []
  {
  }

  lemma AdvanceAccountsInOrder(hd: Handler, now: Time)
    requires HandlerWf(hd)
    ensures HandlerWf(Advance(hd))
    ensures SoFar(Advance(hd)) == SoFar(hd) + EraseOne(Sends(hd, now))
  {
    if hd.pc.AtName? || hd.pc.AtSendStatus? {
      EmitsAllNext(hd.scripts, hd.next);
    }
    if hd.pc.AtSendStatus? {
      AppendAssoc(EmitsAll(hd.scripts, hd.next), Partial(hd), EraseOne(Sends(hd, now)));
    }
  }

  /** One step of a handler adds to its account exactly what it sends. */
  lemma AdvanceAccounts(hd: Handler, now: Time, k: nat)
    requires HandlerWf(hd)
    ensures HandlerWf(Advance(hd))
    ensures SoFar(Advance(hd)) == SoFar(hd) + EraseOne(Sends(hd, now))
    ensures SoFarFor(Advance(hd), k) == SoFarFor(hd, k) + if k == hd.next then EraseOne(Sends(hd, now)) else []
  {
    AdvanceAccountsInOrder(hd, now);
    AdvanceAccountsByRequest(hd, now, k);
  }

  /** A handler that has not been accepted yet has sent nothing. */
  function HandlerAt(s: State, h: nat): Handler {
    if h < |s.handlers| then s.handlers[h] else Handler(Stream, [], 0, AtRecv)
  }

  predicate Balanced(ms: seq<Message>, hd: Handler, h: nat, k: nat)
    requires HandlerWf(hd)
  {
    OfHandler(ms, h) == SoFar(hd) && OfRequest(ms, h, k) == SoFarFor(hd, k)
  }

  predicate Accounted(s: State, h: nat, k: nat)
    requires AllWf(s)
  {
    Balanced(s.sent, HandlerAt(s, h), h, k)
  }

  /** A handler's own step keeps its account. */
  lemma OwnStepBalanced(ms: seq<Message>, hd: Handler, now: Time, h: nat, k: nat)
    requires HandlerWf(hd) && Balanced(ms, hd, h, k)
    ensures HandlerWf(Advance(hd)) && Balanced(ms + NewMessages(hd, now, h), Advance(hd), h, k)
  {
    AdvanceAccounts(hd, now, k);
    if Sends(hd, now) != [] {
      OfAppend(ms, NewMessages(hd, now, h)[0], h, k);
    } else {
      assert ms + NewMessages(hd, now, h) == ms;
    }
  }

  /** Another handler's step leaves it alone. */
  lemma OtherStepBalanced(ms: seq<Message>, hd: Handler, other: Handler, now: Time, g: nat, h: nat, k: nat)
    requires HandlerWf(hd) && HandlerWf(other) && g != h && Balanced(ms, hd, h, k)
    ensures Balanced(ms + NewMessages(other, now, g), hd, h, k)
  {
    if Sends(other, now) != [] {
      OfAppend(ms, NewMessages(other, now, g)[0], h, k);
    } else {
      assert ms + NewMessages(other, now, g) == ms;
    }
  }

  lemma ProceedAccounted(s: State, g: nat, h: nat, k: nat)
    requires AllWf(s) && Enabled(s, Proceed(g)) && AllWf(Apply(s, Proceed(g))) && Accounted(s, h, k)
    ensures Accounted(Apply(s, Proceed(g)), h, k)
  {
    if g == h {
      OwnStepBalanced(s.sent, s.handlers[g], s.clock, h, k);
    } else {
      OtherStepBalanced(s.sent, HandlerAt(s, h), s.handlers[g], s.clock, g, h, k);
      assert HandlerAt(Apply(s, Proceed(g)), h) == HandlerAt(s, h);
    }
  }

  lemma StepAccounted(s: State, a: Action, h: nat, k: nat)
    requires AllWf(s) && Enabled(s, a) && AllWf(Apply(s, a)) && Accounted(s, h, k)
    ensures Accounted(Apply(s, a), h, k)
  {
    if a.Proceed? {
      ProceedAccounted(s, a.handler, h, k);
    } else if a.Accept? && h == |s.handlers| {
      assert SoFar(HandlerAt(Apply(s, a), h)) == [] && SoFarFor(HandlerAt(Apply(s, a), h), k) == [];
    } else {
      assert HandlerAt(Apply(s, a), h) == HandlerAt(s, h);
    }
  }

  lemma NextAccounted(s: State, s': State, h: nat, k: nat)
    requires Step(s, s') && AllWf(s') && Accounted(s, h, k)
    ensures Accounted(s', h, k)
  {
    var a :| Enabled(s, a) && s' == Apply(s, a);
    StepAccounted(s, a, h, k);
  }

  lemma {:induction false} RunAccounted(run: seq<State>, i: nat, h: nat, k: nat)
    requires IsRun(run) && i < |run|
    ensures AllWf(run[i]) && Accounted(run[i], h, k)
  {
    RunWf(run, i);
    if i > 0 {
      RunAccounted(run, i - 1, h, k);
      assert Step(run[i - 1], run[i - 1 + 1]);
      NextAccounted(run[i - 1], run[i], h, k);
    }
  }

  /** A finished request has contributed exactly its records: one audit record, and one status
      record if and only if its script has one. Whatever else is interleaved changes nothing,
      and a request that has not been reached has contributed nothing. */
  lemma FinishedRequest(run: seq<State>, i: nat, h: nat, k: nat)
    requires IsRun(run) && i < |run| && h < |run[i].handlers| && k < |run[i].handlers[h].scripts|
    ensures k < run[i].handlers[h].next ==> OfRequest(run[i].sent, h, k) == Emits(run[i].handlers[h].scripts[k])
    ensures k == run[i].handlers[h].next ==> OfRequest(run[i].sent, h, k) <= Emits(run[i].handlers[h].scripts[k])
    ensures k > run[i].handlers[h].next ==> OfRequest(run[i].sent, h, k) == []
  {
    RunAccounted(run, i, h, k);
  }

  /** The first request without a user, or the end. */
  function Cut(scripts: seq<Script>): (n: nat)
    ensures n <= |scripts|
    ensures n < |scripts| ==> !scripts[n].hasUser
    ensures forall i :: 0 <= i < n ==> scripts[i].hasUser
  {
    if scripts == [] || !scripts[0].hasUser then 0 else 1 + Cut(scripts[1..])
  }

  /** Streaming agrees with unary over whole runs: whatever is interleaved, a handler that has
      returned has sent the records of its requests one after the other, cut at the first
      request without a user. Both kinds of handler send the same for the same requests. */
  lemma FinishedHandler(run: seq<State>, i: nat, h: nat)
    requires IsRun(run) && i < |run| && h < |run[i].handlers| && run[i].handlers[h].pc.Finished?
    ensures OfHandler(run[i].sent, h) == EmitsAll(run[i].handlers[h].scripts, Cut(run[i].handlers[h].scripts))
    ensures forall j :: 0 <= j < Cut(run[i].handlers[h].scripts) ==> !run[i].handlers[h].scripts[j].ending.Panics?
  {
    RunAccounted(run, i, h, 0);
    var hd := run[i].handlers[h];
    assert HandlerWf(hd);
    assert hd.next == Cut(hd.scripts);
  }

  /** calls[k] is a handler that has served just scripts[k] and returned. */
  predicate CallsFinished(s: State, scripts: seq<Script>, calls: seq<nat>) {
    && |calls| == |scripts|
    && forall k :: 0 <= k < |calls| ==>
         && calls[k] < |s.handlers|
         && s.handlers[calls[k]].pc.Finished?
         && s.handlers[calls[k]].scripts == [scripts[k]]
  }

  /** The records of a series of calls, concatenated. */
  function CallRecords(ms: seq<Message>, calls: seq<nat>, n: nat): seq<Record>
    requires n <= |calls|
  {
    if n == 0 then [] else CallRecords(ms, calls, n - 1) + OfHandler(ms, calls[n - 1])
  }

  lemma {:induction false} CallsAccounted(run: seq<State>, i: nat, scripts: seq<Script>, calls: seq<nat>, n: nat)
    requires IsRun(run) && i < |run| && n <= |calls| == |scripts|
    requires forall k :: 0 <= k < |scripts| ==> scripts[k].hasUser
    requires CallsFinished(run[i], scripts, calls)
    ensures EmitsAll(scripts, n) == CallRecords(run[i].sent, calls, n)
  {
    if n > 0 {
      CallsAccounted(run, i, scripts, calls, n - 1);
      var one := [scripts[n - 1]];
      FinishedHandler(run, i, calls[n - 1]);
      EmitsAllNext(one, 0);
      EmitsAllNext(scripts, n - 1);
    }
  }

  /** The same requests, once through one streaming handler and once through one call each,
      leave the same records in the same order, whatever else runs beside them. */
  lemma StreamEqualsUnaryCalls(run: seq<State>, i: nat, g: nat, calls: seq<nat>)
    requires IsRun(run) && i < |run| && g < |run[i].handlers| && run[i].handlers[g].pc.Finished?
    requires forall k :: 0 <= k < |run[i].handlers[g].scripts| ==> run[i].handlers[g].scripts[k].hasUser
    requires CallsFinished(run[i], run[i].handlers[g].scripts, calls)
    ensures OfHandler(run[i].sent, g) == CallRecords(run[i].sent, calls, |calls|)
  {
    FinishedHandler(run, i, g);
    CallsAccounted(run, i, run[i].handlers[g].scripts, calls, |calls|);
  }

  // ---------- Handlers do finish ----------

  /** Nothing stands in the way: alive, no shutdown, nothing queued. */
  predicate Clear(s: State) {
    AllWf(s) && !s.crashed && !s.shutdown && !s.watch.Stopped? && s.queue == []
  }

  /** Handler h is about to receive its next request, which has a user and will not panic. */
  predicate Expects(s: State, h: nat) {
    && h < |s.handlers| && s.handlers[h].pc.AtRecv? && s.handlers[h].next < |s.handlers[h].scripts|
    && s.handlers[h].scripts[s.handlers[h].next].hasUser
    && !s.handlers[h].scripts[s.handlers[h].next].ending.Panics?
  }

  /** A record is sent and taken. */
  lemma SendsOne(path: seq<State>, h: nat) returns (path': seq<State>)
    requires IsPath(path) && Clear(path[|path| - 1])
    requires var s := path[|path| - 1];
             h < |s.handlers| && (s.handlers[h].pc.AtSendAudit? || s.handlers[h].pc.AtSendStatus?)
    ensures IsPath(path') && path'[0] == path[0] && Clear(path'[|path'| - 1])
    ensures var s, t := path[|path| - 1], path'[|path'| - 1];
            && |t.handlers| == |s.handlers| && t.handlers[h] == Advance(s.handlers[h])
  {
    path' := Extended(path, Proceed(h));
    path' := TakesOne(path');
  }

  /** A request is served, and all its records are taken. */
  lemma ServesOne(path: seq<State>, h: nat) returns (path': seq<State>)
    requires IsPath(path) && Clear(path[|path| - 1]) && Expects(path[|path| - 1], h)
    ensures IsPath(path') && path'[0] == path[0] && Clear(path'[|path'| - 1])
    ensures var s, t := path[|path| - 1], path'[|path'| - 1];
            |t.handlers| == |s.handlers| && t.handlers[h] == NextRequest(s.handlers[h])
  {
    var hd := path[|path| - 1].handlers[h];
    path' := Extended(path, Proceed(h));
    path' := SendsOne(path', h);
    path' := Extended(path', Proceed(h));
    if hd.scripts[hd.next].ending.Status? {
      path' := SendsOne(path', h);
    }
  }

  lemma {:induction false} ServesRest(path: seq<State>, h: nat) returns (path': seq<State>)
    requires IsPath(path) && Clear(path[|path| - 1])
    requires var s := path[|path| - 1];
             && h < |s.handlers| && (s.handlers[h].pc.AtRecv? || s.handlers[h].pc.Finished?)
             && forall i :: 0 <= i < |s.handlers[h].scripts| ==>
                  s.handlers[h].scripts[i].hasUser && !s.handlers[h].scripts[i].ending.Panics?
    ensures IsPath(path') && path'[0] == path[0] && Clear(path'[|path'| - 1])
    ensures var s, t := path[|path| - 1], path'[|path'| - 1];
            && |t.handlers| == |s.handlers| && t.handlers[h].pc.Finished?
            && t.handlers[h].kind == s.handlers[h].kind && t.handlers[h].scripts == s.handlers[h].scripts
    decreases |path[|path| - 1].handlers[h].scripts| - path[|path| - 1].handlers[h].next
  {
    var hd := path[|path| - 1].handlers[h];
    assert HandlerWf(hd);
    path' := path;
    if hd.pc.AtRecv? {
      if hd.next < |hd.scripts| {
        path' := ServesOne(path, h);
        path' := ServesRest(path', h);
      } else {
        path' := Extended(path, Proceed(h));
      }
    }
  }

  lemma {:induction false} CutAll(scripts: seq<Script>)
    requires forall i :: 0 <= i < |scripts| ==> scripts[i].hasUser
    ensures Cut(scripts) == |scripts|
  {
    if scripts != [] {
      CutAll(scripts[1..]);
    }
  }

  /** For any requests with users that do not panic, in one stream or in a call, there is a run in
      which they are all served and all their records taken, one request after the other. */
  lemma AllServed(kind: Kind, scripts: seq<Script>) returns (run: seq<State>)
    requires kind.Unary? ==> |scripts| == 1
    requires forall i :: 0 <= i < |scripts| ==>
               scripts[i].audit.AuditRecord? && scripts[i].hasUser && !scripts[i].ending.Panics?
    ensures IsRun(run)
    ensures var s := run[|run| - 1];
            && |s.handlers| == 1 && s.handlers[0].kind == kind && s.handlers[0].scripts == scripts
            && s.handlers[0].pc.Finished? && s.taken == s.sent
            && OfHandler(s.taken, 0) == EmitsAll(scripts, |scripts|)
  {
    run := Extended([INIT], Accept(kind, scripts));
    run := ServesRest(run, 0);
    Conservation(run, |run| - 1);
    FinishedHandler(run, |run| - 1, 0);
    CutAll(scripts);
  }

  // ---------- The crash ----------

  /** The step that kills the process: asking the name of a command that did not resolve. */
  lemma CrashStep(s: State, s': State) returns (h: nat)
    requires Step(s, s') && s'.crashed
    ensures s.handlers == s'.handlers && s.sent == s'.sent && h < |s'.handlers|
    ensures HandlerWf(s'.handlers[h]) && Dies(s'.handlers[h])
  {
    var a :| Enabled(s, a) && s' == Apply(s, a);
    h := a.handler;
  }

  /** In a crashed state some handler stands on a request that panics, which has sent exactly
      its audit record. It is the end of the run, and what is queued is lost: everything sent
      has been taken if and only if the queue is empty. */
  lemma CrashedState(run: seq<State>, i: nat) returns (h: nat)
    requires IsRun(run) && i < |run| && run[i].crashed
    ensures i == |run| - 1
    ensures h < |run[i].handlers| && run[i].handlers[h].pc.AtName?
    ensures var hd := run[i].handlers[h];
            && hd.next < |hd.scripts| && hd.scripts[hd.next].hasUser && hd.scripts[hd.next].ending.Panics?
            && OfRequest(run[i].sent, h, hd.next) == [hd.scripts[hd.next].audit.Erase()]
    ensures run[i].sent <= run[i].taken <==> run[i].queue == []
  {
    Conservation(run, i);
    assert i < |run| - 1 ==> Step(run[i], run[i + 1]);
    assert Step(run[i - 1], run[i - 1 + 1]);
    h := CrashStep(run[i - 1], run[i]);
    RunAccounted(run, i, h, run[i].handlers[h].next);
  }

  /** Every size of loss from 1 to the capacity happens, the panicking request's own audit
      record being part of it. */
  lemma CrashStrands(audit: Record, n: nat) returns (run: seq<State>)
    requires audit.AuditRecord? && 0 < n <= 20
    ensures IsRun(run)
    ensures var s := run[|run| - 1];
            && s.crashed && s.taken == [] && |s.queue| == n && s.queue[n - 1] == Message(n - 1, 0, audit)
            && |s.handlers| == n && s.handlers[n - 1].scripts == [Script(true, audit, Panics)]
  {
    run := Filled(audit, n - 1);
    run := Extended(run, Accept(Unary, [Script(true, audit, Panics)]));
    run := Extended(run, Proceed(n - 1));
    run := Extended(run, Proceed(n - 1));
    run := Extended(run, Proceed(n - 1));
  }

  // ---------- Audit before status ----------

  predicate AuditAt(ms: seq<Message>, q: nat, h: nat, k: nat) {
    q < |ms| && ms[q].handler == h && ms[q].index == k && ms[q].rec.AuditRecord?
  }

  ghost predicate AuditBeforeStatus(ms: seq<Message>) {
    forall p :: 0 <= p < |ms| && ms[p].rec.KubeStatusRecord? ==>
      exists q: nat :: q < p && AuditAt(ms, q, ms[p].handler, ms[p].index)
  }

  lemma {:induction false} AuditFound(ms: seq<Message>, h: nat, k: nat) returns (q: nat)
    requires OfRequest(ms, h, k) != [] && OfRequest(ms, h, k)[0].AuditRecord?
    ensures AuditAt(ms, q, h, k)
  {
    var last := ms[|ms| - 1];
    var rest := ms[..|ms| - 1];
    if OfRequest(rest, h, k) == [] {
      q := |ms| - 1;
    } else {
      q := AuditFound(rest, h, k);
    }
  }

  lemma StepKeepsAuditFirst(s: State, a: Action)
    requires AllWf(s) && Enabled(s, a) && AuditBeforeStatus(s.sent)
    requires a.Proceed? ==> Accounted(s, a.handler, s.handlers[a.handler].next)
    ensures AuditBeforeStatus(Apply(s, a).sent)
  {
    var ms := Apply(s, a).sent;
    forall p | 0 <= p < |ms| && ms[p].rec.KubeStatusRecord?
      ensures exists q: nat :: q < p && AuditAt(ms, q, ms[p].handler, ms[p].index)
    {
      if p < |s.sent| {
        var q: nat :| q < p && AuditAt(s.sent, q, ms[p].handler, ms[p].index);
        assert AuditAt(ms, q, ms[p].handler, ms[p].index);
      } else {
        var q := AuditFound(s.sent, a.handler, s.handlers[a.handler].next);
        assert AuditAt(ms, q, ms[p].handler, ms[p].index);
      }
    }
  }

  lemma {:induction false} AuditSentFirst(run: seq<State>, i: nat)
    requires IsRun(run) && i < |run|
    ensures AuditBeforeStatus(run[i].sent)
  {
    if i > 0 {
      AuditSentFirst(run, i - 1);
      var a := ActionAt(run, i - 1);
      if a.Proceed? {
        RunAccounted(run, i - 1, a.handler, run[i - 1].handlers[a.handler].next);
      }
      StepKeepsAuditFirst(run[i - 1], a);
    }
  }

  /** Watch never takes a status record before the audit record of the same request. */
  lemma AuditTakenFirst(run: seq<State>, i: nat)
    requires IsRun(run) && i < |run|
    ensures AuditBeforeStatus(run[i].taken)
  {
    AuditSentFirst(run, i);
    Conservation(run, i);
    var s := run[i];
    forall p | 0 <= p < |s.taken| && s.taken[p].rec.KubeStatusRecord?
      ensures exists q: nat :: q < p && AuditAt(s.taken, q, s.taken[p].handler, s.taken[p].index)
    {
      assert s.sent[p] == s.taken[p];
      var q: nat :| q < p && AuditAt(s.sent, q, s.sent[p].handler, s.sent[p].index);
      assert AuditAt(s.taken, q, s.taken[p].handler, s.taken[p].index);
    }
  }

  // ---------- The tables ----------

  /** Every taken record but the one in hand has been inserted: in the table of its own type,
      changed in nothing but its Tstp, in the order taken. */
  ghost predicate Booked(s: State) {
    && |s.taken| == |s.inserts| + (if s.watch.Inserting? then 1 else 0)
    && (s.watch.Inserting? ==> s.watch.msg == s.taken[|s.inserts|])
    && forall i :: 0 <= i < |s.inserts| ==> Answers(s.inserts[i], s.taken[i].rec)
  }

  lemma ExecBooks(s: State, ok: bool)
    requires AllWf(s) && Enabled(s, Exec(ok)) && Booked(s)
    ensures Booked(Apply(s, Exec(ok)))
  {
    var s' := Apply(s, Exec(ok));
    assert Answers(s'.inserts[|s.inserts|], s.watch.msg.rec);
  }

  lemma SelectBooks(s: State)
    requires AllWf(s) && Enabled(s, Select) && Booked(s)
    ensures Booked(Apply(s, Select))
  {
  }

  lemma StepBooks(s: State, s': State)
    requires Step(s, s') && Booked(s)
    ensures Booked(s')
  {
    var a :| Enabled(s, a) && s' == Apply(s, a);
    if a.Exec? {
      ExecBooks(s, a.ok);
    } else if a.Select? {
      SelectBooks(s);
    } else {
      assert s'.taken == s.taken && s'.inserts == s.inserts;
    }
  }

  lemma {:induction false} InsertsMatchTaken(run: seq<State>, i: nat)
    requires IsRun(run) && i < |run|
    ensures Booked(run[i])
    ensures forall k :: 0 <= k < |run[i].inserts| ==>
              && k < |run[i].taken|
              && (run[i].inserts[k].table == NebirosLogs <==> run[i].taken[k].rec.AuditRecord?)
  {
    if i > 0 {
      InsertsMatchTaken(run, i - 1);
      assert Step(run[i - 1], run[i - 1 + 1]);
      StepBooks(run[i - 1], run[i]);
    }
  }

  /** The insert of the record in hand: always possible, with either outcome, stamped with the
      clock as it then stands, whatever it was set to before. */
  lemma ExecStamps(s: State, now: Time, ok: bool)
    requires AllWf(s) && !s.crashed && s.watch.Inserting?
    ensures Enabled(s, Tick(now)) && Enabled(Apply(s, Tick(now)), Exec(ok))
    ensures var t, r := Apply(Apply(s, Tick(now)), Exec(ok)), s.watch.msg.rec;
            && |t.inserts| == |s.inserts| + 1 && s.inserts <= t.inserts
            && t.inserts[|s.inserts|].ok == ok && IsStamped(t.inserts[|s.inserts|].rec, r, now)
            && (t.inserts[|s.inserts|].table == NebirosLogs <==> r.AuditRecord?)
            && t.watch.AtCheck?
  {
    StampOnly(s.watch.msg.rec, now);
  }

  /** The clock is not set back in the first n steps. */
  predicate ClockForward(run: seq<State>, n: nat)
    requires n < |run|
  {
    forall i :: 0 <= i < n ==> run[i].clock <= run[i + 1].clock
  }

  /** Stamps never go back, and none is later than the clock. */
  ghost predicate Stamped(s: State) {
    && StampsSorted(s.inserts)
    && forall i :: 0 <= i < |s.inserts| ==> s.inserts[i].rec.tstp <= s.clock
  }

  lemma StepStamps(s: State, s': State)
    requires Step(s, s') && s.clock <= s'.clock && Stamped(s)
    ensures Stamped(s')
  {
    var a :| Enabled(s, a) && s' == Apply(s, a);
    if !a.Exec? {
      assert s'.inserts == s.inserts;
    }
  }

  /** With a clock that is not set back, the stamps of a run never decrease. */
  lemma {:induction false} StampsInOrder(run: seq<State>, i: nat)
    requires IsRun(run) && i < |run| && ClockForward(run, i)
    ensures Stamped(run[i])
  {
    if i > 0 {
      StampsInOrder(run, i - 1);
      assert Step(run[i - 1], run[i - 1 + 1]) && run[i - 1].clock <= run[i - 1 + 1].clock;
      StepStamps(run[i - 1], run[i]);
    }
  }

  // ---------- One turn of Watch ----------

  function RecordsIn(ms: seq<Message>): seq<Record> {
    seq(|ms|, i requires 0 <= i < |ms| => ms[i].rec)
  }

  lemma RecordsAppend(ms: seq<Message>, m: Message)
    ensures RecordsIn(ms + [m]) == RecordsIn(ms) + [m.rec]
  {
  }

  lemma RecordsTail(ms: seq<Message>)
    requires ms != []
    ensures RecordsIn(ms)[0] == ms[0].rec && RecordsIn(ms)[1..] == RecordsIn(ms[1..])
  {
  }

  /** Watch's three steps with no other in between. */
  function WatchTurn(s: State, ok: bool): State
    requires AllWf(s) && !s.crashed && s.watch.AtCheck?
  {
    var s1 := Apply(s, CheckShutdown);
    if s1.watch.Stopped? then s1
    else
      var s2 := Apply(s1, Select);
      if s2.watch.AtCheck? then s2 else Apply(s2, Exec(ok))
  }

  /** They are one turn of the loop in Registrar.Watch. */
  lemma WatchTurnIsVisit(s: State, ok: bool)
    requires AllWf(s) && !s.crashed && s.watch.AtCheck?
    ensures var t, v := WatchTurn(s, ok), VisitOf(s.shutdown, RecordsIn(s.queue), s.clock, ok);
            && t.watch == (if v.stop then Stopped else AtCheck)
            && RecordsIn(t.queue) == v.buf
            && RecordsIn(t.taken) == RecordsIn(s.taken) + v.took
            && t.inserts == s.inserts + v.done
  {
    if !s.shutdown && s.queue != [] {
      RecordsTail(s.queue);
      RecordsAppend(s.taken, s.queue[0]);
    }
  }
}

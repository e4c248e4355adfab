/** Any number of aks-status, aks-start and aks-stop runs (and the server's own status
    watcher) interleaved over the one shared entry list (Server/ServerCommands/
    ServerCommands.go, Server/NebirosServer.go). A start or stop looks at the cached state in
    one step and calls the cloud in another, for nothing locks the list in between. A status
    turn is one step, since it touches the list only when it writes the answer. `Atomic` is
    the coarser reading in which guard and call happen at once. */
module PowerRuns {
  import opened Wrappers
  import opened PowerState

  /** Before its next entry; past its guard, which saw the log when it was `guard` long; or
      returned with an error. */
  datatype Pc = AtEntry | AtCall(guard: nat) | Over

  datatype Job = Job(cmd: Command, next: nat, pc: Pc)

  /** An event, and how long the log was when the turn that it comes from read the entry. */
  datatype Note = Note(event: Event, guard: nat)

  datatype State = State(entries: seq<Entry>, jobs: seq<Job>, log: seq<Note>)

  datatype Step =
    | Launch(cmd: Command)
    | Advance(job: nat, outcome: Outcome)
    | Guard(job: nat)
    | Call(job: nat, outcome: Outcome)

  predicate Standing(s: State, j: nat) {
    j < |s.jobs| && s.jobs[j].pc.AtEntry? && s.jobs[j].next < |s.entries|
  }

  /** A job past its guard is always a start or stop at an entry (RunConsistent). */
  predicate Calling(s: State, j: nat) {
    j < |s.jobs| && s.jobs[j].pc.AtCall? && s.jobs[j].cmd.Act? && s.jobs[j].next < |s.entries|
  }

  predicate Enabled(s: State, a: Step) {
    match a
    case Launch(_) => true
    case Advance(j, _) => Standing(s, j)
    case Guard(j) => Standing(s, j) && s.jobs[j].cmd.Act?
    case Call(j, _) => Calling(s, j)
  }

  function TurnOf(s: State, j: nat, o: Outcome): Turn
    requires Standing(s, j)
  {
    VisitEntry(s.jobs[j].cmd, s.jobs[j].next, s.entries[s.jobs[j].next], o)
  }

  function Notes(events: seq<Event>, guard: nat): seq<Note> {
    seq(|events|, i requires 0 <= i < |events| => Note(events[i], guard))
  }

  /** The job after it has dealt with its entry. */
  function Past(job: Job, failed: bool): Job {
    Job(job.cmd, job.next + 1, if failed then Over else AtEntry)
  }

  function Apply(s: State, a: Step): State
    requires Enabled(s, a)
  {
    match a
    case Launch(cmd) => s.(jobs := s.jobs + [Job(cmd, 0, AtEntry)])
    case Advance(j, o) =>
      var job, t := s.jobs[j], TurnOf(s, j, o);
      State(s.entries[job.next := t.entry],
            s.jobs[j := Past(job, t.error.Some?)],
            s.log + Notes(t.events, |s.log|))
    case Guard(j) =>
      var job := s.jobs[j];
      var e := s.entries[job.next];
      s.(jobs := s.jobs[j :=
           if !Matches(job.cmd, e) then Past(job, false)
           else if e.powerState != Required(job.cmd.action) then Past(job, true)
           else job.(pc := AtCall(|s.log|))])
    case Call(j, o) =>
      var job := s.jobs[j];
      s.(jobs := s.jobs[j := Past(job, o.Failed?)],
         log := s.log + [Note(Issued(job.next, job.cmd.action), job.pc.guard)])
  }

  /** The code is `Separate`: only a status turn is one step. */
  datatype Reading = Separate | Atomic

  predicate Allowed(r: Reading, s: State, a: Step)
    requires Enabled(s, a)
  {
    match r
    case Separate => a.Advance? ==> s.jobs[a.job].cmd.Status?
    case Atomic => !a.Guard? && !a.Call?
  }

  ghost predicate Next(r: Reading, s: State, s': State) {
    exists a :: Enabled(s, a) && Allowed(r, s, a) && s' == Apply(s, a)
  }

  ghost predicate IsRun(r: Reading, run: seq<State>) {
    && 0 < |run|
    && run[0].jobs == [] && run[0].log == []
    && forall i :: 0 <= i < |run| - 1 ==> Next(r, run[i], run[i + 1])
  }

  /** With nothing in between, guard and call make up the turn of the Run loop. */
  lemma GuardThenCall(s: State, j: nat, o: Outcome)
    requires Enabled(s, Guard(j))
    ensures var s1 := Apply(s, Guard(j));
            if s1.jobs[j].pc.AtCall? then Apply(s1, Call(j, o)) == Apply(s, Advance(j, o))
            else s1 == Apply(s, Advance(j, o))
  {
    var s1 := Apply(s, Guard(j));
    var t := TurnOf(s, j, o);
    assert s.entries[s.jobs[j].next := t.entry] == s.entries;
    assert s.log + Notes([], |s.log|) == s.log;
    if s1.jobs[j].pc.AtCall? {
      assert Notes(t.events, |s.log|) == [Note(t.events[0], |s.log|)];
    }
  }

  // ---------- What every interleaving keeps ----------

  /** What the log says the cloud last answered for an entry, or what the entry began with. */
  function LastCode(log: seq<Note>, i: nat, initial: string): string {
    if log == [] then initial
    else
      var e := log[|log| - 1].event;
      if e.Refreshed? && e.entry == i then e.code else LastCode(log[..|log| - 1], i, initial)
  }

  lemma LastCodeAppend(log: seq<Note>, n: Note, i: nat, initial: string)
    ensures LastCode(log + [n], i, initial)
         == if n.event.Refreshed? && n.event.entry == i then n.event.code else LastCode(log, i, initial)
  {
    assert (log + [n])[..|log|] == log;
  }

  /** After p events, the last refresh of entry k (or its initial state) says what action a requires. */
  predicate Permits(start: seq<Entry>, log: seq<Note>, p: nat, k: nat, a: Action)
    requires p <= |log|
  {
    k < |start| && LastCode(log[..p], k, start[k].powerState) == Required(a)
  }

  /** If the q-th event is an action, it was permitted after p events. */
  predicate PermittedAt(start: seq<Entry>, log: seq<Note>, q: nat, p: nat)
    requires q < |log| && p <= |log|
  {
    log[q].event.Issued? ==> Permits(start, log, p, log[q].event.entry, log[q].event.action)
  }

  /** If the q-th event is an action, it was permitted when its guard looked. */
  predicate GuardPassed(start: seq<Entry>, log: seq<Note>, q: nat)
    requires q < |log|
  {
    log[q].guard <= q && PermittedAt(start, log, q, log[q].guard)
  }

  /** The fields that a command looks an entry up by; no step changes them. */
  predicate SameNames(v: seq<Entry>, w: seq<Entry>) {
    && |v| == |w|
    && forall i :: 0 <= i < |v| ==> v[i].resourceGroup == w[i].resourceGroup && v[i].clusterName == w[i].clusterName
  }

  predicate WaitingOk(start: seq<Entry>, s: State, job: Job) {
    job.pc.AtCall? ==>
      && job.cmd.Act? && job.next < |s.entries| && Matches(job.cmd, s.entries[job.next])
      && job.pc.guard <= |s.log| && Permits(start, s.log, job.pc.guard, job.next, job.cmd.action)
  }

  /** The cached states are what the log says, and every guard passed rightly. */
  ghost predicate Consistent(start: seq<Entry>, s: State) {
    && |s.entries| == |start|
    && (forall k :: 0 <= k < |start| ==> s.entries[k].powerState == LastCode(s.log, k, start[k].powerState))
    && (forall q :: 0 <= q < |s.log| ==> GuardPassed(start, s.log, q))
    && (forall j :: 0 <= j < |s.jobs| ==> WaitingOk(start, s, s.jobs[j]))
  }

  lemma PermitsAppend(start: seq<Entry>, log: seq<Note>, n: Note, p: nat, k: nat, a: Action)
    requires p <= |log|
    ensures Permits(start, log + [n], p, k, a) <==> Permits(start, log, p, k, a)
  {
    assert (log + [n])[..p] == log[..p];
  }

  /** What the cache shows is what the whole log permits. */
  lemma CachePermits(start: seq<Entry>, s: State, k: nat, a: Action)
    requires Consistent(start, s) && k < |s.entries|
    ensures Permits(start, s.log, |s.log|, k, a) <==> s.entries[k].powerState == Required(a)
  {
    assert s.log[..|s.log|] == s.log;
  }

  /** One more event keeps consistency if its guard passed and the cache follows it. */
  lemma LogConsistent(start: seq<Entry>, s: State, s': State, n: Note)
    requires Consistent(start, s) && s'.log == s.log + [n] && SameNames(s.entries, s'.entries)
    requires n.guard <= |s.log|
    requires n.event.Issued? ==> Permits(start, s.log, n.guard, n.event.entry, n.event.action)
    requires forall k :: 0 <= k < |start| ==>
               s'.entries[k].powerState ==
               (if n.event.Refreshed? && n.event.entry == k then n.event.code else s.entries[k].powerState)
    requires forall j :: 0 <= j < |s'.jobs| ==> WaitingOk(start, s, s'.jobs[j])
    ensures Consistent(start, s')
  {
    forall k | 0 <= k < |start|
      ensures s'.entries[k].powerState == LastCode(s'.log, k, start[k].powerState)
    {
      LastCodeAppend(s.log, n, k, start[k].powerState);
    }
    forall q | 0 <= q < |s'.log|
      ensures GuardPassed(start, s'.log, q)
    {
      assert q < |s.log| ==> GuardPassed(start, s.log, q);
      if s'.log[q].event.Issued? {
        PermitsAppend(start, s.log, n, s'.log[q].guard, s'.log[q].event.entry, s'.log[q].event.action);
      }
    }
    forall j | 0 <= j < |s'.jobs|
      ensures WaitingOk(start, s', s'.jobs[j])
    {
      var job := s'.jobs[j];
      if job.pc.AtCall? {
        PermitsAppend(start, s.log, n, job.pc.guard, job.next, job.cmd.action);
      }
    }
  }

  /** A turn either does nothing to the log, or adds one event about its own entry. */
  lemma TurnEffect(cmd: Command, i: nat, e: Entry, o: Outcome)
    ensures var t := VisitEntry(cmd, i, e, o);
            || (t.events == [] && t.entry == e)
            || (t.events == [Refreshed(i, t.entry.powerState)])
            || (cmd.Act? && t.events == [Issued(i, cmd.action)] && t.entry == e && e.powerState == Required(cmd.action))
  {
  }

  lemma AdvanceConsistent(start: seq<Entry>, s: State, j: nat, o: Outcome)
    requires Consistent(start, s) && Enabled(s, Advance(j, o))
    ensures Consistent(start, Apply(s, Advance(j, o)))
  {
    var s' := Apply(s, Advance(j, o));
    var t := TurnOf(s, j, o);
    var k := s.jobs[j].next;
    TurnEffect(s.jobs[j].cmd, k, s.entries[k], o);
    if t.events == [] {
      assert s'.log == s.log;
    } else {
      var n := Note(t.events[0], |s.log|);
      assert s'.log == s.log + [n];
      if t.events[0].Issued? {
        CachePermits(start, s, k, t.events[0].action);
      }
      LogConsistent(start, s, s', n);
    }
  }

  lemma GuardConsistent(start: seq<Entry>, s: State, j: nat)
    requires Consistent(start, s) && Enabled(s, Guard(j))
    ensures Consistent(start, Apply(s, Guard(j)))
  {
    CachePermits(start, s, s.jobs[j].next, s.jobs[j].cmd.action);
  }

  lemma CallConsistent(start: seq<Entry>, s: State, j: nat, o: Outcome)
    requires Consistent(start, s) && Enabled(s, Call(j, o))
    ensures Consistent(start, Apply(s, Call(j, o)))
  {
    var job := s.jobs[j];
    assert WaitingOk(start, s, job);
    LogConsistent(start, s, Apply(s, Call(j, o)), Note(Issued(job.next, job.cmd.action), job.pc.guard));
  }

  lemma StepConsistent(start: seq<Entry>, s: State, a: Step)
    requires Consistent(start, s) && Enabled(s, a)
    ensures Consistent(start, Apply(s, a))
  {
    match a
    case Launch(_) =>
    case Advance(j, o) => AdvanceConsistent(start, s, j, o);
    case Guard(j) => GuardConsistent(start, s, j);
    case Call(j, o) => CallConsistent(start, s, j, o);
  }

  lemma NextConsistent(r: Reading, start: seq<Entry>, s: State, s': State)
    requires Consistent(start, s) && Next(r, s, s')
    ensures Consistent(start, s')
  {
    var a :| Enabled(s, a) && Allowed(r, s, a) && s' == Apply(s, a);
    StepConsistent(start, s, a);
  }

  lemma {:induction false} RunConsistent(r: Reading, run: seq<State>, i: nat)
    requires IsRun(r, run) && i < |run|
    ensures Consistent(run[0].entries, run[i])
  {
    if i > 0 {
      RunConsistent(r, run, i - 1);
      assert Next(r, run[i - 1], run[i - 1 + 1]);
      NextConsistent(r, run[0].entries, run[i - 1], run[i]);
    }
  }

  /** In any interleaving, in either reading: every start went to a cluster whose last refresh
      (or initial state) was Stopped when its guard looked, every stop to one whose last was
      Running. */
  lemma ActionsJustified(r: Reading, run: seq<State>, i: nat, q: nat)
    requires IsRun(r, run) && i < |run| && q < |run[i].log| && run[i].log[q].event.Issued?
    ensures var n := run[i].log[q];
            && n.guard <= q && n.event.entry < |run[0].entries|
            && LastCode(run[i].log[..n.guard], n.event.entry, run[0].entries[n.event.entry].powerState)
               == if n.event.action.Start? then "Stopped" else "Running"
  {
    RunConsistent(r, run, i);
    assert GuardPassed(run[0].entries, run[i].log, q);
  }

  /** The cached state is written by refreshes alone. */
  lemma CacheIsLastRefresh(r: Reading, run: seq<State>, i: nat, k: nat)
    requires IsRun(r, run) && i < |run| && k < |run[0].entries|
    ensures k < |run[i].entries|
    ensures run[i].entries[k].powerState == LastCode(run[i].log, k, run[0].entries[k].powerState)
  {
    RunConsistent(r, run, i);
  }

  // ---------- Fresh calls ----------

  /** A call finds the cached state still as its guard wants it. */
  predicate Fresh(s: State, a: Step)
    requires Enabled(s, a)
  {
    a.Call? ==> s.entries[s.jobs[a.job].next].powerState == Required(s.jobs[a.job].cmd.action)
  }

  ghost predicate FreshNext(s: State, s': State) {
    forall a :: Enabled(s, a) && s' == Apply(s, a) ==> Fresh(s, a)
  }

  /** Every one of the first n steps of a run was fresh. */
  ghost predicate CallsFresh(run: seq<State>, n: nat)
    requires n < |run|
  {
    forall i :: 0 <= i < n ==> FreshNext(run[i], run[i + 1])
  }

  lemma CallsFreshNext(run: seq<State>, n: nat)
    requires 0 < n < |run|
    ensures CallsFresh(run, n) <==> CallsFresh(run, n - 1) && FreshNext(run[n - 1], run[n])
  {
    assert CallsFresh(run, n) ==> FreshNext(run[n - 1], run[n - 1 + 1]);
  }

  /** Every action was permitted at the very moment it was issued. */
  ghost predicate AllPermitted(start: seq<Entry>, log: seq<Note>) {
    forall q :: 0 <= q < |log| ==> PermittedAt(start, log, q, q)
  }

  lemma PermittedAppend(start: seq<Entry>, log: seq<Note>, n: Note)
    ensures forall q :: 0 <= q < |log| ==> (PermittedAt(start, log + [n], q, q) <==> PermittedAt(start, log, q, q))
    ensures PermittedAt(start, log + [n], |log|, |log|) <==>
            (n.event.Issued? ==> Permits(start, log, |log|, n.event.entry, n.event.action))
  {
    forall q | 0 <= q < |log|
      ensures PermittedAt(start, log + [n], q, q) <==> PermittedAt(start, log, q, q)
    {
      if log[q].event.Issued? {
        PermitsAppend(start, log, n, q, log[q].event.entry, log[q].event.action);
      }
    }
    if n.event.Issued? {
      PermitsAppend(start, log, n, |log|, n.event.entry, n.event.action);
    }
  }

  lemma AppendPermitted(start: seq<Entry>, log: seq<Note>, n: Note)
    ensures AllPermitted(start, log + [n]) <==>
            AllPermitted(start, log) && (n.event.Issued? ==> Permits(start, log, |log|, n.event.entry, n.event.action))
  {
    PermittedAppend(start, log, n);
  }

  /** What a step adds to the log: at most one event; an action is permitted now exactly if
      the step is fresh. */
  lemma StepNotes(start: seq<Entry>, s: State, a: Step) returns (notes: seq<Note>)
    requires Consistent(start, s) && Enabled(s, a)
    ensures |notes| <= 1 && Apply(s, a).log == s.log + notes
    ensures if notes != [] && notes[0].event.Issued?
            then Fresh(s, a) <==> Permits(start, s.log, |s.log|, notes[0].event.entry, notes[0].event.action)
            else Fresh(s, a)
  {
    notes := [];
    if a.Call? {
      var job := s.jobs[a.job];
      notes := [Note(Issued(job.next, job.cmd.action), job.pc.guard)];
      CachePermits(start, s, job.next, job.cmd.action);
    } else if a.Advance? {
      var t, k := TurnOf(s, a.job, a.outcome), s.jobs[a.job].next;
      TurnEffect(s.jobs[a.job].cmd, k, s.entries[k], a.outcome);
      notes := Notes(t.events, |s.log|);
      if t.events != [] && t.events[0].Issued? {
        CachePermits(start, s, k, t.events[0].action);
      }
    }
  }

  /** A step keeps all actions permitted exactly if it is fresh. */
  lemma StepPermitted(start: seq<Entry>, s: State, a: Step)
    requires Consistent(start, s) && Enabled(s, a)
    ensures AllPermitted(start, Apply(s, a).log) <==> AllPermitted(start, s.log) && Fresh(s, a)
  {
    var notes := StepNotes(start, s, a);
    if notes == [] {
      assert Apply(s, a).log == s.log;
    } else {
      assert notes == [notes[0]];
      AppendPermitted(start, s.log, notes[0]);
    }
  }

  lemma NextPermitted(r: Reading, start: seq<Entry>, s: State, s': State)
    requires Consistent(start, s) && Next(r, s, s')
    ensures AllPermitted(start, s'.log) <==> AllPermitted(start, s.log) && FreshNext(s, s')
  {
    var b :| Enabled(s, b) && Allowed(r, s, b) && s' == Apply(s, b);
    StepPermitted(start, s, b);
    forall a | Enabled(s, a) && s' == Apply(s, a)
      ensures AllPermitted(start, s'.log) ==> Fresh(s, a)
    {
      StepPermitted(start, s, a);
    }
  }

  /** Exactly when a run issues every action under a last refresh that allows it: if and only
      if each call finds the cached state of its entry still as its guard wants it. */
  lemma {:induction false} PermittedIffCallsFresh(r: Reading, run: seq<State>, n: nat)
    requires IsRun(r, run) && n < |run|
    ensures AllPermitted(run[0].entries, run[n].log) <==> CallsFresh(run, n)
  {
    if n > 0 {
      PermittedIffCallsFresh(r, run, n - 1);
      RunConsistent(r, run, n - 1);
      assert Next(r, run[n - 1], run[n - 1 + 1]);
      NextPermitted(r, run[0].entries, run[n - 1], run[n]);
      CallsFreshNext(run, n);
    }
  }

  // ---------- One kind of action between refreshes ----------

  predicate NoRefresh(log: seq<Note>, k: nat, p: nat, q: nat)
    requires p <= q <= |log|
  {
    forall m :: p <= m < q ==> !(log[m].event.Refreshed? && log[m].event.entry == k)
  }

  /** The p-th event is an action on entry k other than a, and k was not refreshed up to q. */
  predicate Contrary(log: seq<Note>, p: nat, q: nat, k: nat, a: Action)
    requires p <= q <= |log|
  {
    && p < |log| && log[p].event.Issued? && log[p].event.entry == k && log[p].event.action != a
    && NoRefresh(log, k, p, q)
  }

  /** Between two refreshes of an entry all actions on it are of one kind. */
  ghost predicate OneKind(log: seq<Note>) {
    forall p, q :: 0 <= p < q < |log| && log[q].event.Issued? ==>
      !Contrary(log, p, q, log[q].event.entry, log[q].event.action)
  }

  lemma {:induction false} LastCodeSteady(log: seq<Note>, k: nat, p: nat, q: nat, initial: string)
    requires p <= q <= |log| && NoRefresh(log, k, p, q)
    ensures LastCode(log[..p], k, initial) == LastCode(log[..q], k, initial)
    decreases q
  {
    if p < q {
      LastCodeSteady(log, k, p, q - 1, initial);
      assert log[..q] == log[..q - 1] + [log[q - 1]];
      LastCodeAppend(log[..q - 1], log[q - 1], k, initial);
    }
  }

  lemma PermittedIsOneKind(start: seq<Entry>, log: seq<Note>)
    requires AllPermitted(start, log)
    ensures OneKind(log)
  {
    assert "Stopped"[0] == 'S' && "Running"[0] == 'R';
    forall p, q | 0 <= p < q < |log| && log[q].event.Issued?
      ensures !Contrary(log, p, q, log[q].event.entry, log[q].event.action)
    {
      var k := log[q].event.entry;
      if Contrary(log, p, q, k, log[q].event.action) {
        assert PermittedAt(start, log, p, p) && PermittedAt(start, log, q, q);
        LastCodeSteady(log, k, p, q, start[k].powerState);
      }
    }
  }

  /** While calls are fresh, all remote actions on an entry between two of its refreshes are of
      one kind, however many runs interleave. */
  lemma FreshCallsKeepOneKind(r: Reading, run: seq<State>, n: nat)
    requires IsRun(r, run) && n < |run| && CallsFresh(run, n)
    ensures OneKind(run[n].log)
  {
    PermittedIffCallsFresh(r, run, n);
    PermittedIsOneKind(run[0].entries, run[n].log);
  }

  lemma AtomicNext(start: seq<Entry>, s: State, s': State)
    requires Consistent(start, s) && Next(Atomic, s, s') && AllPermitted(start, s.log)
    ensures AllPermitted(start, s'.log)
  {
    var a :| Enabled(s, a) && Allowed(Atomic, s, a) && s' == Apply(s, a);
    StepPermitted(start, s, a);
  }

  lemma {:induction false} AtomicPermitted(run: seq<State>, n: nat)
    requires IsRun(Atomic, run) && n < |run|
    ensures AllPermitted(run[0].entries, run[n].log)
  {
    if n > 0 {
      AtomicPermitted(run, n - 1);
      RunConsistent(Atomic, run, n - 1);
      assert Next(Atomic, run[n - 1], run[n - 1 + 1]);
      AtomicNext(run[0].entries, run[n - 1], run[n]);
    }
  }

  /** Were guard and call one step, there would never be both a start and a stop of an entry
      between two of its refreshes. */
  lemma OneKindBetweenRefreshes(run: seq<State>, n: nat)
    requires IsRun(Atomic, run) && n < |run|
    ensures AllPermitted(run[0].entries, run[n].log) && OneKind(run[n].log)
  {
    AtomicPermitted(run, n);
    PermittedIsOneKind(run[0].entries, run[n].log);
  }

  /** A call for which an action of the other kind is on record since its entry's last refresh. */
  ghost predicate Clashes(s: State, a: Step)
    requires Enabled(s, a)
  {
    a.Call? && exists p: nat ::
      p < |s.log| && Contrary(s.log, p, |s.log|, s.jobs[a.job].next, s.jobs[a.job].cmd.action)
  }

  ghost predicate NoClashNext(s: State, s': State) {
    forall a :: Enabled(s, a) && s' == Apply(s, a) ==> !Clashes(s, a)
  }

  ghost predicate NoClash(run: seq<State>, n: nat)
    requires n < |run|
  {
    forall i :: 0 <= i < n ==> NoClashNext(run[i], run[i + 1])
  }

  lemma NoClashSplit(run: seq<State>, n: nat)
    requires 0 < n < |run|
    ensures NoClash(run, n) <==> NoClash(run, n - 1) && NoClashNext(run[n - 1], run[n])
  {
    assert NoClash(run, n) ==> NoClashNext(run[n - 1], run[n - 1 + 1]);
  }

  lemma ContraryAppend(log: seq<Note>, n: Note, p: nat, q: nat, k: nat, a: Action)
    requires p < q <= |log|
    ensures Contrary(log + [n], p, q, k, a) <==> Contrary(log, p, q, k, a)
  {
    var log' := log + [n];
    assert forall m :: p <= m < q ==> log'[m] == log[m];
  }

  lemma AppendOneKind(log: seq<Note>, n: Note)
    ensures OneKind(log + [n]) <==>
            && OneKind(log)
            && forall p :: 0 <= p < |log| && n.event.Issued? ==>
                 !Contrary(log, p, |log|, n.event.entry, n.event.action)
  {
    var log' := log + [n];
    forall p: nat, q: nat, k: nat, a | p < q <= |log|
      ensures Contrary(log', p, q, k, a) <==> Contrary(log, p, q, k, a)
    {
      ContraryAppend(log, n, p, q, k, a);
    }
    assert OneKind(log') ==> OneKind(log) by {
      if OneKind(log') {
        forall p, q | 0 <= p < q < |log| && log[q].event.Issued?
          ensures !Contrary(log, p, q, log[q].event.entry, log[q].event.action)
        {
          assert log'[q] == log[q];
        }
      }
    }
    assert log'[|log|] == n;
  }

  lemma StepOneKind(s: State, a: Step)
    requires Enabled(s, a) && Allowed(Separate, s, a)
    ensures OneKind(Apply(s, a).log) <==> OneKind(s.log) && !Clashes(s, a)
  {
    if a.Call? {
      var job := s.jobs[a.job];
      AppendOneKind(s.log, Note(Issued(job.next, job.cmd.action), job.pc.guard));
    } else if a.Advance? {
      var t, k := TurnOf(s, a.job, a.outcome), s.jobs[a.job].next;
      TurnEffect(s.jobs[a.job].cmd, k, s.entries[k], a.outcome);
      if t.events == [] {
        assert Apply(s, a).log == s.log;
      } else {
        assert Apply(s, a).log == s.log + [Note(t.events[0], |s.log|)];
        AppendOneKind(s.log, Note(t.events[0], |s.log|));
      }
    }
  }

  lemma NextOneKind(s: State, s': State)
    requires Next(Separate, s, s')
    ensures OneKind(s'.log) <==> OneKind(s.log) && NoClashNext(s, s')
  {
    var b :| Enabled(s, b) && Allowed(Separate, s, b) && s' == Apply(s, b);
    StepOneKind(s, b);
    forall a | Enabled(s, a) && s' == Apply(s, a)
      ensures OneKind(s'.log) ==> !Clashes(s, a)
    {
      if a.Call? {
        StepOneKind(s, a);
      }
    }
  }

  /** Exactly when the code keeps to one kind: if and only if no call is made while an action
      of the other kind is on record since its entry's last refresh. */
  lemma {:induction false} OneKindIffNoClash(run: seq<State>, n: nat)
    requires IsRun(Separate, run) && n < |run|
    ensures OneKind(run[n].log) <==> NoClash(run, n)
  {
    if n > 0 {
      OneKindIffNoClash(run, n - 1);
      assert Next(Separate, run[n - 1], run[n - 1 + 1]);
      NextOneKind(run[n - 1], run[n]);
      NoClashSplit(run, n);
    }
  }

  function Other(a: Action): Action {
    if a.Start? then Stop else Start
  }

  /** A stale call breaks the rule as soon as a job of the other kind comes to the entry:
      its guard passes, and its call makes the second kind. */
  lemma StaleCallBreaks(s: State, j: nat, i: nat, o: Outcome)
    requires Calling(s, j) && Standing(s, i) && i != j
    requires var e, a := s.entries[s.jobs[j].next], s.jobs[j].cmd.action;
             && s.jobs[i].cmd == Act(Other(a), e.clusterName) && s.jobs[i].next == s.jobs[j].next && Configured(e)
             && e.powerState == Required(Other(a))
    ensures var s1 := Apply(s, Call(j, o));
            && Enabled(s1, Guard(i))
            && Enabled(Apply(s1, Guard(i)), Call(i, o))
            && !OneKind(Apply(Apply(s1, Guard(i)), Call(i, o)).log)
  {
    var s1 := Apply(s, Call(j, o));
    var s3 := Apply(Apply(s1, Guard(i)), Call(i, o));
    var p := |s.log|;
    assert s3.log[p].event == Issued(s.jobs[j].next, s.jobs[j].cmd.action);
    assert s3.log[p + 1].event == Issued(s.jobs[j].next, Other(s.jobs[j].cmd.action));
    assert Contrary(s3.log, p, p + 1, s.jobs[j].next, Other(s.jobs[j].cmd.action));
  }

  // ---------- What a call decides ----------

  /** A step of the code whose call, if it makes one, is fresh. */
  ghost predicate FreshStep(s: State, s': State) {
    exists a :: Enabled(s, a) && Allowed(Separate, s, a) && Fresh(s, a) && s' == Apply(s, a)
  }

  /** A way for the code to go on from s in which all calls are fresh. */
  ghost predicate IsFreshContinuation(path: seq<State>, s: State) {
    && 0 < |path|
    && path[0] == s
    && forall i :: 0 <= i < |path| - 1 ==> FreshStep(path[i], path[i + 1])
  }

  lemma FreshExtended(path: seq<State>, s: State, a: Step) returns (path': seq<State>)
    requires IsFreshContinuation(path, s)
    requires Enabled(path[|path| - 1], a) && Allowed(Separate, path[|path| - 1], a) && Fresh(path[|path| - 1], a)
    ensures IsFreshContinuation(path', s) && path'[|path'| - 1] == Apply(path[|path| - 1], a)
  {
    var last := path[|path| - 1];
    path' := path + [Apply(last, a)];
    assert FreshStep(last, Apply(last, a));
    forall i | 0 <= i < |path'| - 1
      ensures FreshStep(path'[i], path'[i + 1])
    {
      if i < |path| - 1 {
        assert path'[i] == path[i] && path'[i + 1] == path[i + 1];
      }
    }
  }

  /** Every action but perhaps the p-th was permitted when it was issued. */
  ghost predicate PermittedBut(start: seq<Entry>, log: seq<Note>, p: nat) {
    forall q :: 0 <= q < |log| && q != p ==> PermittedAt(start, log, q, q)
  }

  lemma AppendPermittedBut(start: seq<Entry>, log: seq<Note>, notes: seq<Note>, p: nat)
    requires p < |log| && PermittedBut(start, log, p) && |notes| <= 1
    requires notes != [] && notes[0].event.Issued? ==>
               Permits(start, log, |log|, notes[0].event.entry, notes[0].event.action)
    ensures PermittedBut(start, log + notes, p)
  {
    if notes == [] {
      assert log + notes == log;
    } else {
      assert notes == [notes[0]];
      PermittedAppend(start, log, notes[0]);
    }
  }

  lemma StepPermittedBut(start: seq<Entry>, s: State, s': State, p: nat)
    requires Consistent(start, s) && FreshStep(s, s') && p < |s.log| && PermittedBut(start, s.log, p)
    ensures PermittedBut(start, s'.log, p) && Consistent(start, s') && s.log <= s'.log
  {
    var a :| Enabled(s, a) && Allowed(Separate, s, a) && Fresh(s, a) && s' == Apply(s, a);
    StepConsistent(start, s, a);
    var notes := StepNotes(start, s, a);
    AppendPermittedBut(start, s.log, notes, p);
  }

  lemma {:induction false} PathPermittedBut(start: seq<Entry>, path: seq<State>, s: State, n: nat, p: nat)
    requires IsFreshContinuation(path, s) && n < |path|
    requires Consistent(start, s) && p < |s.log| && PermittedBut(start, s.log, p)
    ensures Consistent(start, path[n]) && s.log <= path[n].log && PermittedBut(start, path[n].log, p)
  {
    if n > 0 {
      PathPermittedBut(start, path, s, n - 1, p);
      assert FreshStep(path[n - 1], path[n - 1 + 1]);
      StepPermittedBut(start, path[n - 1], path[n], p);
      assert s.log <= path[n - 1].log <= path[n].log;
    }
  }

  /** One action that was not permitted does not mix kinds, unless the cache then said what
      the other kind requires. */
  lemma PermittedButIsOneKind(start: seq<Entry>, log: seq<Note>, p0: nat)
    requires PermittedBut(start, log, p0) && p0 < |log| && log[p0].event.Issued?
    requires !Permits(start, log, p0, log[p0].event.entry, Other(log[p0].event.action))
    requires log[p0].event.entry < |start|
    ensures OneKind(log)
  {
    assert "Stopped"[0] == 'S' && "Running"[0] == 'R';
    forall p, q | 0 <= p < q < |log| && log[q].event.Issued?
      ensures !Contrary(log, p, q, log[q].event.entry, log[q].event.action)
    {
      var k := log[q].event.entry;
      if Contrary(log, p, q, k, log[q].event.action) {
        assert p != p0 ==> PermittedAt(start, log, p, p);
        assert q != p0 ==> PermittedAt(start, log, q, q);
        LastCodeSteady(log, k, p, q, start[k].powerState);
      }
    }
  }

  /** The log has grown from `before` without a refresh of entry k. */
  predicate Quiet(before: seq<Note>, after: seq<Note>, k: nat) {
    && before <= after
    && NoRefresh(after, k, |before|, |after|)
  }

  lemma QuietAppend(before: seq<Note>, log: seq<Note>, n: Note, k: nat)
    requires Quiet(before, log, k) && !(n.event.Refreshed? && n.event.entry == k)
    ensures Quiet(before, log + [n], k)
  {
  }

  /** On the way from s to mixed kinds at entry k: it has not been refreshed, and the entries
      before the n-th show the code. */
  predicate Underway(s: State, t: State, k: nat, code: string, n: nat) {
    && SameNames(s.entries, t.entries) && n <= k < |t.entries| && t.entries[k] == s.entries[k]
    && Quiet(s.log, t.log, k)
    && forall i :: 0 <= i < n && Configured(t.entries[i]) ==> t.entries[i].powerState == code
  }

  /** Job m is at entry n. */
  predicate Stands(t: State, m: nat, cmd: Command, n: nat) {
    m < |t.jobs| && t.jobs[m] == Job(cmd, n, AtEntry)
  }

  lemma RefreshTurn(s: State, t: State, k: nat, code: string, n: nat, m: nat)
    requires Underway(s, t, k, code, n) && n < k && Stands(t, m, Status("ALL"), n)
    ensures var t' := Apply(t, Advance(m, Success(ClusterInfo(code))));
            Underway(s, t', k, code, n + 1) && Stands(t', m, Status("ALL"), n + 1)
  {
    var turn := TurnOf(t, m, Success(ClusterInfo(code)));
    if Configured(t.entries[n]) {
      assert turn.events == [Refreshed(n, code)];
      assert Notes(turn.events, |t.log|) == [Note(Refreshed(n, code), |t.log|)];
      QuietAppend(s.log, t.log, Note(Refreshed(n, code), |t.log|), k);
    } else {
      assert t.log + Notes([], |t.log|) == t.log;
    }
  }

  /** A status run refreshes the entries before k, and gets no further. */
  lemma {:induction false} RefreshesUpTo(s: State, path: seq<State>, k: nat, code: string, n: nat, m: nat)
    returns (path': seq<State>)
    requires IsFreshContinuation(path, s)
    requires Underway(s, path[|path| - 1], k, code, n) && Stands(path[|path| - 1], m, Status("ALL"), n)
    ensures IsFreshContinuation(path', s) && Underway(s, path'[|path'| - 1], k, code, k)
    decreases k - n
  {
    path' := path;
    if n < k {
      RefreshTurn(s, path[|path| - 1], k, code, n, m);
      path' := FreshExtended(path, s, Advance(m, Success(ClusterInfo(code))));
      path' := RefreshesUpTo(s, path', k, code, n + 1, m);
    }
  }

  /** Guard and, if it passes, a call bring job m past entry n. */
  lemma WalkTurn(s: State, path: seq<State>, k: nat, b: Action, c: string, n: nat, m: nat)
    returns (path': seq<State>)
    requires IsFreshContinuation(path, s) && n < k
    requires Underway(s, path[|path| - 1], k, Required(b), k) && Stands(path[|path| - 1], m, Act(b, c), n)
    ensures IsFreshContinuation(path', s)
    ensures Underway(s, path'[|path'| - 1], k, Required(b), k) && Stands(path'[|path'| - 1], m, Act(b, c), n + 1)
  {
    var t, o := path[|path| - 1], Success(ClusterInfo(""));
    path' := FreshExtended(path, s, Guard(m));
    if Matches(Act(b, c), t.entries[n]) {
      var t1 := path'[|path'| - 1];
      path' := FreshExtended(path', s, Call(m, o));
      QuietAppend(s.log, t1.log, Note(Issued(n, b), t1.jobs[m].pc.guard), k);
    }
  }

  lemma {:induction false} WalksTo(s: State, path: seq<State>, k: nat, b: Action, c: string, n: nat, m: nat)
    returns (path': seq<State>)
    requires IsFreshContinuation(path, s) && n <= k
    requires Underway(s, path[|path| - 1], k, Required(b), k) && Stands(path[|path| - 1], m, Act(b, c), n)
    ensures IsFreshContinuation(path', s)
    ensures Underway(s, path'[|path'| - 1], k, Required(b), k) && Stands(path'[|path'| - 1], m, Act(b, c), k)
    decreases k - n
  {
    path' := path;
    if n < k {
      path' := WalkTurn(s, path, k, b, c, n, m);
      path' := WalksTo(s, path', k, b, c, n + 1, m);
    }
  }

  /** Guard and call of the other kind at entry k itself. */
  lemma MixesAt(s: State, path: seq<State>, k: nat, b: Action, c: string, m: nat, p: nat) returns (path': seq<State>)
    requires IsFreshContinuation(path, s)
    requires Underway(s, path[|path| - 1], k, Required(b), k) && Stands(path[|path| - 1], m, Act(b, c), k)
    requires Matches(Act(b, c), s.entries[k]) && s.entries[k].powerState == Required(b)
    requires p < |s.log| && s.log[p].event == Issued(k, Other(b)) && NoRefresh(s.log, k, p, |s.log|)
    ensures IsFreshContinuation(path', s) && !OneKind(path'[|path'| - 1].log)
  {
    path' := FreshExtended(path, s, Guard(m));
    var t := path'[|path'| - 1];
    path' := FreshExtended(path', s, Call(m, Success(ClusterInfo(""))));
    var log := path'[|path'| - 1].log;
    assert log == t.log + [Note(Issued(k, b), t.jobs[m].pc.guard)];
    assert forall i :: 0 <= i < |s.log| ==> log[i] == s.log[i];
    assert Contrary(log, p, |t.log|, k, b);
    assert log[|t.log|].event == Issued(k, b);
  }

  /** Once an action of kind a is on record for entry k since its last refresh, and the cache
      says what the other kind requires, fresh calls alone can mix the kinds: a status run
      refreshes the entries before k, then a run of the other kind comes to k. */
  lemma MixesLater(s: State, k: nat, a: Action, c: string, p: nat) returns (path: seq<State>)
    requires k < |s.entries| && Configured(s.entries[k]) && s.entries[k].clusterName == c
    requires s.entries[k].powerState == Required(Other(a))
    requires p < |s.log| && s.log[p].event == Issued(k, a) && NoRefresh(s.log, k, p, |s.log|)
    ensures IsFreshContinuation(path, s) && !OneKind(path[|path| - 1].log)
  {
    var b := Other(a);
    path := FreshExtended([s], s, Launch(Status("ALL")));
    path := RefreshesUpTo(s, path, k, Required(b), 0, |s.jobs|);
    var m := |path[|path| - 1].jobs|;
    path := FreshExtended(path, s, Launch(Act(b, c)));
    path := WalksTo(s, path, k, b, c, 0, m);
    path := MixesAt(s, path, k, b, c, m, p);
  }

  /** Exactly what a call risks. All actions so far were permitted, and a job past its guard is
      about to call. Whatever comes after that call with fresh calls only stays of one kind, if
      and only if the cached state of the entry is not the one that the other kind requires. */
  lemma CallKeepsOneKindIff(start: seq<Entry>, s: State, j: nat, o: Outcome)
    requires Consistent(start, s) && AllPermitted(start, s.log) && Enabled(s, Call(j, o))
    ensures (forall path: seq<State> :: IsFreshContinuation(path, Apply(s, Call(j, o))) ==> OneKind(path[|path| - 1].log)) <==>
            s.entries[s.jobs[j].next].powerState != Required(Other(s.jobs[j].cmd.action))
  {
    var job := s.jobs[j];
    var k, a := job.next, job.cmd.action;
    var n := Note(Issued(k, a), job.pc.guard);
    var s1 := Apply(s, Call(j, o));
    assert WaitingOk(start, s, job);
    if s.entries[k].powerState == Required(Other(a)) {
      var path := MixesLater(s1, k, a, s.entries[k].clusterName, |s.log|);
    } else {
      CallConsistent(start, s, j, o);
      PermittedAppend(start, s.log, n);
      CachePermits(start, s, k, Other(a));
      forall path: seq<State> | IsFreshContinuation(path, s1)
        ensures OneKind(path[|path| - 1].log)
      {
        var log := path[|path| - 1].log;
        PathPermittedBut(start, path, s1, |path| - 1, |s.log|);
        assert log[..|s.log|] == s.log && log[|s.log|] == n;
        assert s.log[..|s.log|] == s.log;
        PermittedButIsOneKind(start, log, |s.log|);
      }
    }
  }

  /** For the two states that a cluster can be in, that is the guard's own test, made again at
      the call. */
  lemma FreshIffAlwaysOneKind(start: seq<Entry>, s: State, j: nat, o: Outcome)
    requires Consistent(start, s) && AllPermitted(start, s.log) && Enabled(s, Call(j, o))
    requires s.entries[s.jobs[j].next].powerState in {"Running", "Stopped"}
    ensures Fresh(s, Call(j, o)) <==>
            forall path: seq<State> :: IsFreshContinuation(path, Apply(s, Call(j, o))) ==> OneKind(path[|path| - 1].log)
  {
    assert "Stopped"[0] == 'S' && "Running"[0] == 'R';
    CallKeepsOneKindIff(start, s, j, o);
  }

  // ---------- Runs of the code that fail ----------

  /** One more step at the end of a run. */
  lemma Extended(r: Reading, run: seq<State>, a: Step) returns (run': seq<State>)
    requires IsRun(r, run) && Enabled(run[|run| - 1], a) && Allowed(r, run[|run| - 1], a)
    ensures run' == run + [Apply(run[|run| - 1], a)] && IsRun(r, run')
  {
    var last := run[|run| - 1];
    run' := run + [Apply(last, a)];
    assert Next(r, last, Apply(last, a));
    forall i | 0 <= i < |run'| - 1
      ensures Next(r, run'[i], run'[i + 1])
    {
      if i < |run| - 1 {
        assert run'[i] == run[i] && run'[i + 1] == run[i + 1];
      }
    }
  }

  const STOPPED_ENTRY := Entry("n", "g", "c", "Stopped", None)

  /** A start passes its guard, a refresh finds the cluster running, and a stop comes to it. */
  lemma StaleStart() returns (run: seq<State>)
    ensures IsRun(Separate, run)
    ensures var s := run[|run| - 1];
            && |s.entries| == 1 && s.entries[0].powerState == "Running"
            && s.entries[0].clusterName == "c" && Configured(s.entries[0])
            && s.jobs == [Job(Act(Start, "c"), 0, AtCall(0)), Job(Status("ALL"), 1, AtEntry), Job(Act(Stop, "c"), 0, AtEntry)]
            && s.log == [Note(Refreshed(0, "Running"), 0)]
  {
    var o := Success(ClusterInfo("Running"));
    run := [State([STOPPED_ENTRY], [], [])];
    run := Extended(Separate, run, Launch(Act(Start, "c")));
    run := Extended(Separate, run, Guard(0));
    run := Extended(Separate, run, Launch(Status("ALL")));
    run := Extended(Separate, run, Advance(1, o));
    run := Extended(Separate, run, Launch(Act(Stop, "c")));
  }

  /** The code does not keep the rule: between two refreshes a cluster is started and stopped. */
  lemma SeparateReadingMixes() returns (run: seq<State>)
    ensures IsRun(Separate, run) && !OneKind(run[|run| - 1].log)
  {
    var o := Success(ClusterInfo("Running"));
    run := StaleStart();
    StaleCallBreaks(run[|run| - 1], 0, 2, o);
    run := Extended(Separate, run, Call(0, o));
    run := Extended(Separate, run, Guard(2));
    run := Extended(Separate, run, Call(2, o));
  }

  /** A stale call alone does not break it yet: freshness is exact for each action being
      permitted, not for one kind. */
  lemma StaleCallCanPass() returns (run: seq<State>)
    ensures IsRun(Separate, run)
    ensures OneKind(run[|run| - 1].log) && !AllPermitted(run[0].entries, run[|run| - 1].log)
  {
    var o := Success(ClusterInfo("Running"));
    run := StaleStart();
    var s := run[|run| - 1];
    RunConsistent(Separate, run, |run| - 1);
    StepPermitted(run[0].entries, s, Call(0, o));
    assert "Stopped"[0] == 'S' && "Running"[0] == 'R';
    assert !Fresh(s, Call(0, o));
    StepOneKind(s, Call(0, o));
    run := Extended(Separate, run, Call(0, o));
  }

  // ---------- A run alone ----------

  /** The state of job 0, started on entries v and left alone, after n turns. */
  function Alone(v: seq<Entry>, cmd: Command, oracle: nat -> Outcome, n: nat): State
    requires n <= |v|
    ensures |Alone(v, cmd, oracle, n).entries| == |v| && |Alone(v, cmd, oracle, n).jobs| == 1
    ensures !Alone(v, cmd, oracle, n).jobs[0].pc.AtCall?
    ensures Alone(v, cmd, oracle, n).jobs[0].pc.AtEntry? ==> Alone(v, cmd, oracle, n).jobs[0].next == n
  {
    if n == 0 then State(v, [Job(cmd, 0, AtEntry)], [])
    else
      var s := Alone(v, cmd, oracle, n - 1);
      if s.jobs[0].pc.Over? then s else Apply(s, Advance(0, oracle(n - 1)))
  }

  function Events(log: seq<Note>): seq<Event> {
    seq(|log|, i requires 0 <= i < |log| => log[i].event)
  }

  /** The state of a job left alone shows the progress of its Run loop after n turns. */
  predicate Mirrors(s: State, cmd: Command, p: Progress, n: nat) {
    && |s.jobs| == 1 && s.jobs[0].cmd == cmd && !s.jobs[0].pc.AtCall?
    && (s.jobs[0].pc.AtEntry? ==> s.jobs[0].next == n)
    && s.entries == p.entries && Events(s.log) == p.events && s.jobs[0].pc.Over? == p.error.Some?
  }

  lemma MirrorsNext(s: State, cmd: Command, p: Progress, n: nat, o: Outcome, t: Turn)
    requires Mirrors(s, cmd, p, n) && p.error.None? && n < |p.entries|
    requires t == VisitEntry(cmd, n, p.entries[n], o)
    ensures Mirrors(Apply(s, Advance(0, o)), cmd,
                    Progress(p.entries[n := t.entry], p.events + t.events, p.done + t.done, t.error), n + 1)
  {
    var s' := Apply(s, Advance(0, o));
    assert Events(s'.log) == Events(s.log) + t.events;
  }

  lemma AloneNext(v: seq<Entry>, cmd: Command, oracle: nat -> Outcome, n: nat, s: State)
    requires n < |v| && s == Alone(v, cmd, oracle, n)
    ensures Alone(v, cmd, oracle, n + 1) == if s.jobs[0].pc.Over? then s else Apply(s, Advance(0, oracle(n)))
  {
  }

  lemma AloneTurn(v: seq<Entry>, cmd: Command, oracle: nat -> Outcome, n: nat)
    requires n < |v| && Mirrors(Alone(v, cmd, oracle, n), cmd, Fold(v, Turns(v, cmd, oracle), n), n)
    ensures Mirrors(Alone(v, cmd, oracle, n + 1), cmd, Fold(v, Turns(v, cmd, oracle), n + 1), n + 1)
  {
    var turns := Turns(v, cmd, oracle);
    var s, p := Alone(v, cmd, oracle, n), Fold(v, turns, n);
    AloneNext(v, cmd, oracle, n, s);
    if p.error.None? {
      var t := VisitEntry(cmd, n, p.entries[n], oracle(n));
      RunTurn(v, cmd, oracle, n, p, t);
      MirrorsNext(s, cmd, p, n, oracle(n), t);
    } else {
      ErrorStays(v, turns, n, n + 1);
    }
  }

  /** A job launched and left alone does, step by step, what the Run loop does: same entries, same events,
      and it is over exactly if the loop has failed. By GuardThenCall this holds in both readings. */
  lemma {:induction false} AloneIsRun(v: seq<Entry>, cmd: Command, oracle: nat -> Outcome, n: nat)
    requires n <= |v|
    ensures Alone(v, cmd, oracle, 0) == Apply(State(v, [], []), Launch(cmd))
    ensures Mirrors(Alone(v, cmd, oracle, n), cmd, Fold(v, Turns(v, cmd, oracle), n), n)
  {
    if n > 0 {
      AloneIsRun(v, cmd, oracle, n - 1);
      AloneTurn(v, cmd, oracle, n - 1);
    }
  }
}

/** The per-cluster in-flight marker of the web handler (Web/Utils/PageHandler.go).

    Every POST starts a goroutine running `executeCommand`: Get the marker, Add one
    (the result of Add is thrown away), call the server, Delete the marker. Each of the
    four is a step of its own here, and any number of goroutines interleave.
    `CheckAndAdd` is the coarser step in which Get and Add happen at once. */
module InFlight {
  import opened Wrappers

  datatype Pc = AtGet | AtAdd | AtCall | AtDelete | Done

  /** One goroutine; `recorded` says that its Add stored its own state. */
  datatype Job = Job(cluster: string, state: string, pc: Pc, recorded: bool) {
    /** Between its Add and its Delete. */
    predicate Active() { pc.AtCall? || pc.AtDelete? }
  }

  /** `refused` counts the Add calls that returned an error, which the code ignores. */
  datatype State = State(cache: map<string, string>, jobs: seq<Job>, refused: nat)

  datatype Action =
    | Spawn(cluster: string, state: string)
    | Get(job: nat)
    | Add(job: nat)
    | CheckAndAdd(job: nat)
    | Call(job: nat)
    | Delete(job: nat)

  const INIT := State(map[], [], 0)

  predicate Enabled(s: State, a: Action) {
    match a
    case Spawn(_, _) => true
    case Get(j) => j < |s.jobs| && s.jobs[j].pc.AtGet?
    case CheckAndAdd(j) => j < |s.jobs| && s.jobs[j].pc.AtGet?
    case Add(j) => j < |s.jobs| && s.jobs[j].pc.AtAdd?
    case Call(j) => j < |s.jobs| && s.jobs[j].pc.AtCall?
    case Delete(j) => j < |s.jobs| && s.jobs[j].pc.AtDelete?
  }

  function Move(s: State, j: nat, pc: Pc): State
    requires j < |s.jobs|
  {
    s.(jobs := s.jobs[j := s.jobs[j].(pc := pc)])
  }

  /** go-cache's Add: stores only when the key is free, and reports whether it did. */
  function AddMarker(s: State, j: nat): State
    requires j < |s.jobs|
  {
    var job := s.jobs[j];
    if job.cluster in s.cache then
      Move(s, j, AtCall).(refused := s.refused + 1)
    else
      State(s.cache[job.cluster := job.state], s.jobs[j := job.(pc := AtCall, recorded := true)], s.refused)
  }

  function Apply(s: State, a: Action): State
    requires Enabled(s, a)
  {
    match a
    case Spawn(c, st) => s.(jobs := s.jobs + [Job(c, st, AtGet, false)])
    case Get(j) => Move(s, j, if s.jobs[j].cluster in s.cache then Done else AtAdd)
    case CheckAndAdd(j) => if s.jobs[j].cluster in s.cache then Move(s, j, Done) else AddMarker(s, j)
    case Add(j) => AddMarker(s, j)
    case Call(j) => Move(s, j, AtDelete)
    case Delete(j) => Move(s, j, Done).(cache := s.cache - {s.jobs[j].cluster})
  }

  /** Which of the two readings of Get and Add a run uses; the code is `Separate`. */
  datatype Reading = Separate | Atomic

  predicate Allowed(r: Reading, a: Action) {
    match r
    case Separate => !a.CheckAndAdd?
    case Atomic => !a.Get? && !a.Add?
  }

  ghost predicate Step(r: Reading, s: State, s': State) {
    exists a :: Allowed(r, a) && Enabled(s, a) && s' == Apply(s, a)
  }

  ghost predicate IsRun(r: Reading, run: seq<State>) {
    && 0 < |run|
    && run[0] == INIT
    && forall i :: 0 <= i < |run| - 1 ==> Step(r, run[i], run[i + 1])
  }

  // ---------- What every interleaving keeps ----------

  predicate Holds(s: State, c: string, j: nat)
    requires c in s.cache
  {
    && j < |s.jobs|
    && s.jobs[j].cluster == c
    && s.jobs[j].Active()
    && s.jobs[j].recorded
    && s.jobs[j].state == s.cache[c]
  }

  /** A marker means that a job between its Add and its Delete recorded that very value. */
  ghost predicate MarkersOwned(s: State) {
    forall c :: c in s.cache ==> exists j :: Holds(s, c, j)
  }

  lemma StepKeepsMarkersOwned(s: State, a: Action)
    requires MarkersOwned(s) && Enabled(s, a)
    ensures MarkersOwned(Apply(s, a))
  {
    var s' := Apply(s, a);
    forall c | c in s'.cache
      ensures exists j :: Holds(s', c, j)
    {
      if c in s.cache {
        var j :| Holds(s, c, j);
        assert Holds(s', c, j);
      } else {
        assert Holds(s', c, a.job);
      }
    }
  }

  lemma {:induction false} MarkersOwnedInRun(r: Reading, run: seq<State>, i: nat)
    requires IsRun(r, run) && i < |run|
    ensures MarkersOwned(run[i])
  {
    if i > 0 {
      MarkersOwnedInRun(r, run, i - 1);
      assert Step(r, run[i - 1], run[i - 1 + 1]);
      var a :| Allowed(r, a) && Enabled(run[i - 1], a) && run[i] == Apply(run[i - 1], a);
      StepKeepsMarkersOwned(run[i - 1], a);
    }
  }

  /** A cache that is not empty means some job is between its Add and its Delete; so when
      no job is, no marker remains. */
  lemma NoJobNoMarker(r: Reading, run: seq<State>, i: nat)
    requires IsRun(r, run) && i < |run|
    ensures run[i].cache != map[] ==> exists j :: 0 <= j < |run[i].jobs| && run[i].jobs[j].Active()
  {
    MarkersOwnedInRun(r, run, i);
    if run[i].cache != map[] {
      var c :| c in run[i].cache;
      var j: nat :| Holds(run[i], c, j);
      assert run[i].jobs[j].Active();
    }
  }

  // ---------- What a job has seen ----------

  lemma StepOfJob(r: Reading, s: State, s': State, j: nat)
    requires Step(r, s, s') && j < |s'.jobs|
    ensures j >= |s.jobs| ==> s'.jobs[j].pc.AtGet?
    ensures j < |s.jobs| ==> s'.jobs[j].cluster == s.jobs[j].cluster
    ensures j < |s.jobs| && s.jobs[j].pc.AtGet? && !s'.jobs[j].pc.AtGet? && !s'.jobs[j].pc.Done? ==>
              s.jobs[j].cluster !in s.cache
    ensures j < |s.jobs| && s.jobs[j].pc.Done? ==> s'.jobs[j].pc.Done?
  {
  }

  /** In either reading: a job on its way past its Get has found no marker of its cluster, in an
      earlier step of the run in which it stood at its Get. */
  lemma {:induction false} HasLooked(r: Reading, run: seq<State>, i: nat, j: nat) returns (n: nat)
    requires IsRun(r, run) && i < |run| && j < |run[i].jobs|
    requires run[i].jobs[j].pc.AtAdd? || run[i].jobs[j].Active()
    ensures n < i && j < |run[n].jobs| && run[n].jobs[j].pc.AtGet?
    ensures run[n].jobs[j].cluster == run[i].jobs[j].cluster && run[i].jobs[j].cluster !in run[n].cache
    ensures j < |run[n + 1].jobs| && (run[n + 1].jobs[j].pc.AtAdd? || run[n + 1].jobs[j].Active())
  {
    assert i > 0;
    assert Step(r, run[i - 1], run[i - 1 + 1]);
    StepOfJob(r, run[i - 1], run[i], j);
    if run[i - 1].jobs[j].pc.AtGet? {
      n := i - 1;
    } else {
      n := HasLooked(r, run, i - 1, j);
    }
  }

  lemma {:induction false} JobsStay(r: Reading, run: seq<State>, n: nat, i: nat, j: nat)
    requires IsRun(r, run) && n <= i < |run| && j < |run[n].jobs|
    ensures j < |run[i].jobs|
    decreases i
  {
    if n < i {
      JobsStay(r, run, n, i - 1, j);
      assert Step(r, run[i - 1], run[i - 1 + 1]);
    }
  }

  /** A job spawned while its cluster has a marker that stays never gets to call the server. */
  lemma MarkedJobWaits(r: Reading, run: seq<State>, n: nat, i: nat, j: nat)
    requires IsRun(r, run) && n <= i < |run| && |run[n].jobs| <= j < |run[i].jobs|
    requires forall m :: n <= m <= i ==> run[i].jobs[j].cluster in run[m].cache
    ensures run[i].jobs[j].pc.AtGet? || run[i].jobs[j].pc.Done?
  {
    if run[i].jobs[j].pc.AtAdd? || run[i].jobs[j].Active() {
      var m := HasLooked(r, run, i, j);
      if m <= n {
        JobsStay(r, run, m, n, j);
      }
    }
  }

  // ---------- Mutual exclusion ----------

  predicate Conflict(s: State, i: nat, j: nat) {
    && i < j < |s.jobs|
    && s.jobs[i].Active() && s.jobs[j].Active()
    && s.jobs[i].cluster == s.jobs[j].cluster
  }

  /** At most one remote command per cluster is in flight. */
  ghost predicate Exclusive(s: State) {
    forall i, j :: !Conflict(s, i, j)
  }

  predicate Flies(s: State, c: string, j: nat) {
    j < |s.jobs| && s.jobs[j].Active() && s.jobs[j].cluster == c
  }

  /** A marker exists exactly for the clusters with a command in flight. */
  ghost predicate MarkersExact(s: State) {
    forall c :: c in s.cache <==> exists j :: Flies(s, c, j)
  }

  ghost predicate Guarded(s: State) {
    Exclusive(s) && MarkersExact(s)
  }

  lemma ExclusiveKept(s: State, a: Action)
    requires Guarded(s) && Enabled(s, a) && Apply(s, a).refused == s.refused
    ensures Exclusive(Apply(s, a))
  {
    var s' := Apply(s, a);
    forall i: nat, j: nat
      ensures !Conflict(s', i, j)
    {
      if i < j < |s'.jobs| {
        var c := s'.jobs[i].cluster;
        assert !Conflict(s, i, j);
        assert Flies(s, c, i) ==> c in s.cache;
        assert Flies(s, c, j) ==> c in s.cache;
      }
    }
  }

  lemma MarkersExactKept(s: State, a: Action)
    requires Guarded(s) && Enabled(s, a) && Apply(s, a).refused == s.refused
    ensures MarkersExact(Apply(s, a))
  {
    var s' := Apply(s, a);
    forall c
      ensures c in s'.cache <==> exists j :: Flies(s', c, j)
    {
      if c in s'.cache {
        if c in s.cache {
          var j :| Flies(s, c, j);
          assert Flies(s', c, j) by {
            if a.Delete? && a.job != j {
              assert !Conflict(s, a.job, j) && !Conflict(s, j, a.job);
            }
          }
        } else {
          assert Flies(s', c, a.job);
        }
      }
      if j :| Flies(s', c, j) {
        if Flies(s, c, j) {
          assert c in s.cache;
          if a.Delete? {
            assert !Conflict(s, a.job, j) && !Conflict(s, j, a.job);
          }
        }
      }
    }
  }

  lemma {:induction false} NoRefusalGuards(r: Reading, run: seq<State>, i: nat)
    requires IsRun(r, run) && i < |run| && run[i].refused == 0
    ensures Guarded(run[i])
  {
    if i == 0 {
      assert forall c, j :: !Flies(INIT, c, j);
    } else {
      assert Step(r, run[i - 1], run[i - 1 + 1]);
      var a :| Allowed(r, a) && Enabled(run[i - 1], a) && run[i] == Apply(run[i - 1], a);
      NoRefusalGuards(r, run, i - 1);
      ExclusiveKept(run[i - 1], a);
      MarkersExactKept(run[i - 1], a);
    }
  }

  lemma {:induction false} RefusedGrows(r: Reading, run: seq<State>, i: nat, j: nat)
    requires IsRun(r, run) && i <= j < |run|
    ensures run[i].refused <= run[j].refused
    decreases j
  {
    if i < j {
      RefusedGrows(r, run, i, j - 1);
      assert Step(r, run[j - 1], run[j - 1 + 1]);
    }
  }

  /** The step in which an Add is refused puts a second command in flight. */
  lemma RefusalBreaksExclusion(s: State, a: Action)
    requires MarkersOwned(s) && Enabled(s, a)
    requires Apply(s, a).refused != s.refused
    ensures !Exclusive(Apply(s, a))
  {
    var s' := Apply(s, a);
    var c := s.jobs[a.job].cluster;
    var j: nat :| Holds(s, c, j);
    assert Conflict(s', if j < a.job then j else a.job, if j < a.job then a.job else j);
  }

  lemma {:induction false} FirstRefusal(r: Reading, run: seq<State>, n: nat) returns (k: nat)
    requires IsRun(r, run) && n < |run| && run[n].refused > 0
    ensures 0 < k <= n && !Exclusive(run[k])
  {
    assert n > 0;
    if run[n - 1].refused > 0 {
      k := FirstRefusal(r, run, n - 1);
    } else {
      k := n;
      MarkersOwnedInRun(r, run, n - 1);
      assert Step(r, run[n - 1], run[n - 1 + 1]);
      var a :| Allowed(r, a) && Enabled(run[n - 1], a) && run[n] == Apply(run[n - 1], a);
      RefusalBreaksExclusion(run[n - 1], a);
    }
  }

  /** Exactly when the code keeps one command per cluster in flight: in a run, every state
      is exclusive if and only if no Add of that run returned the error the code ignores. */
  lemma ExclusiveIffNoAddRefused(r: Reading, run: seq<State>)
    requires IsRun(r, run)
    ensures (forall i :: 0 <= i < |run| ==> Exclusive(run[i])) <==> run[|run| - 1].refused == 0
  {
    if run[|run| - 1].refused == 0 {
      forall i | 0 <= i < |run|
        ensures Exclusive(run[i])
      {
        RefusedGrows(r, run, i, |run| - 1);
        NoRefusalGuards(r, run, i);
      }
    } else {
      var k := FirstRefusal(r, run, |run| - 1);
    }
  }

  lemma {:induction false} AtomicNeverRefused(run: seq<State>, i: nat)
    requires IsRun(Atomic, run) && i < |run|
    ensures run[i].refused == 0
  {
    if i > 0 {
      AtomicNeverRefused(run, i - 1);
      assert Step(Atomic, run[i - 1], run[i - 1 + 1]);
    }
  }

  /** With Get and Add as one step: one command per cluster, and exact markers, always. */
  lemma AtomicGuards(run: seq<State>, i: nat)
    requires IsRun(Atomic, run) && i < |run|
    ensures Exclusive(run[i]) && MarkersExact(run[i])
  {
    AtomicNeverRefused(run, i);
    NoRefusalGuards(Atomic, run, i);
  }

  /** The reading is not empty: its jobs get to call, and the marker is theirs. */
  lemma AtomicFlies(c: string, state: string) returns (run: seq<State>)
    ensures IsRun(Atomic, run)
    ensures Flies(run[|run| - 1], c, 0) && run[|run| - 1].cache == map[c := state]
  {
    var s1 := Apply(INIT, Spawn(c, state));
    var s2 := Apply(s1, CheckAndAdd(0));
    assert Allowed(Atomic, Spawn(c, state)) && Allowed(Atomic, CheckAndAdd(0));
    run := [INIT, s1, s2];
  }

  /** No step of a job touches the marker of another cluster, in either reading. */
  lemma OtherClustersUntouched(s: State, a: Action, c: string)
    requires Enabled(s, a) && !a.Spawn? && c != s.jobs[a.job].cluster
    ensures c in Apply(s, a).cache <==> c in s.cache
    ensures c in s.cache ==> Apply(s, a).cache[c] == s.cache[c]
    ensures forall j :: 0 <= j < |s.jobs| && s.jobs[j].cluster == c ==> Apply(s, a).jobs[j] == s.jobs[j]
  {
  }

  /** The code's own reading does not exclude: two commands for one cluster in flight. */
  lemma SeparateReadingConflicts(c: string) returns (run: seq<State>)
    ensures IsRun(Separate, run)
    ensures Conflict(run[|run| - 1], 0, 1) && run[|run| - 1].jobs[0].cluster == c
    ensures run[|run| - 1]
         == State(map[c := "Starting"], [Job(c, "Starting", AtCall, true), Job(c, "Stopping", AtCall, false)], 1)
  {
    var s1 := Apply(INIT, Spawn(c, "Starting"));
    var s2 := Apply(s1, Spawn(c, "Stopping"));
    var s3 := Apply(s2, Get(0));
    var s4 := Apply(s3, Get(1));
    var s5 := Apply(s4, Add(0));
    var s6 := Apply(s5, Add(1));
    assert Allowed(Separate, Spawn(c, "Starting")) && Allowed(Separate, Spawn(c, "Stopping"));
    assert Allowed(Separate, Get(0)) && Allowed(Separate, Get(1));
    assert Allowed(Separate, Add(0)) && Allowed(Separate, Add(1));
    run := [INIT, s1, s2, s3, s4, s5, s6];
  }

  /** Then the first of them to finish deletes the marker, and the other flies on without one. */
  lemma FirstToFinishUnmarks(c: string) returns (run: seq<State>)
    ensures IsRun(Separate, run)
    ensures var s := run[|run| - 1];
            Flies(s, c, 1) && c !in s.cache
  {
    run := SeparateReadingConflicts(c);
    var s6 := run[|run| - 1];
    var s7 := Apply(s6, Call(0));
    var s8 := Apply(s7, Delete(0));
    assert Allowed(Separate, Call(0)) && Allowed(Separate, Delete(0));
    assert Step(Separate, s6, s7) && Step(Separate, s7, s8);
    var n := |run|;
    run := run + [s7, s8];
    forall i | 0 <= i < |run| - 1
      ensures Step(Separate, run[i], run[i + 1])
    {
      assert i < n - 1 || i == n - 1 || i == n;
    }
  }

  // ---------- What the jobs that are waiting decide ----------

  /** Beforehand: an Add keeps one command per cluster in flight if and only if its cluster
      has no marker. */
  lemma AddKeepsExclusiveIff(s: State, j: nat)
    requires Guarded(s) && Enabled(s, Add(j))
    ensures Exclusive(Apply(s, Add(j))) <==> s.jobs[j].cluster !in s.cache
  {
    var s' := Apply(s, Add(j));
    var c := s.jobs[j].cluster;
    if c in s.cache {
      var k: nat :| Flies(s, c, k);
      assert Conflict(s', if k < j then k else j, if k < j then j else k);
    } else {
      ExclusiveKept(s, Add(j));
    }
  }

  /** On its way to a call on cluster c. */
  predicate Waiting(s: State, c: string, j: nat) {
    j < |s.jobs| && (s.jobs[j].pc.AtGet? || s.jobs[j].pc.AtAdd?) && s.jobs[j].cluster == c
  }

  /** No cluster has two waiting jobs, nor one past its Get while it has a marker. */
  ghost predicate Unhurried(s: State) {
    && (forall c, i: nat, j: nat :: Waiting(s, c, i) && Waiting(s, c, j) ==> i == j)
    && (forall c, j: nat :: Waiting(s, c, j) && s.jobs[j].pc.AtAdd? ==> c !in s.cache)
  }

  /** A step of the code that starts no new job. */
  ghost predicate Settles(s: State, s': State) {
    exists a: Action :: !a.Spawn? && Allowed(Separate, a) && Enabled(s, a) && s' == Apply(s, a)
  }

  ghost predicate IsContinuation(path: seq<State>, s: State) {
    && 0 < |path|
    && path[0] == s
    && forall i :: 0 <= i < |path| - 1 ==> Settles(path[i], path[i + 1])
  }

  lemma UnhurriedKept(s: State, a: Action)
    requires Guarded(s) && Unhurried(s) && Enabled(s, a) && !a.Spawn? && Allowed(Separate, a)
    ensures Guarded(Apply(s, a)) && Unhurried(Apply(s, a))
  {
    var s' := Apply(s, a);
    assert a.Add? ==> Waiting(s, s.jobs[a.job].cluster, a.job);
    ExclusiveKept(s, a);
    MarkersExactKept(s, a);
    forall c, j: nat | Waiting(s', c, j)
      ensures Waiting(s, c, j)
      ensures s'.jobs[j].pc.AtAdd? ==> c !in s'.cache
    {
      if a.Add? && s.jobs[a.job].cluster == c && j != a.job {
        assert Waiting(s, c, a.job) && Waiting(s, c, j);
      }
    }
  }

  lemma {:induction false} UnhurriedStays(s: State, path: seq<State>, n: nat)
    requires Guarded(s) && Unhurried(s) && IsContinuation(path, s) && n < |path|
    ensures Guarded(path[n]) && Unhurried(path[n])
  {
    if n > 0 {
      UnhurriedStays(s, path, n - 1);
      assert Settles(path[n - 1], path[n - 1 + 1]);
      var a: Action :| !a.Spawn? && Allowed(Separate, a) && Enabled(path[n - 1], a) && path[n] == Apply(path[n - 1], a);
      UnhurriedKept(path[n - 1], a);
    }
  }

  /** One step, then the rest. */
  lemma Prepended(s: State, a: Action, rest: seq<State>) returns (path: seq<State>)
    requires Enabled(s, a) && !a.Spawn? && Allowed(Separate, a) && IsContinuation(rest, Apply(s, a))
    ensures IsContinuation(path, s) && path[|path| - 1] == rest[|rest| - 1]
  {
    path := [s] + rest;
    assert Settles(s, Apply(s, a));
    forall i | 0 <= i < |path| - 1
      ensures Settles(path[i], path[i + 1])
    {
      if i > 0 {
        assert path[i] == rest[i - 1] && path[i + 1] == rest[i - 1 + 1];
      }
    }
  }

  /** A job past its Get breaks exclusion when it meets a marker. */
  lemma MeetsMarker(s: State, j: nat) returns (path: seq<State>)
    requires Guarded(s) && Enabled(s, Add(j)) && s.jobs[j].cluster in s.cache
    ensures IsContinuation(path, s) && !Exclusive(path[|path| - 1])
  {
    AddKeepsExclusiveIff(s, j);
    path := Prepended(s, Add(j), [Apply(s, Add(j))]);
  }

  /** A step of one job in which no Add is refused keeps the guard and the other jobs. */
  lemma GuardedStep(s: State, a: Action)
    requires Guarded(s) && Enabled(s, a) && !a.Spawn? && Apply(s, a).refused == s.refused
    ensures Guarded(Apply(s, a))
    ensures |Apply(s, a).jobs| == |s.jobs| && forall j :: 0 <= j < |s.jobs| && j != a.job ==> Apply(s, a).jobs[j] == s.jobs[j]
  {
    ExclusiveKept(s, a);
    MarkersExactKept(s, a);
  }

  /** Two jobs wait for a cluster without a marker: both Get, both Add. */
  lemma {:induction false} BothAdd(s: State, c: string, i: nat, j: nat) returns (path: seq<State>)
    requires Guarded(s) && Waiting(s, c, i) && Waiting(s, c, j) && i != j && c !in s.cache
    ensures IsContinuation(path, s) && !Exclusive(path[|path| - 1])
    decreases (if s.jobs[i].pc.AtGet? then 1 else 0) + (if s.jobs[j].pc.AtGet? then 1 else 0)
  {
    var a := if s.jobs[i].pc.AtGet? then Get(i) else if s.jobs[j].pc.AtGet? then Get(j) else Add(i);
    GuardedStep(s, a);
    if a.Get? {
      path := BothAdd(Apply(s, a), c, i, j);
    } else {
      path := MeetsMarker(Apply(s, a), j);
    }
    path := Prepended(s, a, path);
  }

  /** The same once the present command of the cluster is about to delete its marker. */
  lemma Finishes(s: State, c: string, k: nat, i: nat, j: nat) returns (path: seq<State>)
    requires Guarded(s) && Waiting(s, c, i) && Waiting(s, c, j) && i != j
    requires k < |s.jobs| && s.jobs[k].pc.AtDelete? && s.jobs[k].cluster == c
    ensures IsContinuation(path, s) && !Exclusive(path[|path| - 1])
  {
    GuardedStep(s, Delete(k));
    path := BothAdd(Apply(s, Delete(k)), c, i, j);
    path := Prepended(s, Delete(k), path);
  }

  /** Two jobs wait for a cluster: its present command finishes first, if there is one. */
  lemma BothWait(s: State, c: string, i: nat, j: nat) returns (path: seq<State>)
    requires Guarded(s) && Waiting(s, c, i) && Waiting(s, c, j) && i != j
    ensures IsContinuation(path, s) && !Exclusive(path[|path| - 1])
  {
    if c in s.cache {
      var k: nat :| Flies(s, c, k);
      if s.jobs[k].pc.AtCall? {
        GuardedStep(s, Call(k));
        path := Finishes(Apply(s, Call(k)), c, k, i, j);
        path := Prepended(s, Call(k), path);
      } else {
        path := Finishes(s, c, k, i, j);
      }
    } else {
      path := BothAdd(s, c, i, j);
    }
  }

  /** Exactly when nothing can go wrong any more with the jobs there are: every continuation
      keeps one command per cluster in flight, if and only if no cluster has two waiting jobs,
      nor one past its Get while it has a marker. */
  lemma AlwaysExclusiveIffUnhurried(s: State)
    requires Guarded(s)
    ensures (forall path :: IsContinuation(path, s) ==> Exclusive(path[|path| - 1])) <==> Unhurried(s)
  {
    if Unhurried(s) {
      forall path | IsContinuation(path, s)
        ensures Exclusive(path[|path| - 1])
      {
        UnhurriedStays(s, path, |path| - 1);
      }
    } else if c, j: nat :| Waiting(s, c, j) && s.jobs[j].pc.AtAdd? && c in s.cache {
      var path := MeetsMarker(s, j);
    } else {
      var c, i: nat, j: nat :| Waiting(s, c, i) && Waiting(s, c, j) && i != j;
      var path := BothWait(s, c, i, j);
    }
  }

  // ---------- The code itself ----------

  /** The shared cache; entries never expire (cache.NoExpiration). */
  class NebirosCache {
    var items: map<string, string>

    constructor ()
      ensures items == map[]
    {
      items := map[];
    }

    method Get(k: string) returns (r: Option<string>)
      ensures r.Some? <==> k in items
      ensures r.Some? ==> r.value == items[k]
    {
      r := if k in items then Some(items[k]) else None;
    }

    method Add(k: string, v: string) returns (ok: bool)
      modifies this
      ensures ok <==> k !in old(items)
      ensures items == if ok then old(items)[k := v] else old(items)
    {
      ok := k !in items;
      if ok {
        items := items[k := v];
      }
    }

    method Delete(k: string)
      modifies this
      ensures items == old(items) - {k}
    {
      items := items - {k};
    }
  }

  /** executeCommand. `beforeAdd` and `beforeDelete` are what the other goroutines have left in
      the cache when Add and Delete are reached. The body is the four steps of job 0 in order. */
  method ExecuteCommand(cache: NebirosCache, cluster: string, state: string,
                        beforeAdd: map<string, string>, beforeDelete: map<string, string>)
    returns (called: bool, atCall: map<string, string>)
    modifies cache
    ensures called <==> cluster !in old(cache.items)
    ensures !called ==> cache.items == old(cache.items)
    // Add stores nothing when another goroutine came first, and the call is made all the same
    ensures called ==> atCall == if cluster in beforeAdd then beforeAdd else beforeAdd[cluster := state]
    ensures called ==> cache.items == beforeDelete - {cluster}
    // the steps of one goroutine of the state machine, from its start, do the same
    ensures called <==> Apply(Apply(State(old(cache.items), [], 0), Spawn(cluster, state)), Get(0)).jobs[0].pc.AtAdd?
    ensures called ==> Apply(State(beforeAdd, [Job(cluster, state, AtAdd, false)], 0), Add(0)).cache == atCall
    ensures called ==> Apply(State(beforeDelete, [Job(cluster, state, AtDelete, true)], 0), Delete(0)).cache == cache.items
    // with nobody else about, the call leaves the cache as it found it
    ensures called && beforeAdd == old(cache.items) && beforeDelete == atCall ==> cache.items == old(cache.items)
  {
    atCall := cache.items;
    var found := cache.Get(cluster);
    if found.Some? {
      return false, atCall;
    }
    cache.items := beforeAdd;
    var _ := cache.Add(cluster, state);
    atCall := cache.items;
    called := true;
    cache.items := beforeDelete;
    cache.Delete(cluster);
  }
}

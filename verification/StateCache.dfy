/** The state cache that writes itself back to a file (Utils/StateCache.go): at once when the
    next tick is more than 30 seconds away, otherwise at that tick. Times are nanoseconds. */
module StateCache {
  import opened Wrappers

  type Time = int

  const SECOND: Time := 1_000_000_000
  const MARGIN: Time := 30 * SECOND

  // ---------- The timed system ----------

  /** What memory held, and from when. */
  datatype Moment = Moment(mem: map<string, string>, from: Time)

  /** A version of memory that SaveCache has encoded, and when. */
  datatype Snapshot = Snapshot(version: nat, at: Time)

  /** The cache with its ticker and the goroutines that are adding or saving. `history` lists
      all versions of memory, the last being the present one; `file` is the version written
      last. `checking` Adds have set their value and not yet looked at the next tick, `encoding`
      saves have been decided and not yet encoded, `pending` ones are encoded and not yet
      written, in the order of their encodings. The ticker fires every `interval`; its channel
      holds one tick (`firedAt`) until AutoSaver handles it, and further ticks are dropped
      meanwhile. Ticks are handled at most `slack` late, and writing a file takes at most `lag`;
      both may be 0. */
  datatype State = State(
    interval: Time, slack: Time, lag: Time, now: Time,
    history: seq<Moment>, file: nat, lastTickTime: Time,
    nextFire: Time, firedAt: Option<Time>,
    checking: nat, encoding: nat, pending: seq<Snapshot>)
  {
    predicate Wf() {
      && history != []
      && file < |history|
      && forall i :: 0 <= i < |pending| ==> pending[i].version < |history|
    }

    function Present(): nat
      requires Wf()
    {
      |history| - 1
    }

    function Memory(): map<string, string>
      requires Wf()
    {
      history[Present()].mem
    }

    function FileContents(): map<string, string>
      requires Wf()
    {
      history[file].mem
    }

    /** No goroutine is in the middle of something. */
    predicate Idle() {
      checking == 0 && encoding == 0 && pending == []
    }

    /** What Add asks: more than MARGIN to go to the next tick. */
    predicate Far() {
      lastTickTime + interval - now > MARGIN
    }
  }

  /** `Add` and `Tick` are the coarser steps in which a goroutine does all it does at once. */
  datatype Action =
    | Advance(elapsed: nat)
    | Fire
    | HandleTick
    | Set(key: string, value: string)
    | Check
    | Encode
    | Write(index: nat)
    | Add(key: string, value: string)
    | Tick

  /** A new cache without a file, or one that has loaded its file. */
  predicate Starts(s: State) {
    && s.interval > 0 && s.slack >= 0 && s.lag >= 0
    && |s.history| == 1 && s.history[0].from == s.now && s.file == 0
    && s.lastTickTime == s.now && s.nextFire == s.now + s.interval && s.firedAt == None
    && s.Idle()
  }

  predicate Enabled(s: State, a: Action) {
    match a
    // time does not pass a due firing, the latest time to handle a tick or to have written
    case Advance(d) =>
      && s.checking == 0 && s.encoding == 0
      && s.now + d <= s.nextFire
      && (s.firedAt.Some? ==> s.now + d <= s.firedAt.value + s.slack)
      && forall i :: 0 <= i < |s.pending| ==> s.now + d <= s.pending[i].at + s.lag
    case Fire => s.now == s.nextFire
    case HandleTick => s.firedAt.Some?
    case Set(_, _) => true
    case Check => s.checking > 0
    case Encode => s.encoding > 0
    case Write(i) => i < |s.pending|
    case Add(_, _) => s.Idle()
    case Tick => s.firedAt.Some? && s.Idle()
  }

  function SetStep(s: State, key: string, value: string): State
    requires s.Wf()
  {
    s.(history := s.history + [Moment(s.Memory()[key := value], s.now)], checking := s.checking + 1)
  }

  function CheckStep(s: State): State
    requires s.checking > 0
  {
    s.(checking := s.checking - 1, encoding := if s.Far() then s.encoding + 1 else s.encoding)
  }

  function EncodeStep(s: State): State
    requires s.Wf() && s.encoding > 0
  {
    s.(encoding := s.encoding - 1, pending := s.pending + [Snapshot(s.Present(), s.now)])
  }

  function WriteStep(s: State, i: nat): State
    requires i < |s.pending|
  {
    s.(file := s.pending[i].version, pending := s.pending[..i] + s.pending[i + 1..])
  }

  function TickStep(s: State): State
    requires s.firedAt.Some?
  {
    s.(lastTickTime := s.now, firedAt := None, encoding := s.encoding + 1)
  }

  /** Encode, then write what was encoded, when nothing else is pending. */
  function SaveStep(s: State): State
    requires s.Wf() && s.encoding > 0 && s.pending == []
  {
    WriteStep(EncodeStep(s), 0)
  }

  function AddStep(s: State, key: string, value: string): State
    requires s.Wf() && s.Idle()
  {
    var s' := CheckStep(SetStep(s, key, value));
    if s'.encoding == 0 then s' else SaveStep(s')
  }

  function Apply(s: State, a: Action): State
    requires s.Wf() && Enabled(s, a)
  {
    match a
    case Advance(d) => s.(now := s.now + d)
    case Fire =>
      s.(nextFire := s.nextFire + s.interval, firedAt := if s.firedAt.Some? then s.firedAt else Some(s.now))
    case HandleTick => TickStep(s)
    case Set(k, v) => SetStep(s, k, v)
    case Check => CheckStep(s)
    case Encode => EncodeStep(s)
    case Write(i) => WriteStep(s, i)
    case Add(k, v) => AddStep(s, k, v)
    case Tick => SaveStep(TickStep(s))
  }

  /** The code is `Separate`: saves may overtake one another. `InOrder` is the same with files
      written in the order of their encodings, `Merged` has no steps inside Add and a tick. */
  datatype Reading = Separate | InOrder | Merged

  predicate Allowed(r: Reading, a: Action) {
    match r
    case Separate => !a.Add? && !a.Tick?
    case InOrder => !a.Add? && !a.Tick? && (a.Write? ==> a.index == 0)
    case Merged => a.Advance? || a.Fire? || a.Add? || a.Tick?
  }

  ghost predicate Step(r: Reading, s: State, s': State) {
    s.Wf() && exists a :: Allowed(r, a) && Enabled(s, a) && s' == Apply(s, a)
  }

  ghost predicate IsPath(r: Reading, path: seq<State>) {
    && 0 < |path|
    && forall i :: 0 <= i < |path| - 1 ==> Step(r, path[i], path[i + 1])
  }

  ghost predicate IsRun(r: Reading, run: seq<State>) {
    IsPath(r, run) && Starts(run[0])
  }

  // ---------- What every interleaving keeps ----------

  /** The next tick to be handled: the one in the channel, or the next to be fired. */
  function Due(s: State): Time {
    if s.firedAt.Some? then s.firedAt.value else s.nextFire
  }

  /** The next save is no later than lastTickTime + interval, but for the slack. */
  predicate TickInTime(s: State) {
    && s.interval > 0 && s.slack >= 0 && s.lag >= 0
    && s.lastTickTime <= s.now <= s.nextFire <= s.now + s.interval
    && Due(s) <= s.lastTickTime + s.interval
    && s.now <= Due(s) + s.slack
  }

  predicate Behind(s: State, v: nat) {
    v + 1 < |s.history|
  }

  /** When version v ceased to be the present one. */
  function Fell(s: State, v: nat): Time
    requires Behind(s, v)
  {
    s.history[v + 1].from
  }

  predicate Sorted(history: seq<Moment>, now: Time) {
    && (forall i, j :: 0 <= i <= j < |history| ==> history[i].from <= history[j].from)
    && forall i :: 0 <= i < |history| ==> history[i].from <= now
  }

  /** A snapshot was the present version when it was encoded, and is not overdue. */
  predicate Encoded(s: State, p: Snapshot) {
    && p.at <= s.now <= p.at + s.lag
    && (Behind(s, p.version) ==> p.at <= Fell(s, p.version))
  }

  predicate Timed(s: State) {
    && s.Wf() && TickInTime(s) && Sorted(s.history, s.now)
    && forall i :: 0 <= i < |s.pending| ==> Encoded(s, s.pending[i])
  }

  lemma SetTimed(s: State, key: string, value: string)
    requires Timed(s)
    ensures Timed(SetStep(s, key, value))
  {
    var s' := SetStep(s, key, value);
    forall i | 0 <= i < |s'.pending|
      ensures Encoded(s', s'.pending[i])
    {
      assert Encoded(s, s.pending[i]);
    }
  }

  lemma EncodeTimed(s: State)
    requires Timed(s) && s.encoding > 0
    ensures Timed(EncodeStep(s))
  {
    var s' := EncodeStep(s);
    forall i | 0 <= i < |s'.pending|
      ensures Encoded(s', s'.pending[i])
    {
      assert i < |s.pending| ==> Encoded(s, s.pending[i]);
    }
  }

  lemma WriteTimed(s: State, i: nat)
    requires Timed(s) && i < |s.pending|
    ensures Timed(WriteStep(s, i))
  {
    var s' := WriteStep(s, i);
    forall j | 0 <= j < |s'.pending|
      ensures Encoded(s', s'.pending[j]) && s'.pending[j].version < |s'.history|
    {
      assert Encoded(s, s.pending[if j < i then j else j + 1]);
    }
  }

  lemma AdvanceTimed(s: State, d: nat)
    requires Timed(s) && Enabled(s, Advance(d))
    ensures Timed(Apply(s, Advance(d)))
  {
    var s' := Apply(s, Advance(d));
    forall i | 0 <= i < |s'.pending|
      ensures Encoded(s', s'.pending[i])
    {
      assert Encoded(s, s.pending[i]);
    }
  }

  lemma SameTimed(s: State, s': State)
    requires Timed(s) && TickInTime(s')
    requires s'.now == s.now && s'.lag == s.lag && s'.history == s.history && s'.file == s.file && s'.pending == s.pending
    ensures Timed(s')
  {
    forall i | 0 <= i < |s'.pending|
      ensures Encoded(s', s'.pending[i])
    {
      assert Encoded(s, s.pending[i]);
    }
  }

  /** Everything but the two merged steps. */
  lemma FineTimed(s: State, a: Action)
    requires Timed(s) && Allowed(Separate, a) && Enabled(s, a)
    ensures Timed(Apply(s, a))
  {
    match a
    case Advance(d) => AdvanceTimed(s, d);
    case Set(k, v) => SetTimed(s, k, v);
    case Encode => EncodeTimed(s);
    case Write(i) => WriteTimed(s, i);
    case Fire => SameTimed(s, Apply(s, Fire));
    case Check => SameTimed(s, CheckStep(s));
    case HandleTick => SameTimed(s, TickStep(s));
  }

  // ---------- Staleness ----------

  /** Version v is the present one, or has been behind for at most `bound`. */
  predicate Within(s: State, v: nat, bound: Time) {
    Behind(s, v) ==> s.now - Fell(s, v) <= bound
  }

  /** The file is what memory held until at most 30 seconds ago, plus however late ticks are
      handled and however long writing takes. */
  predicate InBound(s: State) {
    Within(s, s.file, MARGIN + s.slack + s.lag)
  }

  /** What the file will be when all that is pending is written in order. */
  function Upcoming(s: State): nat {
    if s.pending == [] then s.file else s.pending[|s.pending| - 1].version
  }

  /** Version v is the present one, or the next tick is due at most MARGIN after it fell behind. */
  predicate Fine(s: State, v: nat) {
    Behind(s, v) ==> Due(s) - Fell(s, v) <= MARGIN
  }

  /** The present memory is about to be saved, or the tick comes in time. */
  predicate Safe(s: State) {
    s.encoding > 0 || (s.checking > 0 && s.Far()) || Fine(s, Upcoming(s))
  }

  /** At time t version v was not behind for longer than ticks allow. */
  predicate Timely(s: State, v: nat, t: Time) {
    Behind(s, v) && Fell(s, v) <= t ==> t - Fell(s, v) <= MARGIN + s.slack
  }

  /** What the file is before the i-th pending snapshot is written. */
  function Previous(s: State, i: nat): nat
    requires i < |s.pending|
  {
    if i == 0 then s.file else s.pending[i - 1].version
  }

  /** No pending snapshot was waited for too long. */
  predicate Chained(s: State) {
    forall i :: 0 <= i < |s.pending| ==> Timely(s, Previous(s, i), s.pending[i].at)
  }

  /** What files written in order keep. */
  predicate Ordered(s: State) {
    Timed(s) && Chained(s) && Safe(s) && Within(s, Upcoming(s), MARGIN + s.slack)
  }

  lemma OrderedInBound(s: State)
    requires Ordered(s)
    ensures InBound(s)
  {
    if s.pending != [] {
      assert Timely(s, Previous(s, 0), s.pending[0].at);
      assert Encoded(s, s.pending[0]);
    }
  }

  lemma SameChained(s: State, s': State)
    requires Chained(s) && s'.history == s.history && s'.slack == s.slack && s'.file == s.file && s'.pending == s.pending
    ensures Chained(s')
  {
    forall i | 0 <= i < |s'.pending|
      ensures Timely(s', Previous(s', i), s'.pending[i].at)
    {
      assert Timely(s, Previous(s, i), s.pending[i].at);
    }
  }

  /** A version that was timely stays so when memory changes now. */
  lemma SetTimely(s: State, key: string, value: string, v: nat, t: Time)
    requires s.Wf() && v < |s.history| && s.slack >= 0 && t <= s.now && Timely(s, v, t)
    ensures Timely(SetStep(s, key, value), v, t)
  {
  }

  lemma SetChained(s: State, key: string, value: string)
    requires Timed(s) && Chained(s)
    ensures Chained(SetStep(s, key, value))
  {
    var s' := SetStep(s, key, value);
    forall i | 0 <= i < |s'.pending|
      ensures Timely(s', Previous(s', i), s'.pending[i].at)
    {
      assert Timely(s, Previous(s, i), s.pending[i].at) && Encoded(s, s.pending[i]);
      SetTimely(s, key, value, Previous(s, i), s.pending[i].at);
    }
  }

  /** The version that is upcoming falls behind now, or stays as far behind as it was. */
  lemma SetSafe(s: State, key: string, value: string)
    requires s.Wf() && TickInTime(s) && Safe(s) && Within(s, Upcoming(s), MARGIN + s.slack)
    ensures var s' := SetStep(s, key, value); Safe(s') && Within(s', Upcoming(s'), MARGIN + s.slack)
  {
  }

  lemma SetOrdered(s: State, key: string, value: string)
    requires Ordered(s)
    ensures Ordered(SetStep(s, key, value))
  {
    SetTimed(s, key, value);
    SetChained(s, key, value);
    SetSafe(s, key, value);
  }

  lemma CheckSafe(s: State)
    requires Safe(s) && Within(s, Upcoming(s), MARGIN + s.slack) && s.checking > 0
    ensures var s' := CheckStep(s); Safe(s') && Within(s', Upcoming(s'), MARGIN + s.slack)
  {
  }

  lemma CheckOrdered(s: State)
    requires Ordered(s) && s.checking > 0
    ensures Ordered(CheckStep(s))
  {
    SameTimed(s, CheckStep(s));
    SameChained(s, CheckStep(s));
    CheckSafe(s);
  }

  lemma EncodeChained(s: State)
    requires s.Wf() && Chained(s) && Within(s, Upcoming(s), MARGIN + s.slack) && s.encoding > 0
    ensures Chained(EncodeStep(s))
  {
    var s' := EncodeStep(s);
    forall i | 0 <= i < |s'.pending|
      ensures Timely(s', Previous(s', i), s'.pending[i].at)
    {
      if i < |s.pending| {
        assert Timely(s, Previous(s, i), s.pending[i].at);
      } else {
        assert Previous(s', i) == Upcoming(s);
      }
    }
  }

  lemma EncodeOrdered(s: State)
    requires Ordered(s) && s.encoding > 0
    ensures Ordered(EncodeStep(s))
  {
    EncodeTimed(s);
    EncodeChained(s);
  }

  lemma WriteChained(s: State)
    requires Chained(s) && s.pending != []
    ensures Chained(WriteStep(s, 0)) && Upcoming(WriteStep(s, 0)) == Upcoming(s)
  {
    var s' := WriteStep(s, 0);
    forall i | 0 <= i < |s'.pending|
      ensures Timely(s', Previous(s', i), s'.pending[i].at)
    {
      assert Timely(s, Previous(s, i + 1), s.pending[i + 1].at);
    }
  }

  lemma WriteOrdered(s: State)
    requires Ordered(s) && s.pending != []
    ensures Ordered(WriteStep(s, 0))
  {
    WriteTimed(s, 0);
    WriteChained(s);
  }

  lemma TickOrdered(s: State)
    requires Ordered(s) && s.firedAt.Some?
    ensures Ordered(TickStep(s))
  {
    SameTimed(s, TickStep(s));
    SameChained(s, TickStep(s));
  }

  lemma AdvanceSafe(s: State, d: nat)
    requires TickInTime(s) && Safe(s) && Enabled(s, Advance(d))
    ensures var s' := s.(now := s.now + d); Safe(s') && Within(s', Upcoming(s'), MARGIN + s.slack)
  {
  }

  lemma FireSafe(s: State)
    requires s.Wf() && TickInTime(s) && Safe(s) && Within(s, Upcoming(s), MARGIN + s.slack) && Enabled(s, Fire)
    ensures var s' := Apply(s, Fire); Safe(s') && Within(s', Upcoming(s'), MARGIN + s.slack)
  {
  }

  lemma ClockOrdered(s: State, a: Action)
    requires Ordered(s) && (a.Advance? || a.Fire?) && Enabled(s, a)
    ensures Ordered(Apply(s, a))
  {
    FineTimed(s, a);
    SameChained(s, Apply(s, a));
    if a.Advance? {
      AdvanceSafe(s, a.elapsed);
    } else {
      FireSafe(s);
    }
  }

  lemma SaveOrdered(s: State)
    requires Ordered(s) && s.encoding > 0 && s.pending == []
    ensures Ordered(SaveStep(s))
  {
    EncodeOrdered(s);
    WriteOrdered(EncodeStep(s));
  }

  lemma AddOrdered(s: State, key: string, value: string)
    requires Ordered(s) && s.Idle()
    ensures Ordered(AddStep(s, key, value))
  {
    SetOrdered(s, key, value);
    CheckOrdered(SetStep(s, key, value));
    var s' := CheckStep(SetStep(s, key, value));
    if s'.encoding > 0 {
      SaveOrdered(s');
    }
  }

  lemma StepOrdered(r: Reading, s: State, s': State)
    requires r != Separate && Ordered(s) && Step(r, s, s')
    ensures Ordered(s')
  {
    var a :| Allowed(r, a) && Enabled(s, a) && s' == Apply(s, a);
    match a
    case Set(k, v) => SetOrdered(s, k, v);
    case Check => CheckOrdered(s);
    case Encode => EncodeOrdered(s);
    case Write(_) => WriteOrdered(s);
    case HandleTick => TickOrdered(s);
    case Add(k, v) => AddOrdered(s, k, v);
    case Tick =>
      TickOrdered(s);
      SaveOrdered(TickStep(s));
    case Advance(_) => ClockOrdered(s, a);
    case Fire => ClockOrdered(s, a);
  }

  lemma {:induction false} PathOrdered(r: Reading, path: seq<State>, i: nat)
    requires r != Separate && IsPath(r, path) && Ordered(path[0]) && i < |path|
    ensures Ordered(path[i])
  {
    if i > 0 {
      PathOrdered(r, path, i - 1);
      assert Step(r, path[i - 1], path[i - 1 + 1]);
      StepOrdered(r, path[i - 1], path[i]);
    }
  }

  /** Bounded staleness, for any interval and any schedule of adds, as long as files are written
      in the order of their encodings: at every moment the file is exactly what memory held
      until at most 30 seconds ago, plus however late ticks are handled and however long
      writing takes (nothing, when ticks are handled when due and saves take no time). */
  lemma StalenessBounded(r: Reading, run: seq<State>, i: nat)
    requires r != Separate && IsRun(r, run) && i < |run|
    ensures run[i].Wf() && InBound(run[i])
    ensures var s := run[i];
            s.file + 1 < |s.history| ==> s.now - s.history[s.file + 1].from <= 30_000_000_000 + s.slack + s.lag
  {
    PathOrdered(r, run, i);
    OrderedInBound(run[i]);
  }

  /** Hence a value that has been in memory for longer than that, from version u on, is in the
      file. */
  lemma ValueReachesFile(r: Reading, run: seq<State>, i: nat, u: nat, key: string, value: string)
    requires r != Separate && IsRun(r, run) && i < |run| && u < |run[i].history|
    requires forall v :: u <= v < |run[i].history| ==> key in run[i].history[v].mem && run[i].history[v].mem[key] == value
    requires run[i].now - run[i].history[u].from > MARGIN + run[i].slack + run[i].lag
    ensures run[i].Wf() && key in run[i].FileContents() && run[i].FileContents()[key] == value
  {
    PathOrdered(r, run, i);
    OrderedInBound(run[i]);
  }

  /** One more step at the end of a path. */
  lemma Extended(r: Reading, path: seq<State>, a: Action) returns (path': seq<State>)
    requires IsPath(r, path) && path[|path| - 1].Wf() && Allowed(r, a) && Enabled(path[|path| - 1], a)
    ensures IsPath(r, path') && path' == path + [Apply(path[|path| - 1], a)]
  {
    var last := path[|path| - 1];
    path' := path + [Apply(last, a)];
    assert Step(r, last, Apply(last, a));
    forall i | 0 <= i < |path'| - 1
      ensures Step(r, path'[i], path'[i + 1])
    {
      if i < |path| - 1 {
        assert path'[i] == path[i] && path'[i + 1] == path[i + 1];
      }
    }
  }

  function Start(interval: Time): State {
    State(interval, 0, 0, 0, [Moment(map[], 0)], 0, 0, interval, None, 0, 0, [])
  }

  /** The bound is reached, even in the merged reading: with ticks handled when due and any
      interval longer than the margin, some value waits the full 30 seconds. */
  lemma StalenessReached(interval: Time) returns (run: seq<State>)
    requires interval > MARGIN
    ensures IsRun(Merged, run) && run[0] == Start(interval)
    ensures var s := run[|run| - 1];
            && s.Wf() && "k" in s.Memory() && "k" !in s.FileContents()
            && Behind(s, s.file) && s.now - Fell(s, s.file) == 30_000_000_000
  {
    run := [Start(interval)];
    run := Extended(Merged, run, Advance(interval - MARGIN));
    run := Extended(Merged, run, Add("k", "v"));
    run := Extended(Merged, run, Advance(MARGIN));
  }

  // ---------- Saves that overtake ----------

  /** A tick has encoded memory, an Add has set a value and encoded it. */
  lemma BothEncoded(interval: Time) returns (run: seq<State>)
    requires interval > MARGIN
    ensures IsRun(Separate, run) && run[0] == Start(interval)
    ensures run[|run| - 1]
         == State(interval, 0, 0, interval, [Moment(map[], 0), Moment(map["k" := "v"], interval)], 0, interval,
                  2 * interval, None, 0, 0, [Snapshot(0, interval), Snapshot(1, interval)])
  {
    run := [Start(interval)];
    run := Extended(Separate, run, Advance(interval));
    run := Extended(Separate, run, Fire);
    run := Extended(Separate, run, HandleTick);
    run := Extended(Separate, run, Encode);
    run := Extended(Separate, run, Set("k", "v"));
    run := Extended(Separate, run, Check);
    run := Extended(Separate, run, Encode);
  }

  /** The code does not keep the bound: a value can be gone from the file for a whole interval,
      though ticks are handled when due and saves take no time. The Add writes first, then the
      tick writes what it had encoded before. */
  lemma OvertakingLosesValue(interval: Time) returns (run: seq<State>)
    requires interval > MARGIN
    ensures IsRun(Separate, run) && run[0] == Start(interval)
    ensures var s := run[|run| - 1];
            && s.Wf() && s.Idle() && "k" in s.Memory() && "k" !in s.FileContents()
            && Behind(s, s.file) && s.now - Fell(s, s.file) == interval
            && !InBound(s)
  {
    run := BothEncoded(interval);
    run := Extended(Separate, run, Write(1));
    run := Extended(Separate, run, Write(0));
    run := Extended(Separate, run, Advance(interval));
  }

  lemma StepTimed(s: State, s': State)
    requires Timed(s) && Step(Separate, s, s')
    ensures Timed(s')
  {
    var a :| Allowed(Separate, a) && Enabled(s, a) && s' == Apply(s, a);
    FineTimed(s, a);
  }

  /** In any interleaving snapshots were present when encoded and ticks come in time. */
  lemma {:induction false} RunTimed(run: seq<State>, i: nat)
    requires IsRun(Separate, run) && i < |run|
    ensures Timed(run[i])
  {
    if i > 0 {
      RunTimed(run, i - 1);
      assert Step(Separate, run[i - 1], run[i - 1 + 1]);
      StepTimed(run[i - 1], run[i]);
    }
  }

  ghost predicate IsContinuation(path: seq<State>, s: State) {
    IsPath(InOrder, path) && path[0] == s
  }

  /** One step, then the rest. */
  lemma Prepended(s: State, a: Action, rest: seq<State>) returns (path: seq<State>)
    requires s.Wf() && Allowed(InOrder, a) && Enabled(s, a) && IsContinuation(rest, Apply(s, a))
    ensures IsContinuation(path, s) && path[|path| - 1] == rest[|rest| - 1]
  {
    path := [s] + rest;
    assert Step(InOrder, s, Apply(s, a));
    forall i | 0 <= i < |path| - 1
      ensures Step(InOrder, path[i], path[i + 1])
    {
      if i > 0 {
        assert path[i] == rest[i - 1] && path[i + 1] == rest[i - 1 + 1];
      }
    }
  }

  /** A tick in the channel may wait for its slack, whatever fires meanwhile. */
  lemma {:induction false} Waits(s: State, t: Time) returns (path: seq<State>)
    requires Timed(s) && s.Idle() && s.firedAt.Some? && s.now <= t <= s.firedAt.value + s.slack
    ensures IsContinuation(path, s)
    ensures var u := path[|path| - 1]; u == s.(now := t, nextFire := u.nextFire)
    decreases if t > s.nextFire then t - s.nextFire else 0
  {
    if t <= s.nextFire {
      path := Prepended(s, Advance(t - s.now), [Apply(s, Advance(t - s.now))]);
    } else {
      var s1 := Apply(s, Advance(s.nextFire - s.now));
      FineTimed(s, Advance(s.nextFire - s.now));
      FineTimed(s1, Fire);
      path := Waits(Apply(s1, Fire), t);
      path := Prepended(s1, Fire, path);
      path := Prepended(s, Advance(s.nextFire - s.now), path);
    }
  }

  /** The file waits for its tick, and the tick for its slack. */
  lemma IdleGoesStale(s: State) returns (path: seq<State>)
    requires Timed(s) && s.Idle() && !Fine(s, s.file) && s.lag == 0
    ensures IsContinuation(path, s) && !InBound(path[|path| - 1])
  {
    if s.firedAt.None? {
      var a := Advance(s.nextFire - s.now);
      var s1 := Apply(s, a);
      FineTimed(s, a);
      FineTimed(s1, Fire);
      path := Waits(Apply(s1, Fire), s.nextFire + s.slack);
      path := Prepended(s1, Fire, path);
      path := Prepended(s, a, path);
    } else {
      path := Waits(s, s.firedAt.value + s.slack);
    }
  }

  /** What is in progress ends without another encoding; then the file goes stale. */
  lemma {:induction false} GoesStale(s: State) returns (path: seq<State>)
    requires Timed(s) && !Safe(s) && s.lag == 0
    ensures IsContinuation(path, s) && !InBound(path[|path| - 1])
    decreases s.checking + |s.pending|
  {
    if s.checking > 0 {
      FineTimed(s, Check);
      path := GoesStale(CheckStep(s));
      path := Prepended(s, Check, path);
    } else if s.pending != [] {
      FineTimed(s, Write(0));
      path := GoesStale(WriteStep(s, 0));
      path := Prepended(s, Write(0), path);
    } else {
      path := IdleGoesStale(s);
    }
  }

  lemma SafeIsOrdered(s: State)
    requires Timed(s) && s.lag == 0 && InBound(s) && Safe(s)
    ensures Ordered(s)
  {
    forall i | 0 <= i < |s.pending|
      ensures Timely(s, Previous(s, i), s.pending[i].at) && Encoded(s, s.pending[i])
    {
      assert Encoded(s, s.pending[i]);
      assert i > 0 ==> Encoded(s, s.pending[i - 1]);
    }
  }

  /** Exactly when nothing can go wrong any more, if saves take no time and what is to come is
      written in order: every continuation stays in bound, if and only if the file is in bound
      now, and the present memory is about to be saved, or the last version to be written is
      the present one, or the next tick is due at most 30 seconds after it fell behind. */
  lemma AlwaysInBoundIff(s: State)
    requires Timed(s) && s.lag == 0
    ensures (forall path :: IsContinuation(path, s) ==> InBound(path[|path| - 1])) <==> InBound(s) && Safe(s)
  {
    if InBound(s) && Safe(s) {
      SafeIsOrdered(s);
      forall path | IsContinuation(path, s)
        ensures InBound(path[|path| - 1])
      {
        PathOrdered(InOrder, path, |path| - 1);
        OrderedInBound(path[|path| - 1]);
      }
    } else if !InBound(s) {
      assert IsContinuation([s], s);
    } else {
      var path := GoesStale(s);
    }
  }

  /** What is written last once the i-th pending snapshot is written now. */
  function LeftBy(s: State, i: nat): nat
    requires i < |s.pending|
  {
    if |s.pending| == 1 || i < |s.pending| - 1 then Upcoming(s) else s.pending[|s.pending| - 2].version
  }

  /** A write, overtaking or not, does no lasting harm if and only if the present memory is about
      to be saved anyway, or the snapshot that is then written last is the present memory, or
      the next tick is due at most 30 seconds after that snapshot fell behind. */
  lemma WriteHarmlessIff(s: State, i: nat)
    requires Timed(s) && s.lag == 0 && Enabled(s, Write(i))
    ensures (forall path :: IsContinuation(path, Apply(s, Write(i))) ==> InBound(path[|path| - 1])) <==>
            s.encoding > 0 || (s.checking > 0 && s.Far()) || Fine(s, LeftBy(s, i))
  {
    var s' := WriteStep(s, i);
    assert Encoded(s, s.pending[i]);
    WriteTimed(s, i);
    assert Upcoming(s') == LeftBy(s, i);
    AlwaysInBoundIff(s');
  }

  /** The condition of WriteHarmlessIff, at each write among the first n steps of a run. */
  ghost predicate WritesHarmless(run: seq<State>, n: nat)
    requires n < |run|
  {
    forall k, i: nat :: 0 <= k < n && i < |run[k].pending| && run[k + 1] == WriteStep(run[k], i) ==> Safe(run[k + 1])
  }

  lemma StepHarmless(s: State, s': State)
    requires Ordered(s) && s.lag == 0 && Step(Separate, s, s')
    requires forall i: nat :: i < |s.pending| && s' == WriteStep(s, i) ==> Safe(s')
    ensures Ordered(s') && s'.lag == 0
  {
    var a :| Allowed(Separate, a) && Enabled(s, a) && s' == Apply(s, a);
    if a.Write? {
      assert Encoded(s, s.pending[a.index]);
      WriteTimed(s, a.index);
      SafeIsOrdered(s');
    } else {
      assert Step(InOrder, s, s');
      StepOrdered(InOrder, s, s');
    }
  }

  /** So the code keeps the bound in every run whose writes pass that test, in whatever order
      they come. */
  lemma {:induction false} HarmlessInBound(run: seq<State>, n: nat)
    requires IsRun(Separate, run) && run[0].lag == 0 && n < |run| && WritesHarmless(run, n)
    ensures Ordered(run[n]) && run[n].lag == 0 && InBound(run[n])
  {
    if n > 0 {
      HarmlessInBound(run, n - 1);
      assert Step(Separate, run[n - 1], run[n - 1 + 1]);
      StepHarmless(run[n - 1], run[n]);
    }
    OrderedInBound(run[n]);
  }

  // ---------- The code ----------

  /** `file` is the last map written; entries do not expire, and reading and writing succeed. */
  class StateCache {
    const interval: Time
    var memCache: map<string, string>
    var file: map<string, string>
    var lastTickTime: Time

    /** `file` is what an earlier process has left. */
    constructor (interval: Time, now: Time, file: map<string, string>)
      requires interval > 0
      ensures this.interval == interval && lastTickTime == now && memCache == map[] && this.file == file
    {
      this.interval := interval;
      lastTickTime := now;
      memCache, this.file := map[], file;
    }

    method LoadCache()
      modifies this`memCache
      ensures memCache == file
    {
      memCache := file;
    }

    function DurationToNextTick(now: Time): Time
      reads this
    {
      lastTickTime + interval - now
    }

    /** This cache is the one of the timed system's state. */
    ghost predicate Is(s: State)
      reads this
    {
      && s.Wf()
      && interval == s.interval && memCache == s.Memory() && file == s.FileContents() && lastTickTime == s.lastTickTime
    }

    /** The first half of SaveCache. */
    method EncodeItems() returns (snapshot: map<string, string>)
      ensures snapshot == memCache
      ensures forall s :: Is(s) && s.encoding > 0 ==>
                var s' := Apply(s, Encode);
                Is(s') && s'.history[s'.pending[|s'.pending| - 1].version].mem == snapshot
    {
      snapshot := memCache;
    }

    /** The second half. */
    method WriteFile(snapshot: map<string, string>)
      modifies this`file
      ensures file == snapshot
      ensures forall s, i: nat :: old(Is(s)) && i < |s.pending| && s.history[s.pending[i].version].mem == snapshot ==>
                Is(Apply(s, Write(i)))
    {
      file := snapshot;
    }

    method SaveCache()
      modifies this`file
      ensures file == memCache
    {
      var snapshot := EncodeItems();
      WriteFile(snapshot);
    }

    method Add(key: string, value: string, now: Time)
      modifies this`memCache, this`file
      ensures memCache == old(memCache)[key := value]
      ensures DurationToNextTick(now) > MARGIN ==> file == memCache
      ensures DurationToNextTick(now) <= MARGIN ==> file == old(file)
      ensures forall s :: old(Is(s)) && s.now == now && s.Idle() ==> Is(Apply(s, Action.Add(key, value)))
    {
      memCache := memCache[key := value];
      if DurationToNextTick(now) > MARGIN {
        SaveCache();
      }
    }

    /** The arm of AutoSaver that a tick takes. */
    method HandleTick(now: Time)
      modifies this`file, this`lastTickTime
      ensures file == memCache && lastTickTime == now
      ensures forall s :: old(Is(s)) && s.now == now && Enabled(s, Tick) ==> Is(Apply(s, Tick))
    {
      lastTickTime := now;
      SaveCache();
    }

    /** AutoSaver over a finite stretch of polls of the ticker; a poll that finds a tick
        carries the time at which it is handled. */
    method AutoSaver(polls: seq<Option<Time>>)
      modifies this`file, this`lastTickTime
      ensures (forall i :: 0 <= i < |polls| ==> polls[i].None?) ==> file == old(file) && lastTickTime == old(lastTickTime)
      ensures forall i :: 0 <= i < |polls| && polls[i].Some? && (forall j :: i < j < |polls| ==> polls[j].None?) ==>
                file == memCache && lastTickTime == polls[i].value
    {
      for i := 0 to |polls|
        invariant (forall j :: 0 <= j < i ==> polls[j].None?) ==> file == old(file) && lastTickTime == old(lastTickTime)
        invariant forall k :: 0 <= k < i && polls[k].Some? && (forall j :: k < j < i ==> polls[j].None?) ==>
                    file == memCache && lastTickTime == polls[k].value
      {
        if polls[i].Some? {
          HandleTick(polls[i].value);
        }
      }
    }
  }
}

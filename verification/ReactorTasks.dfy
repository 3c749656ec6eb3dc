/** What a task gets out of the reactor by its own steps, and the life of a source from its registration to
    the reuse of its index. */
module ReactorTasks {
  import opened Options
  import opened Reactor
  import opened ReactorTheorems
  import opened ReactorProgress

  /** A step of the task that does I/O in direction d of source i. */
  predicate StepOf(a: Action, i: nat, d: Direction) {
    (a.Acquire? || a.Proceed? || a.TryIo?) && a.i == i && a.d == d
  }

  /** All steps of the run after the first n are the task's own. */
  predicate OwnTail(run: seq<Action>, n: nat, i: nat, d: Direction) {
    forall k :: n <= k < |run| ==> StepOf(run[k], i, d)
  }

  /** Asleep for good reason: the waker is stored, the trigger clear and the lock given back. */
  predicate WellParked(src: Source, d: Direction, w: Waker) {
    var c := Chan(src, d);
    c.task == Parked(w, false) && !c.triggered && c.interest == Some(w) && src.holder == Free
  }

  /** The steps left to a task on a descriptor that is not ready. */
  function StepsToPark(c: Channel): nat {
    match c.task
    case Locking(_) => if c.triggered then 9 else 5
    case Inspecting(_) => if c.triggered then 8 else 4
    case Storing(_) => if c.triggered then 9 else 3
    case Rechecking(_) => if c.triggered then 8 else 2
    case Trying(_) => 7
    case Clearing(_) => 6
    case _ => 0
  }

  function NextStep(s: State, i: nat, d: Direction): Action
    requires i < |s.sources|
  {
    match Chan(s.sources[i], d).task
    case Locking(_) => Acquire(i, d)
    case Trying(_) => TryIo(i, d, WouldBlock)
    case _ => Proceed(i, d)
  }

  /** In the middle of `poll_io`, holding the lock or free to take it. */
  predicate UnderWay(s: State, i: nat, d: Direction, w: Waker) {
    && i < |s.sources| && s.sources[i].phase != Absent
    && var c := Chan(s.sources[i], d);
       && (Inside(c.task) || (c.task.Locking? && s.sources[i].holder == Free)) && c.task.w == w
       && (c.task.Rechecking? ==> c.interest == Some(w))
  }

  lemma CloserToPark(s: State, i: nat, d: Direction, w: Waker)
    requires UnderWay(s, i, d, w) && !Chan(s.sources[i], d).ready
    ensures Enabled(s, NextStep(s, i, d)) && StepOf(NextStep(s, i, d), i, d)
    ensures var t := Do(s, NextStep(s, i, d));
            && t.sources == s.sources[i := t.sources[i]] && !Chan(t.sources[i], d).ready
            && t.kernel == s.kernel && t.batch == s.batch && t.wakers == s.wakers && t.loop == s.loop
            && (WellParked(t.sources[i], d, w)
                || (UnderWay(t, i, d, w) && StepsToPark(Chan(t.sources[i], d)) < StepsToPark(Chan(s.sources[i], d))))
  {
  }

  /** A task inside `poll_io` on a descriptor that is not ready goes to sleep by its own steps, whatever the
      trigger said, and touches nothing but its source. */
  lemma {:induction false} ParksAlone(s: State, run: seq<Action>, n: nat, i: nat, d: Direction, w: Waker)
    returns (longer: seq<Action>)
    requires ValidRun(s, run) && n <= |run| && OwnTail(run, n, i, d)
    requires UnderWay(After(s, run), i, d, w) && !Chan(After(s, run).sources[i], d).ready
    ensures run <= longer && ValidRun(s, longer) && OwnTail(longer, n, i, d)
    ensures var t, u := After(s, run), After(s, longer);
            && WellParked(u.sources[i], d, w) && u.sources == t.sources[i := u.sources[i]]
            && u.kernel == t.kernel && u.batch == t.batch && u.wakers == t.wakers && u.loop == t.loop
    decreases StepsToPark(Chan(After(s, run).sources[i], d))
  {
    var t := After(s, run);
    var a := NextStep(t, i, d);
    CloserToPark(t, i, d, w);
    AppendStep(s, run, a);
    longer := run + [a];
    if !WellParked(After(s, longer).sources[i], d, w) {
      longer := ParksAlone(s, longer, n, i, d, w);
    }
  }

  /** In every reachable state: as long as the descriptor stays unready and nobody else moves, a task that is
      inside `poll_io` with the lock, or is free to take it, goes to sleep. */
  lemma TaskCanPark(s: State, run: seq<Action>, i: nat, d: Direction, w: Waker) returns (longer: seq<Action>)
    requires Initial(s) && ValidRun(s, run) && i < |s.sources|
    requires var src := After(s, run).sources[i];
             var c := Chan(src, d);
             (Inside(c.task) || (c.task.Locking? && src.holder == Free)) && c.task.w == w && !c.ready
    ensures run <= longer && ValidRun(s, longer) && OwnTail(longer, |run|, i, d)
    ensures WellParked(After(s, longer).sources[i], d, w)
  {
    RunsKeep(s, run);
    assert ChannelOk(After(s, run), i, d);
    longer := ParksAlone(s, run, |run|, i, d, w);
  }

  // ----- From registration to reuse -----

  lemma Then(s: State, run: seq<Action>, t: State, a: Action, u: State) returns (longer: seq<Action>)
    requires ValidRun(s, run) && After(s, run) == t && Enabled(t, a) && Do(t, a) == u
    ensures longer == run + [a] && ValidRun(s, longer) && After(s, longer) == u
  {
    AppendStep(s, run, a);
    longer := run + [a];
  }

  /** A new source starts without a trigger: its first poll, before any event was handled, goes to sleep,
      even on a descriptor that is ready already. */
  lemma FirstPollParks(s: State, i: nat, readReady: bool, writeReady: bool, d: Direction, w: Waker)
    returns (run: seq<Action>)
    requires Enabled(s, Install(i, readReady, writeReady))
    ensures run == [Install(i, readReady, writeReady), Register(i), Start(i, d, w),
                    Acquire(i, d), Proceed(i, d), Proceed(i, d), Proceed(i, d)]
    ensures ValidRun(s, run) && WellParked(After(s, run).sources[i], d, w)
    ensures var c := Chan(After(s, run).sources[i], d);
            c.ready == (if d == Read then readReady else writeReady) && After(s, run).sources[i].phase == Active
    ensures After(s, run).kernel == s.kernel + [Event(i, readReady, writeReady)]
  {
    run := Begun(s, i, readReady, writeReady, d, w);
    var t := Starting(s, i, readReady, writeReady, d, Locking(w));
    var u := Starting(s, i, readReady, writeReady, d, Inspecting(w));
    u := u.(sources := u.sources[i := u.sources[i].(holder := ByTask(d))]);
    run := Then(s, run, t, Acquire(i, d), u);
    run := FirstLook(s, run, u, i, d, w);
  }

  /** The state after registration, with a task of direction d at the given point. */
  function Starting(s: State, i: nat, readReady: bool, writeReady: bool, d: Direction, task: Task): State
    requires i < |s.sources|
  {
    var src := Source(Active, Free, Channel(false, None, readReady, Idle), Channel(false, None, writeReady, Idle));
    s.(sources := s.sources[i := SetChan(src, d, Chan(src, d).(task := task))],
       kernel := s.kernel + [Event(i, readReady, writeReady)])
  }

  lemma Begun(s: State, i: nat, readReady: bool, writeReady: bool, d: Direction, w: Waker)
    returns (run: seq<Action>)
    requires Enabled(s, Install(i, readReady, writeReady))
    ensures run == [Install(i, readReady, writeReady), Register(i), Start(i, d, w)]
    ensures ValidRun(s, run) && After(s, run) == Starting(s, i, readReady, writeReady, d, Locking(w))
  {
    var t2 := Starting(s, i, readReady, writeReady, d, Idle);
    run := Registered(s, i, readReady, writeReady, d);
    run := Then(s, run, t2, Start(i, d, w), Starting(s, i, readReady, writeReady, d, Locking(w)));
  }

  lemma Registered(s: State, i: nat, readReady: bool, writeReady: bool, d: Direction) returns (run: seq<Action>)
    requires Enabled(s, Install(i, readReady, writeReady))
    ensures run == [Install(i, readReady, writeReady), Register(i)]
    ensures ValidRun(s, run) && After(s, run) == Starting(s, i, readReady, writeReady, d, Idle)
  {
    var read, write := Channel(false, None, readReady, Idle), Channel(false, None, writeReady, Idle);
    var t1 := SetSource(s, i, Source(Installed, Free, read, write));
    run := Then(s, [], s, Install(i, readReady, writeReady), t1);
    run := Then(s, run, t1, Register(i), Starting(s, i, readReady, writeReady, d, Idle));
  }

  lemma ThenProceed(s: State, run: seq<Action>, t: State, i: nat, d: Direction)
    returns (longer: seq<Action>, u: State)
    requires ValidRun(s, run) && After(s, run) == t && i < |t.sources| && CanProceed(Chan(t.sources[i], d).task)
    ensures longer == run + [Proceed(i, d)] && ValidRun(s, longer) && After(s, longer) == u
    ensures u == SetSource(t, i, ProceedOn(t.sources[i], d))
  {
    u := SetSource(t, i, ProceedOn(t.sources[i], d));
    longer := Then(s, run, t, Proceed(i, d), u);
  }

  lemma LookParks(src: Source, d: Direction, w: Waker)
    requires Chan(src, d).task == Inspecting(w) && !Chan(src, d).triggered
    ensures CanProceed(Chan(ProceedOn(src, d), d).task)
    ensures CanProceed(Chan(ProceedOn(ProceedOn(src, d), d), d).task)
    ensures var parked := ProceedOn(ProceedOn(ProceedOn(src, d), d), d);
            WellParked(parked, d, w) && parked.phase == src.phase && Chan(parked, d).ready == Chan(src, d).ready
  {
  }

  lemma FirstLook(s: State, run: seq<Action>, t: State, i: nat, d: Direction, w: Waker) returns (longer: seq<Action>)
    requires ValidRun(s, run) && After(s, run) == t && i < |t.sources|
    requires Chan(t.sources[i], d).task == Inspecting(w) && !Chan(t.sources[i], d).triggered
    ensures longer == run + [Proceed(i, d), Proceed(i, d), Proceed(i, d)]
    ensures ValidRun(s, longer) && WellParked(After(s, longer).sources[i], d, w)
    ensures After(s, longer).sources[i].phase == t.sources[i].phase && After(s, longer).kernel == t.kernel
    ensures Chan(After(s, longer).sources[i], d).ready == Chan(t.sources[i], d).ready
  {
    LookParks(t.sources[i], d, w);
    var u;
    longer, u := ThenProceed(s, run, t, i, d);
    longer, u := ThenProceed(s, longer, u, i, d);
    longer, u := ThenProceed(s, longer, u, i, d);
  }

  /** A kernel that blocks exactly the operations on descriptors that are not ready. */
  function Straight(s: State, i: nat, d: Direction): IoResult {
    if i < |s.sources| && Chan(s.sources[i], d).ready then Completed(true) else WouldBlock
  }

  /** The whole round: on any free index a source can be registered, polled to sleep, become ready and have
      its sleeper woken. */
  lemma SourceCanWake(s: State, i: nat, d: Direction, w: Waker) returns (run: seq<Action>)
    requires Initial(s) && i < |s.sources|
    ensures ValidRun(s, run) && Chan(After(s, run).sources[i], d).task == Parked(w, true)
  {
    run := FirstPollParks(s, i, false, false, d, w);
    AppendStep(s, run, BecomeReady(i, d));
    run := run + [BecomeReady(i, d)];
    var more := SleeperCanBeWoken(s, run, Straight, i, d, w);
    run := Joined(s, run, more);
  }

  lemma {:induction false} Joined(s: State, run: seq<Action>, more: seq<Action>) returns (whole: seq<Action>)
    requires ValidRun(s, run) && ValidRun(After(s, run), more)
    ensures whole == run + more && ValidRun(s, whole) && After(s, whole) == After(After(s, run), more)
    decreases |more|
  {
    whole := run + more;
    if |more| == 0 {
      assert whole == run;
    } else {
      var before, last := more[..|more| - 1], more[|more| - 1];
      var front := Joined(s, run, before);
      AppendStep(s, front, last);
      assert whole == front + [last];
    }
  }

  /** A task that rests on a triggered source, woken or not, can start again, and gets to its operation; what
      the operation answers decides whether it is done or has the trigger cleared. */
  lemma RestsThenTries(s: State, i: nat, d: Direction, w: Waker, result: IoResult)
    requires i < |s.sources| && s.sources[i].phase == Active && s.sources[i].holder == Free
    requires var c := Chan(s.sources[i], d);
             Resting(c.task) && c.triggered && Possible(result, c.ready)
    ensures Enabled(s, Start(i, d, w))
    ensures var s1 := Do(s, Start(i, d, w));
            && Enabled(s1, Acquire(i, d))
            && var s2 := Do(s1, Acquire(i, d));
               && Enabled(s2, Proceed(i, d))
               && var s3 := Do(s2, Proceed(i, d));
                  && Enabled(s3, TryIo(i, d, result))
                  && var c := Chan(Do(s3, TryIo(i, d, result)).sources[i], d);
                     if result.Completed? then c.task == Idle && c.ready == result.stillReady
                     else c.task == Clearing(w)
  {
    var s1 := Do(s, Start(i, d, w));
    assert s1.sources[i] == SetChan(s.sources[i], d, Chan(s.sources[i], d).(task := Locking(w)));
    var s2 := Do(s1, Acquire(i, d));
    assert s2.sources[i] == AcquireOn(s1.sources[i], d);
    var s3 := Do(s2, Proceed(i, d));
    assert s3.sources[i] == ProceedOn(s2.sources[i], d);
  }

  /** Dropping a stream makes its index free again: once nobody holds the source's lock, it can be taken out
      of the table and another one installed. */
  lemma IndexCanBeReused(s: State, i: nat, readReady: bool, writeReady: bool)
    requires Enabled(s, Deregister(i)) && s.sources[i].holder == Free
    ensures Enabled(Do(s, Deregister(i)), Remove(i))
    ensures var t := Do(Do(s, Deregister(i)), Remove(i));
            && Enabled(t, Install(i, readReady, writeReady))
            && t.sources == s.sources[i := t.sources[i]] && t.kernel == s.kernel && t.batch == s.batch
  {
  }
}

/** From every reachable state the runtime's own steps can wake whoever sleeps on a ready descriptor. */
module ReactorProgress {
  import opened Reactor
  import opened ReactorTheorems

  /** The event loop finishes one thing before it starts the next. */
  predicate Orderly(s: State) {
    && (forall k :: 0 <= k < |s.kernel| ==> s.kernel[k].index < |s.sources|)
    && (forall k :: 0 <= k < |s.batch| ==> s.batch[k].index < |s.sources|)
    && (s.loop == Fetching ==> s.batch == [] && s.wakers == [])
    && (s.loop == Draining ==> s.batch == [])
  }

  lemma OrderlyStep(s: State, a: Action)
    requires Orderly(s) && Enabled(s, a)
    ensures Orderly(Do(s, a))
  {
  }

  lemma {:induction false} RunsAreOrderly(s: State, run: seq<Action>)
    requires Initial(s) && ValidRun(s, run)
    ensures Orderly(After(s, run))
  {
    if |run| > 0 {
      RunsAreOrderly(s, run[..|run| - 1]);
      OrderlyStep(After(s, run[..|run| - 1]), run[|run| - 1]);
    }
  }

  /** What operations on descriptors answer: any function of the state and the channel, as long as it
      is possible for the descriptor's readiness. */
  type Kernel = (State, nat, Direction) -> IoResult

  ghost predicate Honest(io: Kernel) {
    forall s: State, i: nat, d :: i < |s.sources| ==> Possible(io(s, i, d), Chan(s.sources[i], d).ready)
  }

  /** A step of the event loop, or of a task that is inside a poll already; an operation answers as the
      kernel says. */
  predicate OwnStep(s: State, a: Action, io: Kernel) {
    || a.Fetch? || a.Enter? || a.Handle? || a.Wake? || a.Proceed?
    || (a.TryIo? && a.result == io(s, a.i, a.d))
  }

  /** Nothing is left for the event loop to do. */
  predicate Quiet(s: State) {
    s.kernel == [] && s.batch == [] && s.wakers == [] && s.loop == Fetching
  }

  function LoopRank(l: Loop): nat {
    match l
    case Fetching => 0
    case Draining => 1
    case Iterating => 12
    case Handling(stage) => if stage < 4 then 11 - 2 * stage else 0
  }

  /** The work the event loop has before it. */
  function LoopWork(s: State): nat {
    30 * |s.kernel| + 10 * |s.batch| + |s.wakers| + LoopRank(s.loop)
  }

  function TaskRank(t: Task): nat {
    match t
    case Inspecting(_) => 5
    case Storing(_) => 4
    case Rechecking(_) => 3
    case Trying(_) => 2
    case Clearing(_) => 1
    case _ => 0
  }

  /** The steps left to a task that keeps the event loop waiting for a lock. */
  function HolderRank(s: State): nat {
    if s.loop == Iterating && |s.batch| > 0 && s.batch[0].index < |s.sources| then
      var src := s.sources[s.batch[0].index];
      if src.holder.ByTask? then TaskRank(Chan(src, src.holder.d).task) else 0
    else 0
  }

  predicate Sleeps(s: State, i: nat, d: Direction, w: Waker) {
    && i < |s.sources|
    && var c := Chan(s.sources[i], d);
       c.task.Parked? && c.task.w == w && c.ready
  }

  /** A step that brings the loop closer to having nothing to do, and does not disturb a sleeper. */
  predicate Advances(s: State, a: Action, io: Kernel, i: nat, d: Direction, w: Waker) {
    && Enabled(s, a) && OwnStep(s, a, io)
    && Sleeps(Do(s, a), i, d, w)
    && (LoopWork(Do(s, a)) < LoopWork(s) || (LoopWork(Do(s, a)) == LoopWork(s) && HolderRank(Do(s, a)) < HolderRank(s)))
  }

  lemma LoopAdvances(s: State, a: Action, io: Kernel, i: nat, d: Direction, w: Waker)
    requires Inv(s) && Orderly(s) && Sleeps(s, i, d, w) && !Quiet(s) && Enabled(s, a)
    requires a.Enter? || a.Handle? || a.Wake? || a == Fetch(|s.kernel|)
    ensures Advances(s, a, io, i, d, w)
  {
  }

  /** The task that holds the lock the event loop waits for. */
  lemma HolderAdvances(s: State, io: Kernel, i: nat, d: Direction, w: Waker) returns (a: Action)
    requires Inv(s) && Orderly(s) && Honest(io) && Sleeps(s, i, d, w)
    requires s.loop == Iterating && |s.batch| > 0 && s.sources[s.batch[0].index].holder.ByTask?
    ensures Advances(s, a, io, i, d, w)
  {
    var j := s.batch[0].index;
    var e := s.sources[j].holder.d;
    assert ChannelOk(s, j, e) && ChannelOk(s, i, d);
    if Chan(s.sources[j], e).task.Trying? {
      a := TryIo(j, e, io(s, j, e));
      HolderTries(s, io, i, d, w);
    } else {
      a := Proceed(j, e);
    }
  }

  lemma HolderTries(s: State, io: Kernel, i: nat, d: Direction, w: Waker)
    requires Orderly(s) && Honest(io) && Sleeps(s, i, d, w)
    requires s.loop == Iterating && |s.batch| > 0 && s.sources[s.batch[0].index].holder.ByTask?
    requires var j := s.batch[0].index; Chan(s.sources[j], s.sources[j].holder.d).task.Trying?
    ensures var j := s.batch[0].index;
            var e := s.sources[j].holder.d;
            Advances(s, TryIo(j, e, io(s, j, e)), io, i, d, w)
  {
  }

  lemma SomeAdvance(s: State, io: Kernel, i: nat, d: Direction, w: Waker) returns (a: Action)
    requires Inv(s) && Orderly(s) && Honest(io) && Sleeps(s, i, d, w) && !Quiet(s)
    ensures Advances(s, a, io, i, d, w)
  {
    match s.loop
    case Fetching => a := Fetch(|s.kernel|); LoopAdvances(s, a, io, i, d, w);
    case Handling(_) => a := Handle; LoopAdvances(s, a, io, i, d, w);
    case Draining => a := Wake; LoopAdvances(s, a, io, i, d, w);
    case Iterating =>
      if |s.batch| > 0 && s.sources[s.batch[0].index].holder.ByTask? {
        a := HolderAdvances(s, io, i, d, w);
      } else {
        if |s.batch| > 0 { assert ChannelOk(s, s.batch[0].index, Read); }
        a := Enter;
        LoopAdvances(s, a, io, i, d, w);
      }
  }

  lemma {:induction false} Prepend(s: State, a: Action, run: seq<Action>)
    requires Enabled(s, a) && ValidRun(Do(s, a), run)
    ensures ValidRun(s, [a] + run) && After(s, [a] + run) == After(Do(s, a), run)
  {
    if |run| == 0 {
      AppendStep(s, [], a);
      assert [a] + run == [] + [a];
    } else {
      var before, last := run[..|run| - 1], run[|run| - 1];
      Prepend(s, a, before);
      AppendStep(s, [a] + before, last);
      assert [a] + run == [a] + before + [last];
    }
  }

  lemma AppendStep(s: State, run: seq<Action>, a: Action)
    requires ValidRun(s, run) && Enabled(After(s, run), a)
    ensures ValidRun(s, run + [a]) && After(s, run + [a]) == Do(After(s, run), a)
  {
    assert (run + [a])[..|run|] == run;
  }

  /** A run of the runtime's own steps. */
  ghost predicate OwnRun(s: State, run: seq<Action>, io: Kernel)
    requires ValidRun(s, run)
    decreases |run|
  {
    |run| == 0 || (OwnRun(s, run[..|run| - 1], io) && OwnStep(After(s, run[..|run| - 1]), run[|run| - 1], io))
  }

  lemma {:induction false} PrependOwn(s: State, a: Action, run: seq<Action>, io: Kernel)
    requires Enabled(s, a) && ValidRun(Do(s, a), run) && OwnStep(s, a, io) && OwnRun(Do(s, a), run, io)
    ensures ValidRun(s, [a] + run) && OwnRun(s, [a] + run, io)
    decreases |run|
  {
    Prepend(s, a, run);
    var whole := [a] + run;
    if |run| == 0 {
      assert whole[..0] == [] && whole[0] == a;
    } else {
      var before := run[..|run| - 1];
      Prepend(s, a, before);
      PrependOwn(s, a, before, io);
      assert whole[..|whole| - 1] == [a] + before && whole[|whole| - 1] == run[|run| - 1];
    }
  }

  /** Whatever operations on descriptors answer, the event loop can work off everything before it, past
      any lock held by a task, and leaves a sleeper on a ready descriptor parked. */
  lemma {:induction false} CanFallQuiet(s: State, io: Kernel, i: nat, d: Direction, w: Waker) returns (run: seq<Action>)
    requires Inv(s) && Orderly(s) && Honest(io) && Sleeps(s, i, d, w)
    ensures ValidRun(s, run) && OwnRun(s, run, io)
    ensures var t := After(s, run);
            Inv(t) && Quiet(t) && Sleeps(t, i, d, w)
    decreases LoopWork(s), HolderRank(s)
  {
    if Quiet(s) {
      run := [];
    } else {
      var a := SomeAdvance(s, io, i, d, w);
      StepKeeps(s, a);
      OrderlyStep(s, a);
      var rest := CanFallQuiet(Do(s, a), io, i, d, w);
      Prepend(s, a, rest);
      PrependOwn(s, a, rest, io);
      run := [a] + rest;
    }
  }

  /** Whoever sleeps on a ready descriptor, in any reachable state, can be woken by steps of the runtime
      alone, whatever other tasks' operations answer: no new readiness, event or poll is needed. */
  lemma SleeperCanBeWoken(s: State, run: seq<Action>, io: Kernel, i: nat, d: Direction, w: Waker)
    returns (more: seq<Action>)
    requires Initial(s) && ValidRun(s, run) && Honest(io) && Sleeps(After(s, run), i, d, w)
    ensures ValidRun(After(s, run), more) && OwnRun(After(s, run), more, io)
    ensures Chan(After(After(s, run), more).sources[i], d).task == Parked(w, true)
  {
    RunsKeep(s, run);
    RunsAreOrderly(s, run);
    more := CanFallQuiet(After(s, run), io, i, d, w);
    InvNotices(After(After(s, run), more), i, d);
  }
}

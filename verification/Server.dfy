/** The reactor beside queue and lifecycle: tasks do I/O while a worker polls them, with a waker that
    carries their queue index, and the event loop invokes collected wakers by enqueueing it. */
module Server {
  import opened Options
  import opened Words
  import opened Index
  import Q = BucketQueue
  import D = Dispatch
  import L = Lifecycle
  import R = Runtime
  import RW = RuntimeWakes
  import RL = RuntimeLoss
  import C = QueueCoverage
  import opened X = Reactor
  import XT = ReactorTheorems

  /** `served` holds the channels whose sleeper's task was attended to after its waker was invoked. */
  datatype State = State(reactor: X.State, runtime: R.State, served: set<(nat, Direction)>)

  datatype Action =
    | React(x: X.Action)                      // anything but the start of an operation and a wake
    | StartIo(v: nat, i: nat, d: Direction)   // the task that worker v polls starts an operation
    | Invoke(e: nat)                          // the event loop invokes a waker, as enqueue call e
    | Run(a: R.Action)

  /** The bucket and offset that invoking a waker posts. */
  function Target(r: IoResources, w: Waker): (nat, nat)
    requires r.PerBucket() > 0
  {
    var q := FromUsize(w);
    (Quotient(q.index, r.PerBucket()), Remainder(q.index, r.PerBucket()))
  }

  predicate Initial(s: State) {
    X.Initial(s.reactor) && R.Initial(s.runtime) && s.served == {}
  }

  function WakerOf(r: IoResources, s: State, v: nat): Waker
    requires v < |s.runtime.queue.workers| && s.runtime.queue.workers[v].Polling?
  {
    D.WakerWord(r, s.runtime.queue.workers[v].b, s.runtime.queue.workers[v].o)
  }

  function Posting(r: IoResources, s: State, e: nat): R.Action
    requires r.PerBucket() > 0 && |s.reactor.wakers| > 0
  {
    var target := Target(r, s.reactor.wakers[0]);
    R.Queue(Q.Post(e, target.0, target.1))
  }

  predicate Enabled(r: IoResources, s: State, a: Action) {
    && r.PerBucket() > 0
    && match a
       case React(x) => !x.Start? && !(x.Wake? && |s.reactor.wakers| > 0) && X.Enabled(s.reactor, x)
       case StartIo(v, i, d) =>
         && v < |s.runtime.queue.workers| && s.runtime.queue.workers[v].Polling?
         && X.Enabled(s.reactor, Start(i, d, WakerOf(r, s, v)))
       case Invoke(e) =>
         X.Enabled(s.reactor, Wake) && |s.reactor.wakers| > 0 && R.Enabled(r, s.runtime, Posting(r, s, e))
       case Run(b) => R.Enabled(r, s.runtime, b)
  }

  /** Somebody sleeps on a channel, woken already, with a waker for the given bucket and offset. */
  predicate WokenFor(r: IoResources, s: State, x: (nat, Direction), target: (nat, nat))
    requires r.PerBucket() > 0
  {
    && x.0 < |s.reactor.sources|
    && var t := Chan(s.reactor.sources[x.0], x.1).task;
       t.Parked? && t.woken && Target(r, t.w) == target
  }

  function Channels(s: State): set<(nat, Direction)> {
    set i, d | 0 <= i < |s.reactor.sources| && d in {Read, Write} :: (i, d)
  }

  function Do(r: IoResources, s: State, a: Action): (t: State)
    requires Enabled(r, s, a)
    ensures |t.reactor.sources| == |s.reactor.sources|
    ensures |t.runtime.queue.enqueuers| == |s.runtime.queue.enqueuers|
    ensures |t.runtime.queue.workers| == |s.runtime.queue.workers|
    ensures |t.runtime.life.buckets| == |s.runtime.life.buckets|
  {
    match a
    case React(x) => s.(reactor := X.Do(s.reactor, x))
    case StartIo(v, i, d) =>
      s.(reactor := X.Do(s.reactor, Start(i, d, WakerOf(r, s, v))), served := s.served - {(i, d)})
    case Invoke(e) => s.(reactor := X.Do(s.reactor, Wake), runtime := R.Do(r, s.runtime, Posting(r, s, e)))
    case Run(b) =>
      s.(runtime := R.Do(r, s.runtime, b),
         served := if b.Poll? && R.BeginsPoll(b.l)
                   then
                     var pc := s.runtime.queue.workers[b.w];
                     s.served + set x | x in Channels(s) && WokenFor(r, s, x, (pc.b, pc.o))
                   else s.served)
  }

  predicate ValidRun(r: IoResources, s: State, run: seq<Action>)
    decreases |run|, 0
  {
    |run| == 0 ||
    (ValidRun(r, s, run[..|run| - 1]) && Enabled(r, After(r, s, run[..|run| - 1]), run[|run| - 1]))
  }

  function After(r: IoResources, s: State, run: seq<Action>): (t: State)
    requires ValidRun(r, s, run)
    ensures |t.reactor.sources| == |s.reactor.sources|
    ensures |t.runtime.queue.enqueuers| == |s.runtime.queue.enqueuers|
    ensures |t.runtime.queue.workers| == |s.runtime.queue.workers|
    ensures |t.runtime.life.buckets| == |s.runtime.life.buckets|
    decreases |run|, 1
  {
    if |run| == 0 then s else Do(r, After(r, s, run[..|run| - 1]), run[|run| - 1])
  }

  predicate Races(a: Action) {
    a.Run? && a.a.Poll? && a.a.l.PollMissing?
  }

  predicate NoRace(run: seq<Action>) {
    forall k :: 0 <= k < |run| ==> !Races(run[k])
  }

  // ----- Wakers carry the index of a task -----

  ghost predicate CarriesTask(r: IoResources, u: R.State, w: Waker) {
    exists x :: x in u.known && w == D.WakerWord(r, x.0, x.1)
  }

  ghost predicate TaskWakerOk(r: IoResources, u: R.State, t: Task) {
    t.Idle? || CarriesTask(r, u, t.w)
  }

  ghost predicate ChannelWakersOk(r: IoResources, u: R.State, c: Channel) {
    TaskWakerOk(r, u, c.task) && (c.interest.Some? ==> CarriesTask(r, u, c.interest.value))
  }

  ghost predicate SourceWakersOk(r: IoResources, u: R.State, src: Source) {
    ChannelWakersOk(r, u, src.read) && ChannelWakersOk(r, u, src.write)
  }

  ghost predicate WakersOk(r: IoResources, x: X.State, u: R.State) {
    && (forall i :: 0 <= i < |x.sources| ==> SourceWakersOk(r, u, x.sources[i]))
    && (forall k :: 0 <= k < |x.wakers| ==> CarriesTask(r, u, x.wakers[k]))
  }

  lemma ReactorKeepsWakers(r: IoResources, x: X.State, u: R.State, a: X.Action)
    requires WakersOk(r, x, u) && X.Enabled(x, a) && (a.Start? ==> CarriesTask(r, u, a.w))
    ensures WakersOk(r, X.Do(x, a), u)
  {
    var y := X.Do(x, a);
    if a.StrayEvent? || a.Fetch? || a.Enter? || a.Handle? || a.Wake? {
      LoopKeepsWakers(r, x, u, a);
    } else {
      assert SourceWakersOk(r, u, x.sources[a.i]);
      assert y.sources == x.sources[a.i := y.sources[a.i]] && y.wakers == x.wakers;
      SourceKeepsWakers(r, x, u, a);
    }
  }

  lemma SourceKeepsWakers(r: IoResources, x: X.State, u: R.State, a: X.Action)
    requires X.Enabled(x, a) && !(a.StrayEvent? || a.Fetch? || a.Enter? || a.Handle? || a.Wake?)
    requires SourceWakersOk(r, u, x.sources[a.i]) && (a.Start? ==> CarriesTask(r, u, a.w))
    ensures SourceWakersOk(r, u, X.Do(x, a).sources[a.i])
  {
    if a.Acquire? || a.Proceed? || a.TryIo? { OperationKeepsWakers(r, x, u, a); }
  }

  lemma OperationKeepsWakers(r: IoResources, x: X.State, u: R.State, a: X.Action)
    requires X.Enabled(x, a) && (a.Acquire? || a.Proceed? || a.TryIo?) && SourceWakersOk(r, u, x.sources[a.i])
    ensures SourceWakersOk(r, u, X.Do(x, a).sources[a.i])
  {
    OperationWakers(x, a);
    forall d ensures ChannelWakersOk(r, u, Chan(X.Do(x, a).sources[a.i], d)) {
      assert ChannelWakersOk(r, u, Chan(x.sources[a.i], d));
    }
    assert ChannelWakersOk(r, u, Chan(X.Do(x, a).sources[a.i], Read));
    assert ChannelWakersOk(r, u, Chan(X.Do(x, a).sources[a.i], Write));
  }

  /** An operation keeps its waker and stores no other. */
  lemma OperationWakers(x: X.State, a: X.Action)
    requires X.Enabled(x, a) && (a.Acquire? || a.Proceed? || a.TryIo?)
    ensures forall d ::
              var c, e := Chan(x.sources[a.i], d), Chan(X.Do(x, a).sources[a.i], d);
              || e == c
              || (&& !c.task.Idle? && (e.task.Idle? || e.task.w == c.task.w)
                  && (e.interest == c.interest || e.interest == Some(c.task.w)))
  {
  }

  lemma LoopKeepsWakers(r: IoResources, x: X.State, u: R.State, a: X.Action)
    requires WakersOk(r, x, u) && X.Enabled(x, a)
    requires a.StrayEvent? || a.Fetch? || a.Enter? || a.Handle? || a.Wake?
    ensures WakersOk(r, X.Do(x, a), u)
  {
    if a.Handle? { assert SourceWakersOk(r, u, x.sources[x.batch[0].index]); }
  }

  lemma KnowingMoreKeepsWakers(r: IoResources, x: X.State, u: R.State, v: R.State)
    requires WakersOk(r, x, u) && u.known <= v.known
    ensures WakersOk(r, x, v)
  {
    forall w | CarriesTask(r, u, w) ensures CarriesTask(r, v, w) {
      var y :| y in u.known && w == D.WakerWord(r, y.0, y.1);
      assert y in v.known;
    }
    forall i | 0 <= i < |x.sources| ensures SourceWakersOk(r, v, x.sources[i]) {
      assert SourceWakersOk(r, u, x.sources[i]);
    }
  }

  /** A worker that polls has made the waker for its task. */
  ghost predicate PollersKnown(u: R.State) {
    forall v :: 0 <= v < |u.queue.workers| && u.queue.workers[v].Polling?
      ==> (u.queue.workers[v].b, u.queue.workers[v].o) in u.known
  }

  lemma PollersKnownStep(r: IoResources, u: R.State, a: R.Action)
    requires PollersKnown(u) && R.Enabled(r, u, a)
    ensures PollersKnown(R.Do(r, u, a)) && u.known <= R.Do(r, u, a).known
  {
  }

  /** A waker's word leads back to the bucket and offset it was made for. */
  lemma TargetOfWord(r: IoResources, b: nat, o: nat)
    requires r.Supported() && b < MAX_BUCKETS && o < r.PerBucket()
    ensures Target(r, D.WakerWord(r, b, o)) == (b, o)
  {
    ProductLimit(b, r.PerBucket(), o);
    D.LimitOfFour();
    TokenRoundTrip(QueueIndexAt(r, b, o), 0);
    SplitIndex(b, r.PerBucket(), o);
  }

  lemma CarriedTarget(r: IoResources, u: R.State, w: Waker)
    requires R.Sized(r, u) && R.TasksOnly(r, u) && CarriesTask(r, u, w)
    ensures Target(r, w) in u.known && Target(r, w).0 < |u.queue.slots|
  {
    var x :| x in u.known && w == D.WakerWord(r, x.0, x.1);
    assert R.NamesTask(r, u, x.0, x.1);
    TargetOfWord(r, x.0, x.1);
  }

  // ----- Woken sleepers are enqueued -----

  /** Whoever sleeps on a channel and was woken is owed a poll of its task, or has been attended to since. */
  ghost predicate WokenAt(r: IoResources, s: State, x: (nat, Direction)) {
    x.0 < |s.reactor.sources| && r.PerBucket() > 0 ==>
      var t := Chan(s.reactor.sources[x.0], x.1).task;
      t.Parked? && t.woken ==> RW.Owed(s.runtime, Target(r, t.w).0, Target(r, t.w).1) || x in s.served
  }

  lemma ReactKeepsWoken(r: IoResources, s: State, a: Action, x: (nat, Direction))
    requires Enabled(r, s, a) && (a.React? || a.StartIo?) && WokenAt(r, s, x)
    ensures WokenAt(r, Do(r, s, a), x)
  {
    var y := if a.React? then a.x else Start(a.i, a.d, WakerOf(r, s, a.v));
    if x.0 < |s.reactor.sources| { SleepersAsBefore(s.reactor, y, x.0, x.1); }
  }

  /** Only invoking a waker wakes anybody. */
  lemma SleepersAsBefore(s: X.State, a: X.Action, i: nat, d: Direction)
    requires X.Enabled(s, a) && i < |s.sources| && !(a.Wake? && |s.wakers| > 0)
    ensures var t := Chan(X.Do(s, a).sources[i], d).task;
            t.Parked? && t.woken ==> t == Chan(s.sources[i], d).task && !(a.Start? && a.i == i && a.d == d)
  {
    if a.StrayEvent? || a.Fetch? || a.Enter? || a.Handle? || a.Wake? {
      LoopKeepsTasks(s, a, i, d);
    } else if a.i != i {
      assert X.Do(s, a).sources[i] == s.sources[i];
    }
  }

  lemma LoopKeepsTasks(s: X.State, a: X.Action, i: nat, d: Direction)
    requires X.Enabled(s, a) && i < |s.sources| && (a.StrayEvent? || a.Fetch? || a.Enter? || a.Handle? || a.Wake?)
    ensures Chan(X.Do(s, a).sources[i], d).task ==
            if a.Wake? && |s.wakers| > 0 then Woken(Chan(s.sources[i], d).task, s.wakers[0])
            else Chan(s.sources[i], d).task
  {
  }

  lemma InvokeKeepsWoken(r: IoResources, s: State, e: nat, x: (nat, Direction))
    requires Enabled(r, s, Invoke(e)) && WokenAt(r, s, x) && RW.Orderly(r, s.runtime)
    ensures WokenAt(r, Do(r, s, Invoke(e)), x)
  {
    if x.0 < |s.reactor.sources| {
      var t := Chan(s.reactor.sources[x.0], x.1).task;
      XWake(s.reactor, x.0, x.1);
      if t.Parked? && RW.Owed(s.runtime, Target(r, t.w).0, Target(r, t.w).1) {
        StillOwed(r, s.runtime, Posting(r, s, e), Target(r, t.w).0, Target(r, t.w).1);
      }
      var target := Target(r, s.reactor.wakers[0]);
      assert target.1 in R.Do(r, s.runtime, Posting(r, s, e)).queue.slots[target.0].jobs;
    }
  }

  lemma XWake(s: X.State, i: nat, d: Direction)
    requires X.Enabled(s, Wake) && |s.wakers| > 0 && i < |s.sources|
    ensures Chan(X.Do(s, Wake).sources[i], d).task == Woken(Chan(s.sources[i], d).task, s.wakers[0])
  {
  }

  lemma StillOwed(r: IoResources, u: R.State, a: R.Action, b: nat, o: nat)
    requires RW.Orderly(r, u) && R.Enabled(r, u, a) && RW.Owed(u, b, o)
    ensures RW.Owed(R.Do(r, u, a), b, o) || RW.Attends(r, u, a, b, o)
  {
    assert R.MatchedAt(r, u, b);
    RW.OwedStep(r, u, a, b, o);
  }

  lemma RunKeepsWoken(r: IoResources, s: State, a: R.Action, x: (nat, Direction))
    requires Enabled(r, s, Run(a)) && WokenAt(r, s, x) && RW.Orderly(r, s.runtime)
    ensures WokenAt(r, Do(r, s, Run(a)), x)
  {
    if x.0 < |s.reactor.sources| {
      var t := Chan(s.reactor.sources[x.0], x.1).task;
      if t.Parked? && t.woken && x !in s.served {
        var target := Target(r, t.w);
        StillOwed(r, s.runtime, a, target.0, target.1);
        if RW.Attends(r, s.runtime, a, target.0, target.1) {
          assert x in Channels(s) && WokenFor(r, s, x, target);
        }
      }
    }
  }

  // ----- Whole runs -----

  ghost predicate Inv(r: IoResources, s: State) {
    && XT.Inv(s.reactor) && R.Sized(r, s.runtime) && R.TasksOnly(r, s.runtime) && PollersKnown(s.runtime)
    && RW.Orderly(r, s.runtime)
    && WakersOk(r, s.reactor, s.runtime)
    && forall x :: WokenAt(r, s, x)
  }

  lemma StepKeeps(r: IoResources, s: State, a: Action)
    requires Inv(r, s) && Enabled(r, s, a)
    ensures Inv(r, Do(r, s, a))
  {
    var t := Do(r, s, a);
    StepKeepsReactor(r, s, a);
    StepKeepsRuntime(r, s, a);
    forall x ensures WokenAt(r, t, x) {
      assert WokenAt(r, s, x);
      if a.Run? { RunKeepsWoken(r, s, a.a, x); }
      else if a.Invoke? { InvokeKeepsWoken(r, s, a.e, x); }
      else { ReactKeepsWoken(r, s, a, x); }
    }
  }

  lemma StepKeepsRuntime(r: IoResources, s: State, a: Action)
    requires Inv(r, s) && Enabled(r, s, a)
    ensures var t := Do(r, s, a);
            R.Sized(r, t.runtime) && R.TasksOnly(r, t.runtime) && PollersKnown(t.runtime)
            && RW.Orderly(r, t.runtime)
            && s.runtime.known <= t.runtime.known
  {
    if a.Run? || a.Invoke? {
      var b := if a.Run? then a.a else Posting(r, s, a.e);
      R.TasksOnlyStep(r, s.runtime, b);
      RW.OrderlyStep(r, s.runtime, b);
      PollersKnownStep(r, s.runtime, b);
      forall k | 0 <= k < |s.runtime.life.buckets|
        ensures |R.Do(r, s.runtime, b).life.buckets[k].connections| == r.httpConnections
      {
        if !b.Queue? { R.StepKeepsConnections(s.runtime.life, b.l, k); }
      }
    }
  }

  lemma StepKeepsReactor(r: IoResources, s: State, a: Action)
    requires Inv(r, s) && Enabled(r, s, a)
    ensures XT.Inv(Do(r, s, a).reactor) && WakersOk(r, Do(r, s, a).reactor, Do(r, s, a).runtime)
  {
    StepKeepsRuntime(r, s, a);
    if !a.Run? {
      var x := match a case React(x) => x case StartIo(v, i, d) => Start(i, d, WakerOf(r, s, v)) case _ => Wake;
      XT.StepKeeps(s.reactor, x);
      if a.StartIo? {
        var pc := s.runtime.queue.workers[a.v];
        assert (pc.b, pc.o) in s.runtime.known && x.w == D.WakerWord(r, pc.b, pc.o);
      }
      ReactorKeepsWakers(r, s.reactor, s.runtime, x);
    }
    KnowingMoreKeepsWakers(r, Do(r, s, a).reactor, s.runtime, Do(r, s, a).runtime);
  }

  lemma {:induction false} RunsKeep(r: IoResources, s: State, run: seq<Action>)
    requires Initial(s) && R.Sized(r, s.runtime) && ValidRun(r, s, run)
    ensures Inv(r, After(r, s, run))
  {
    if |run| == 0 {
      XT.RunsKeep(s.reactor, []);
      RW.InitialIsOrderly(r, s.runtime);
    } else {
      RunsKeep(r, s, run[..|run| - 1]);
      StepKeeps(r, After(r, s, run[..|run| - 1]), run[|run| - 1]);
    }
  }

  /** Invoking a waker never runs into a bucket that does not exist: with a call to spare it is possible. */
  lemma WakersCanBeInvoked(r: IoResources, s: State, run: seq<Action>, e: nat)
    requires Initial(s) && R.Sized(r, s.runtime) && ValidRun(r, s, run)
    requires var t := After(r, s, run);
             && t.reactor.loop == Draining && |t.reactor.wakers| > 0
             && e < |t.runtime.queue.enqueuers| && t.runtime.queue.enqueuers[e] == Q.Idle
    ensures Enabled(r, After(r, s, run), Invoke(e))
  {
    RunsKeep(r, s, run);
    var t := After(r, s, run);
    assert CarriesTask(r, t.runtime, t.reactor.wakers[0]);
    CarriedTarget(r, t.runtime, t.reactor.wakers[0]);
  }

  lemma {:induction false} RuntimeInvariant(r: IoResources, s: State, run: seq<Action>)
    requires Initial(s) && ValidRun(r, s, run) && NoRace(run)
    ensures R.Inv(r, After(r, s, run).runtime)
  {
    if |run| == 0 {
      R.RunsKeep(r, s.runtime, []);
    } else {
      var before, a := run[..|run| - 1], run[|run| - 1];
      assert a == run[|before|];
      assert NoRace(before);
      RuntimeInvariant(r, s, before);
      RuntimeStep(r, After(r, s, before), a);
    }
  }

  lemma RuntimeStep(r: IoResources, s: State, a: Action)
    requires R.Inv(r, s.runtime) && Enabled(r, s, a) && !Races(a)
    ensures R.Inv(r, Do(r, s, a).runtime)
  {
    if a.Run? { R.StepKeeps(r, s.runtime, a.a); }
    if a.Invoke? { R.StepKeeps(r, s.runtime, Posting(r, s, a.e)); }
  }

  /** A wake is dequeued for a connection of bucket b that is only reserved. */
  predicate LosesWorker(a: Action, b: nat) {
    a.Run? && RL.PollsReserved(a.a, b)
  }

  predicate NeverLoses(run: seq<Action>, b: nat) {
    forall k :: 0 <= k < |run| ==> !LosesWorker(run[k], b)
  }

  lemma LastAction(run: seq<Action>, b: nat)
    requires |run| > 0
    ensures NeverLoses(run, b) <==> NeverLoses(run[..|run| - 1], b) && !LosesWorker(run[|run| - 1], b)
    ensures NoRace(run) ==> NoRace(run[..|run| - 1])
  {
    var before := run[..|run| - 1];
    assert run == before + [run[|run| - 1]];
    assert forall k :: 0 <= k < |before| ==> before[k] == run[k];
  }

  lemma {:induction false} OwnersSurvive(r: IoResources, s: State, run: seq<Action>, b: nat)
    requires Initial(s) && ValidRun(r, s, run) && NoRace(run) && NeverLoses(run, b)
    requires b < |After(r, s, run).runtime.life.buckets|
    ensures After(r, s, run).runtime.life.buckets[b].poll != L.Stuck
  {
    if |run| > 0 {
      LastAction(run, b);
      OwnersSurvive(r, s, run[..|run| - 1], b);
      RuntimeInvariant(r, s, run[..|run| - 1]);
      SurvivalStep(r, After(r, s, run[..|run| - 1]), run[|run| - 1], b);
    }
  }

  lemma SurvivalStep(r: IoResources, s: State, a: Action, b: nat)
    requires R.Inv(r, s.runtime) && Enabled(r, s, a) && !LosesWorker(a, b)
    requires b < |s.runtime.life.buckets| && s.runtime.life.buckets[b].poll != L.Stuck
    ensures Do(r, s, a).runtime.life.buckets[b].poll != L.Stuck
  {
    if a.Run? && !a.a.Queue? { L.StuckStep(s.runtime.life, a.a.l, b); }
  }

  // ----- What `served` records -----

  predicate Asleep(s: State, i: nat, d: Direction, w: Waker) {
    i < |s.reactor.sources| && Chan(s.reactor.sources[i], d).task == Parked(w, true)
  }

  /** A worker attends to a woken sleeper's task: it polls that very task, or finds it ended, or panics on
      it. */
  predicate AttendsFor(r: IoResources, s: State, a: Action, i: nat, d: Direction, w: Waker)
    requires r.PerBucket() > 0
  {
    Asleep(s, i, d, w) && a.Run? && RW.Attends(r, s.runtime, a.a, Target(r, w).0, Target(r, w).1)
  }

  /** The sleeper has been asleep and woken ever since a worker attended to its task. */
  ghost predicate AttendedSince(r: IoResources, s: State, run: seq<Action>, i: nat, d: Direction, w: Waker)
    requires ValidRun(r, s, run) && r.PerBucket() > 0
    decreases |run|
  {
    && |run| > 0 && Asleep(After(r, s, run), i, d, w)
    && (|| AttendedSince(r, s, run[..|run| - 1], i, d, w)
        || AttendsFor(r, After(r, s, run[..|run| - 1]), run[|run| - 1], i, d, w))
  }

  /** Nobody is served who is in the middle of an operation or sleeps unwoken. */
  predicate ServedAt(s: State, x: (nat, Direction)) {
    x in s.served ==>
      && x.0 < |s.reactor.sources|
      && var t := Chan(s.reactor.sources[x.0], x.1).task;
         t.Idle? || (t.Parked? && t.woken)
  }

  lemma ServedStep(r: IoResources, s: State, a: Action, x: (nat, Direction))
    requires Enabled(r, s, a) && ServedAt(s, x)
    ensures ServedAt(Do(r, s, a), x)
    ensures x in Do(r, s, a).served && x !in s.served ==>
              && a.Run? && a.a.Poll? && R.BeginsPoll(a.a.l)
              && WokenFor(r, s, x, (s.runtime.queue.workers[a.a.w].b, s.runtime.queue.workers[a.a.w].o))
  {
    var t := Do(r, s, a);
    if x in t.served && x in s.served && !a.Run? {
      var y := match a case React(y) => y case StartIo(v, i, d) => Start(i, d, WakerOf(r, s, v)) case _ => Wake;
      RestersStay(s.reactor, y, x.0, x.1);
    }
  }

  /** Whoever is idle or woken stays so until it starts an operation or its stream is closed. */
  lemma RestersStay(s: X.State, a: X.Action, i: nat, d: Direction)
    requires X.Enabled(s, a) && i < |s.sources| && !(a.Start? && a.i == i && a.d == d)
    requires var t := Chan(s.sources[i], d).task; t.Idle? || (t.Parked? && t.woken)
    ensures var t := Chan(X.Do(s, a).sources[i], d).task;
            t.Idle? || t == Chan(s.sources[i], d).task
  {
    if a.StrayEvent? || a.Fetch? || a.Enter? || a.Handle? || a.Wake? {
      LoopKeepsTasks(s, a, i, d);
    } else if a.i != i {
      assert X.Do(s, a).sources[i] == s.sources[i];
    }
  }

  /** A channel that counts as served, and whose sleeper still sleeps, had its task attended to during this
      very sleep, after the wake. */
  lemma {:induction false} ServedWasAttended(r: IoResources, s: State, run: seq<Action>, i: nat, d: Direction, w: Waker)
    requires Initial(s) && ValidRun(r, s, run) && r.PerBucket() > 0
    ensures ServedAt(After(r, s, run), (i, d))
    ensures (i, d) in After(r, s, run).served && Asleep(After(r, s, run), i, d, w) ==> AttendedSince(r, s, run, i, d, w)
    decreases |run|
  {
    if |run| > 0 {
      var before, a := run[..|run| - 1], run[|run| - 1];
      ServedWasAttended(r, s, before, i, d, w);
      var u := After(r, s, before);
      ServedStep(r, u, a, (i, d));
      if (i, d) in Do(r, u, a).served && Asleep(Do(r, u, a), i, d, w) {
        if (i, d) in u.served {
          StillAsleep(r, u, a, i, d, w);
        } else {
          assert AttendsFor(r, u, a, i, d, w);
        }
      }
    }
  }

  lemma StillAsleep(r: IoResources, s: State, a: Action, i: nat, d: Direction, w: Waker)
    requires Enabled(r, s, a) && (i, d) in s.served && (i, d) in Do(r, s, a).served
    requires ServedAt(s, (i, d)) && Asleep(Do(r, s, a), i, d, w)
    ensures Asleep(s, i, d, w)
  {
    if !a.Run? {
      var y := match a case React(y) => y case StartIo(v, j, e) => Start(j, e, WakerOf(r, s, v)) case _ => Wake;
      RestersStay(s.reactor, y, i, d);
    }
  }

  /** No readiness is lost between reactor and queue.  In every state of a race-free run, whoever sleeps on
      a ready descriptor has its waker collected or stored with an event on its way; or it was woken, and
      since then, in this very sleep, its task has been attended to, or is owed a poll: a worker has it in
      hand, or it waits in its bucket's mask, and if it lives, somebody is going to look there, whom no
      reserved connection has taken down. */
  lemma ReadySleeperIsSeenTo(r: IoResources, s: State, run: seq<Action>, i: nat, d: Direction)
    requires Initial(s) && R.Sized(r, s.runtime) && ValidRun(r, s, run) && NoRace(run) && i < |s.reactor.sources|
    requires var c := Chan(After(r, s, run).reactor.sources[i], d); c.task.Parked? && c.ready
    ensures var t := After(r, s, run);
            var c := Chan(t.reactor.sources[i], d);
            if !c.task.woken
            then c.task.w in t.reactor.wakers || (c.interest == Some(c.task.w) && XT.Untaken(t.reactor, i, d))
            else AttendedSince(r, s, run, i, d, c.task.w) || SeenTo(r, t.runtime, Target(r, c.task.w), run)
  {
    RunsKeep(r, s, run);
    var t := After(r, s, run);
    var c := Chan(t.reactor.sources[i], d);
    if c.task.woken {
      assert WokenAt(r, t, (i, d));
      ServedWasAttended(r, s, run, i, d, c.task.w);
      RuntimeInvariant(r, s, run);
      if (i, d) !in t.served {
        var b := Target(r, c.task.w).0;
        assert R.LiveCoveredAt(r, t.runtime, b);
        if NeverLoses(run, b) { OwnersSurvive(r, s, run, b); }
      }
    } else {
      XT.InvNotices(t.reactor, i, d);
    }
  }

  /** A task is owed a poll, and if it waits in its bucket's mask and lives, somebody is going to look there. */
  ghost predicate SeenTo(r: IoResources, u: R.State, target: (nat, nat), run: seq<Action>) {
    && RW.Owed(u, target.0, target.1) && target.0 < |u.life.buckets|
    && (target.1 in u.queue.slots[target.0].jobs && R.TaskLives(r, u.life.buckets[target.0], target.1) ==>
          C.HasCover(u.queue, target.0) && (NeverLoses(run, target.0) ==> RL.LivingCover(u, target.0)))
  }
}

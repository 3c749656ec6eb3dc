/** Whoever sleeps on a ready descriptor can be served: the event loop wakes it, and a worker polls its
    task, by own steps of the server, for every kernel that answers honestly and every application whose
    polls return. */
module ServerProgress {
  import opened Options
  import opened Index
  import Q = BucketQueue
  import L = Lifecycle
  import R = Runtime
  import RW = RuntimeWakes
  import RP = RuntimeProgress
  import W = QueueWindDown
  import QP = QueueProgress
  import X = Reactor
  import XT = ReactorTheorems
  import XP = ReactorProgress
  import opened Server

  /** A step the server takes on its own: no new operation, event or wake but by the event loop, nothing of
      the accept loop, operations answer as the kernel says, and polls go as the application says. */
  predicate OwnAction(s: State, a: Action, f: RP.Application, io: XP.Kernel) {
    match a
    case React(x) => XP.OwnStep(s.reactor, x, io)
    case StartIo(_, _, _) => false
    case Invoke(_) => true
    case Run(b) => RP.OwnAction(s.runtime, b, f)
  }

  /** All steps of the run after the first n are own steps. */
  ghost predicate OwnAfter(r: IoResources, s: State, run: seq<Action>, n: nat, f: RP.Application, io: XP.Kernel)
    requires ValidRun(r, s, run)
    decreases |run|
  {
    |run| <= n ||
    (&& OwnAfter(r, s, run[..|run| - 1], n, f, io)
     && OwnAction(After(r, s, run[..|run| - 1]), run[|run| - 1], f, io))
  }

  lemma Append(r: IoResources, s: State, run: seq<Action>, n: nat, a: Action, f: RP.Application, io: XP.Kernel)
    requires ValidRun(r, s, run) && OwnAfter(r, s, run, n, f, io)
    requires Enabled(r, After(r, s, run), a) && OwnAction(After(r, s, run), a, f, io)
    ensures ValidRun(r, s, run + [a]) && OwnAfter(r, s, run + [a], n, f, io)
    ensures After(r, s, run + [a]) == Do(r, After(r, s, run), a)
  {
    var longer := run + [a];
    assert longer[..|longer| - 1] == run && longer[|longer| - 1] == a;
  }

  /** A state from which sleepers can be served. */
  ghost predicate Sound(r: IoResources, s: State) {
    Inv(r, s) && XP.Orderly(s.reactor) && RP.Sound(r, s.runtime) && |s.runtime.queue.enqueuers| >= 1
  }

  lemma SoundStep(r: IoResources, s: State, a: Action, f: RP.Application, io: XP.Kernel)
    requires Sound(r, s) && Enabled(r, s, a) && OwnAction(s, a, f, io)
    ensures Sound(r, Do(r, s, a))
  {
    StepKeeps(r, s, a);
    match a
    case React(x) => XP.OrderlyStep(s.reactor, x);
    case Invoke(e) =>
      XP.OrderlyStep(s.reactor, X.Wake);
      PostIsSound(r, s.runtime, Posting(r, s, e));
    case Run(b) => RP.SoundStep(r, s.runtime, b, f);
  }

  lemma PostIsSound(r: IoResources, u: R.State, a: R.Action)
    requires RP.Sound(r, u) && R.Enabled(r, u, a) && a.Queue?
    ensures RP.Sound(r, R.Do(r, u, a))
  {
    R.StepKeeps(r, u, a);
    R.TasksOnlyStep(r, u, a);
    RW.OrderlyStep(r, u, a);
  }

  // ----- The event loop wakes the sleeper -----

  /** The next step of the server towards a quiet event loop: the loop's own, once a call is free to carry
      a wake. */
  lemma Closer(r: IoResources, s: State, f: RP.Application, io: XP.Kernel, i: nat, d: X.Direction, w: X.Waker)
    returns (a: Action)
    requires Sound(r, s) && XP.Honest(io) && XP.Sleeps(s.reactor, i, d, w) && !XP.Quiet(s.reactor)
    ensures Enabled(r, s, a) && OwnAction(s, a, f, io) && XP.Sleeps(Do(r, s, a).reactor, i, d, w)
    ensures Less(s, Do(r, s, a))
  {
    var x := XP.SomeAdvance(s.reactor, io, i, d, w);
    if x.Wake? && |s.reactor.wakers| > 0 {
      if e :| 0 <= e < |s.runtime.queue.enqueuers| && s.runtime.queue.enqueuers[e] == Q.Idle {
        a := Invoke(e);
        InvokeEnabled(r, s, e);
      } else {
        a := FreeCall(r, s, f, io);
      }
    } else {
      a := React(x);
    }
  }

  predicate Less(s: State, t: State) {
    || XP.LoopWork(t.reactor) < XP.LoopWork(s.reactor)
    || (&& XP.LoopWork(t.reactor) == XP.LoopWork(s.reactor)
        && (|| XP.HolderRank(t.reactor) < XP.HolderRank(s.reactor)
            || (t.reactor == s.reactor && QP.Work(t.runtime.queue) < QP.Work(s.runtime.queue))))
  }

  lemma InvokeEnabled(r: IoResources, s: State, e: nat)
    requires Inv(r, s) && X.Enabled(s.reactor, X.Wake) && |s.reactor.wakers| > 0
    requires e < |s.runtime.queue.enqueuers| && s.runtime.queue.enqueuers[e] == Q.Idle
    ensures Enabled(r, s, Invoke(e))
  {
    assert CarriesTask(r, s.runtime, s.reactor.wakers[0]);
    CarriedTarget(r, s.runtime, s.reactor.wakers[0]);
  }

  /** A call under way takes its next step. */
  lemma FreeCall(r: IoResources, s: State, f: RP.Application, io: XP.Kernel) returns (a: Action)
    requires Sound(r, s) && s.runtime.queue.enqueuers[0] != Q.Idle
    ensures Enabled(r, s, a) && OwnAction(s, a, f, io) && Do(r, s, a).reactor == s.reactor
    ensures QP.Work(Do(r, s, a).runtime.queue) < QP.Work(s.runtime.queue)
  {
    var q := W.FinishCall(s.runtime.queue, 0, RP.Continues);
    a := Run(R.Queue(q));
  }

  /** The run extended until the event loop is quiet, with the sleeper undisturbed. */
  lemma {:induction false} FallQuiet(r: IoResources, s: State, run: seq<Action>, n: nat, f: RP.Application,
                                     io: XP.Kernel, i: nat, d: X.Direction, w: X.Waker)
    returns (longer: seq<Action>)
    requires ValidRun(r, s, run) && OwnAfter(r, s, run, n, f, io) && n <= |run| && XP.Honest(io)
    requires Sound(r, After(r, s, run)) && XP.Sleeps(After(r, s, run).reactor, i, d, w)
    ensures run <= longer && ValidRun(r, s, longer) && OwnAfter(r, s, longer, n, f, io)
    ensures var t := After(r, s, longer);
            Sound(r, t) && XP.Quiet(t.reactor) && XP.Sleeps(t.reactor, i, d, w)
    decreases XP.LoopWork(After(r, s, run).reactor), XP.HolderRank(After(r, s, run).reactor),
              QP.Work(After(r, s, run).runtime.queue)
  {
    longer := run;
    if !XP.Quiet(After(r, s, run).reactor) {
      longer := OneCloser(r, s, run, n, f, io, i, d, w);
      longer := FallQuiet(r, s, longer, n, f, io, i, d, w);
    }
  }

  lemma OneCloser(r: IoResources, s: State, run: seq<Action>, n: nat, f: RP.Application,
                  io: XP.Kernel, i: nat, d: X.Direction, w: X.Waker)
    returns (longer: seq<Action>)
    requires ValidRun(r, s, run) && OwnAfter(r, s, run, n, f, io) && XP.Honest(io)
    requires Sound(r, After(r, s, run)) && XP.Sleeps(After(r, s, run).reactor, i, d, w)
    requires !XP.Quiet(After(r, s, run).reactor)
    ensures run < longer && ValidRun(r, s, longer) && OwnAfter(r, s, longer, n, f, io)
    ensures Sound(r, After(r, s, longer)) && XP.Sleeps(After(r, s, longer).reactor, i, d, w)
    ensures Less(After(r, s, run), After(r, s, longer))
  {
    var t := After(r, s, run);
    var a := Closer(r, t, f, io, i, d, w);
    SoundStep(r, t, a, f, io);
    Append(r, s, run, n, a, f, io);
    longer := run + [a];
  }

  // ----- A worker polls its task -----

  /** Steps of queue and lifecycle, taken by the server. */
  lemma {:induction false} Lift(r: IoResources, s: State, run: seq<Action>, n: nat, steps: seq<R.Action>,
                                f: RP.Application, io: XP.Kernel, i: nat, d: X.Direction, w: X.Waker)
    returns (longer: seq<Action>)
    requires ValidRun(r, s, run) && OwnAfter(r, s, run, n, f, io) && r.PerBucket() > 0
    requires var u := After(r, s, run).runtime;
             R.ValidRun(r, u, steps) && RP.OwnRun(r, u, steps, f)
    requires Asleep(After(r, s, run), i, d, w)
    ensures run <= longer && ValidRun(r, s, longer) && OwnAfter(r, s, longer, n, f, io)
    ensures var t := After(r, s, longer);
            && t.reactor == After(r, s, run).reactor
            && t.runtime == R.After(r, After(r, s, run).runtime, steps)
    ensures RW.AttendedIn(r, After(r, s, run).runtime, steps, Target(r, w).0, Target(r, w).1)
        ==> AttendedSince(r, s, longer, i, d, w)
    decreases |steps|
  {
    longer := run;
    if |steps| > 0 {
      var before, b := steps[..|steps| - 1], steps[|steps| - 1];
      longer := Lift(r, s, run, n, before, f, io, i, d, w);
      LiftStep(r, s, longer, n, b, f, io, i, d, w);
      longer := longer + [Run(b)];
    }
  }

  lemma LiftStep(r: IoResources, s: State, run: seq<Action>, n: nat, b: R.Action,
                 f: RP.Application, io: XP.Kernel, i: nat, d: X.Direction, w: X.Waker)
    requires ValidRun(r, s, run) && OwnAfter(r, s, run, n, f, io) && r.PerBucket() > 0
    requires var u := After(r, s, run).runtime;
             R.Enabled(r, u, b) && RP.OwnAction(u, b, f)
    requires Asleep(After(r, s, run), i, d, w)
    ensures ValidRun(r, s, run + [Run(b)]) && OwnAfter(r, s, run + [Run(b)], n, f, io)
    ensures After(r, s, run + [Run(b)]) == Do(r, After(r, s, run), Run(b))
    ensures || AttendedSince(r, s, run, i, d, w)
            || RW.Attends(r, After(r, s, run).runtime, b, Target(r, w).0, Target(r, w).1)
        ==> AttendedSince(r, s, run + [Run(b)], i, d, w)
  {
    Append(r, s, run, n, Run(b), f, io);
    var longer := run + [Run(b)];
    assert longer[..|longer| - 1] == run && longer[|longer| - 1] == Run(b);
  }

  // ----- Reachable states -----

  lemma {:induction false} RunsAreOrderly(r: IoResources, s: State, run: seq<Action>)
    requires Initial(s) && ValidRun(r, s, run)
    ensures XP.Orderly(After(r, s, run).reactor)
  {
    if |run| == 0 {
      XP.RunsAreOrderly(s.reactor, []);
    } else {
      var before, a := run[..|run| - 1], run[|run| - 1];
      RunsAreOrderly(r, s, before);
      OrderlyStep(r, After(r, s, before), a);
    }
  }

  lemma OrderlyStep(r: IoResources, s: State, a: Action)
    requires Enabled(r, s, a) && XP.Orderly(s.reactor)
    ensures XP.Orderly(Do(r, s, a).reactor)
  {
    match a
    case React(x) => XP.OrderlyStep(s.reactor, x);
    case StartIo(v, i, d) => XP.OrderlyStep(s.reactor, X.Start(i, d, WakerOf(r, s, v)));
    case Invoke(_) => XP.OrderlyStep(s.reactor, X.Wake);
    case Run(_) =>
  }

  predicate NoLoss(run: seq<Action>) {
    forall k :: 0 <= k < |run| ==> !(run[k].Run? && run[k].a.Poll? && run[k].a.l.PollReserved?)
  }

  lemma ReachableIsSound(r: IoResources, s: State, run: seq<Action>)
    requires Initial(s) && R.Sized(r, s.runtime) && |s.runtime.queue.enqueuers| >= 1
    requires ValidRun(r, s, run) && NoRace(run) && NoLoss(run)
    ensures Sound(r, After(r, s, run))
  {
    RunsKeep(r, s, run);
    RunsAreOrderly(r, s, run);
    RuntimeInvariant(r, s, run);
    var u := After(r, s, run).runtime;
    forall b | 0 <= b < |u.life.buckets| ensures u.life.buckets[b].poll != L.Stuck {
      OwnersSurvive(r, s, run, b);
    }
  }

  /** The sleeper's task has been attended to during this very sleep; or its connection has ended, or its
      bucket's worker stands before a panic, or all workers do. */
  ghost predicate Served(r: IoResources, s: State, run: seq<Action>, i: nat, d: X.Direction, w: X.Waker)
    requires ValidRun(r, s, run) && r.PerBucket() > 0
  {
    var u, target := After(r, s, run).runtime, Target(r, w);
    || AttendedSince(r, s, run, i, d, w)
    || (target.0 < |u.life.buckets| && RP.Ended(r, u.life.buckets[target.0], target.1))
    || RP.OwnerBlocked(r, u, target.0) || RP.AllBlocked(r, u)
  }

  /** From the descriptor to the poll: after every race-free run that lost no worker, whoever sleeps on a
      ready descriptor can be woken and its task polled by the server's own steps, whatever an honest kernel
      and an application with returning polls do. */
  lemma SleeperCanBeServed(r: IoResources, s: State, run: seq<Action>, f: RP.Application, rank: L.Bucket -> nat,
                           io: XP.Kernel, i: nat, d: X.Direction, w: X.Waker)
    returns (longer: seq<Action>)
    requires Initial(s) && R.Sized(r, s.runtime) && |s.runtime.queue.enqueuers| >= 1
    requires ValidRun(r, s, run) && NoRace(run) && NoLoss(run) && XP.Honest(io) && RP.Returns(f, rank)
    requires XP.Sleeps(After(r, s, run).reactor, i, d, w)
    ensures run <= longer && ValidRun(r, s, longer) && OwnAfter(r, s, longer, |run|, f, io)
    ensures Served(r, s, longer, i, d, w)
  {
    ReachableIsSound(r, s, run);
    longer := FallQuiet(r, s, run, |run|, f, io, i, d, w);
    var owed := QuietMeansWoken(r, s, longer, i, d, w);
    if owed {
      longer := PollTask(r, s, longer, |run|, f, rank, io, i, d, w);
    }
  }

  /** Once the event loop is quiet the sleeper has been woken: its task was attended to, or is owed a poll. */
  lemma QuietMeansWoken(r: IoResources, s: State, run: seq<Action>, i: nat, d: X.Direction, w: X.Waker)
    returns (owed: bool)
    requires Initial(s) && ValidRun(r, s, run) && r.PerBucket() > 0
    requires var t := After(r, s, run);
             Sound(r, t) && XP.Quiet(t.reactor) && XP.Sleeps(t.reactor, i, d, w)
    ensures Asleep(After(r, s, run), i, d, w)
    ensures if owed then RW.Owed(After(r, s, run).runtime, Target(r, w).0, Target(r, w).1)
            else AttendedSince(r, s, run, i, d, w)
  {
    var t := After(r, s, run);
    XT.InvNotices(t.reactor, i, d);
    assert WokenAt(r, t, (i, d));
    owed := (i, d) !in t.served;
    if !owed { ServedWasAttended(r, s, run, i, d, w); }
  }

  lemma PollTask(r: IoResources, s: State, run: seq<Action>, n: nat, f: RP.Application, rank: L.Bucket -> nat,
                 io: XP.Kernel, i: nat, d: X.Direction, w: X.Waker)
    returns (longer: seq<Action>)
    requires ValidRun(r, s, run) && OwnAfter(r, s, run, n, f, io) && RP.Returns(f, rank) && r.PerBucket() > 0
    requires var t := After(r, s, run);
             Sound(r, t) && Asleep(t, i, d, w) && RW.Owed(t.runtime, Target(r, w).0, Target(r, w).1)
    ensures run <= longer && ValidRun(r, s, longer) && OwnAfter(r, s, longer, n, f, io)
    ensures Served(r, s, longer, i, d, w)
  {
    var u, b, o := After(r, s, run).runtime, Target(r, w).0, Target(r, w).1;
    var steps := RP.CanSettle(r, u, f, rank);
    longer := Lift(r, s, run, n, steps, f, io, i, d, w);
    var v := R.After(r, u, steps);
    RP.SettledFares(r, u, steps, b, o, f);
    if !RW.AttendedIn(r, u, steps, b, o) && !RP.Ended(r, v.life.buckets[b], o) { RP.SettledOwes(r, v, b, o); }
  }
}

/** Progress of queue and lifecycle together, for every application whose polls return: the runtime's own
    steps serve what was woken, past everything but a worker that stands before one of the two panics. */
module RuntimeProgress {
  import Q = BucketQueue
  import L = Lifecycle
  import opened QueueInvariants
  import opened QueueCoverage
  import opened QueueTheorems
  import opened QueueProgress
  import opened Counting
  import W = QueueWindDown
  import opened Index
  import opened Runtime
  import opened RuntimeWakes
  import opened RuntimeLoss

  // ----- Applications -----

  predicate InApp(p: L.Poll) {
    p == L.PollingMain || p == L.Counted || p.PollingConnection?
  }

  /** What application code can do inside a poll: allocate, take the steps of a handshake, return or fail. */
  predicate AppStep(k: L.Bucket, l: L.Action) {
    && (l.Allocate? || l.CountHandshake? || l.Reserve? || l.Occupy? || LeavesApp(l))
    && L.BucketReady(k, l)
  }

  predicate LeavesApp(l: L.Action) {
    l.Pending? || l.Finished? || l.Fail? || l.NoFreeConnection?
  }

  /** The next step of the application code that worker w runs. */
  type Application = (State, nat) -> L.Action

  predicate PollsBucket(s: State, w: nat) {
    w < |s.queue.workers| && s.queue.workers[w].Polling? && s.queue.workers[w].b < |s.life.buckets|
  }

  function Polled(s: State, w: nat): L.Bucket
    requires PollsBucket(s, w)
  {
    s.life.buckets[s.queue.workers[w].b]
  }

  /** Every poll returns: each step inside it brings a rank of the bucket down. */
  ghost predicate Returns(f: Application, rank: L.Bucket -> nat) {
    forall s: State, w: nat :: PollsBucket(s, w) && InApp(Polled(s, w).poll) ==>
      var k, l := Polled(s, w), f(s, w);
      && AppStep(k, l) && l.b == s.queue.workers[w].b
      && (LeavesApp(l) || rank(L.DoBucket(s.life.size, k, l)) < rank(k))
  }

  /** A worker about to panic: before a main future that is gone, or a connection that is only reserved. */
  predicate Blocked(r: IoResources, s: State, w: nat) {
    && PollsBucket(s, w) && Polled(s, w).poll == L.Resting
    && var k, o := Polled(s, w), s.queue.workers[w].o;
       (o == 0 && !k.future) || (o != 0 && IsReserved(r, k, o))
  }

  /** A step that the runtime takes on its own, with the application's code inside polls: no new wake, no
      spurious wake-up, nothing of the accept loop, and neither panic. */
  predicate OwnAction(s: State, a: Action, f: Application) {
    match a
    case Queue(q) => OwnStep(q)
    case Accept(_) => false
    case Poll(w, l) =>
      && !l.PollMissing? && !l.PollReserved?
      && (PollsBucket(s, w) && InApp(Polled(s, w).poll) ==> l == f(s, w))
  }

  ghost predicate OwnRun(r: IoResources, s: State, run: seq<Action>, f: Application)
    requires ValidRun(r, s, run)
    decreases |run|
  {
    |run| == 0 || (OwnRun(r, s, run[..|run| - 1], f) && OwnAction(After(r, s, run[..|run| - 1]), run[|run| - 1], f))
  }

  // ----- Never stuck -----

  /** The step a worker inside `run_bucket` takes next. */
  function NextInPoll(r: IoResources, s: State, w: nat, f: Application): L.Action
    requires PollsBucket(s, w)
  {
    var b, o := s.queue.workers[w].b, s.queue.workers[w].o;
    var k := s.life.buckets[b];
    match k.poll
    case Resting =>
      if o == 0 then L.PollMain(b)
      else if OffsetOk(r, k, o) && k.connections[o - r.tcpStreams] == L.Occupied
      then L.PollOccupied(b, o - r.tcpStreams)
      else L.PollLate(b, if o < r.tcpStreams then 0 else o - r.tcpStreams)
    case Completing => L.Complete(b)
    case Cleaning(_) => L.CleanStep(b)
    case _ => f(s, w)
  }

  lemma PollerCanMove(r: IoResources, s: State, w: nat, f: Application, rank: L.Bucket -> nat)
    requires TasksOnly(r, s) && Returns(f, rank) && PollsBucket(s, w) && !Blocked(r, s, w)
    requires Polled(s, w).poll != L.Stuck
    ensures var a := Poll(w, NextInPoll(r, s, w, f));
            Enabled(r, s, a) && OwnAction(s, a, f)
  {
    var b, o := s.queue.workers[w].b, s.queue.workers[w].o;
    assert NamesTask(r, s, b, o);
  }

  /** An application that returns from every poll at once. */
  function Idler(s: State, w: nat): L.Action {
    var b := if PollsBucket(s, w) then s.queue.workers[w].b else 0;
    if PollsBucket(s, w) && Polled(s, w).poll == L.Counted then L.Fail(b) else L.Pending(b)
  }

  lemma IdlerReturns()
    ensures Returns(Idler, _ => 0)
  {
  }

  lemma CountedStep(s: L.State, b: nat)
    requires L.Inv(s) && b < |s.buckets| && s.buckets[b].poll == L.Completing
    ensures s.buckets[b].refcount >= 1
  {
    assert L.BucketOk(s.size, s.buckets[b], L.IsClaimed(s, b));
  }

  /** Some step of a worker inside `run_bucket`, or some own step of the queue. */
  ghost predicate SomeMove(r: IoResources, s: State) {
    exists a: Action :: Enabled(r, s, a) && (a.Poll? || (a.Queue? && OwnStep(a.q)))
  }

  lemma PollingCanMove(r: IoResources, s: State, w: nat)
    requires TasksOnly(r, s) && PollsBucket(s, w) && Polled(s, w).poll != L.Stuck
    ensures SomeMove(r, s)
  {
    if Blocked(r, s, w) {
      var b, o := s.queue.workers[w].b, s.queue.workers[w].o;
      assert Enabled(r, s, Poll(w, if o == 0 then L.PollMissing(b) else L.PollReserved(b, o - r.tcpStreams)));
    } else {
      IdlerReturns();
      PollerCanMove(r, s, w, Idler, _ => 0);
      assert Enabled(r, s, Poll(w, NextInPoll(r, s, w, Idler)));
    }
  }

  lemma AwakeCanMove(r: IoResources, s: State, w: nat)
    requires TasksOnly(r, s) && Invariant(s.queue) && w < |s.queue.workers| && s.queue.workers[w] != Q.Asleep
    requires PollsBucket(s, w) ==> Polled(s, w).poll != L.Stuck
    ensures SomeMove(r, s)
  {
    assert HolderOk(s.queue, s.queue.workers[w]);
    if s.queue.workers[w].Polling? {
      PollingCanMove(r, s, w);
    } else {
      AwakeWorkerCanMove(s.queue, w, Q.Continue);
      assert Enabled(r, s, Queue(NextOfWorker(s.queue, w, Q.Continue)));
    }
  }

  lemma CallCanMove(r: IoResources, s: State, e: nat)
    requires Invariant(s.queue) && e < |s.queue.enqueuers| && s.queue.enqueuers[e] != Q.Idle
    requires |s.queue.workers| >= 1 && forall w :: 0 <= w < |s.queue.workers| ==> s.queue.workers[w] == Q.Asleep
    ensures SomeMove(r, s)
  {
    EnqueuerCanMove(s.queue, e);
    assert Enabled(r, s, Queue(NextOfEnqueuer(s.queue, e)));
  }

  /** As long as a live task waits to be polled, some worker or enqueue call can take a step, in race-free
      runs that never dequeue a wake for a reserved connection. */
  lemma NeverStuckOnLiveWake(r: IoResources, s: State, run: seq<Action>, b: nat, o: nat)
    requires Initial(s) && ValidRun(r, s, run) && NoRace(run) && NoLoss(run) && b < |s.queue.slots|
    requires o in After(r, s, run).queue.slots[b].jobs && TaskLives(r, After(r, s, run).life.buckets[b], o)
    ensures SomeMove(r, After(r, s, run))
  {
    var t := After(r, s, run);
    RunsHoldTasks(r, s, run);
    QueueInvariantHolds(r, s, run);
    if w :| 0 <= w < |t.queue.workers| && t.queue.workers[w] != Q.Asleep {
      if PollsBucket(t, w) { OwnerLostIffReservedPolled(r, s, run, t.queue.workers[w].b); }
      AwakeCanMove(r, t, w);
    } else {
      if AtRest(t.queue) {
        AtRestNoLiveTaskWaits(r, s, run, b, o);
        assert false;
      }
      var e :| 0 <= e < |t.queue.enqueuers| && t.queue.enqueuers[e] != Q.Idle;
      CallCanMove(r, t, e);
    }
  }

  // ----- Winding down -----

  /** The poll that begins with offset o. */
  function Begun(r: IoResources, o: nat): L.Poll {
    if o == 0 then L.PollingMain else L.PollingConnection(if o < r.tcpStreams then 0 else o - r.tcpStreams)
  }

  function RankInPoll(r: IoResources, rank: L.Bucket -> nat, k: L.Bucket, o: nat): nat {
    match k.poll
    case Resting => 7 + rank(k.(poll := Begun(r, o)))
    case Completing => 1
    case Cleaning(stage) => if stage <= 3 then 5 - stage else 1
    case Stuck => 0
    case _ => 6 + rank(k)
  }

  /** A state from which the runtime winds down. */
  ghost predicate Sound(r: IoResources, s: State) {
    && Inv(r, s) && TasksOnly(r, s) && Matched(r, s) && |s.queue.workers| >= 1
    && forall b :: 0 <= b < |s.life.buckets| ==> s.life.buckets[b].poll != L.Stuck
  }

  lemma SoundStep(r: IoResources, s: State, a: Action, f: Application)
    requires Sound(r, s) && Enabled(r, s, a) && OwnAction(s, a, f)
    ensures Sound(r, Do(r, s, a))
  {
    StepKeeps(r, s, a);
    TasksOnlyStep(r, s, a);
    OrderlyStep(r, s, a);
    forall b | 0 <= b < |s.life.buckets| ensures Do(r, s, a).life.buckets[b].poll != L.Stuck {
      if !a.Queue? { L.StuckStep(s.life, a.l, b); }
    }
  }

  lemma AppendOwn(r: IoResources, s: State, run: seq<Action>, a: Action, f: Application)
    requires ValidRun(r, s, run) && OwnRun(r, s, run, f)
    requires Enabled(r, After(r, s, run), a) && OwnAction(After(r, s, run), a, f)
    ensures ValidRun(r, s, run + [a]) && OwnRun(r, s, run + [a], f)
    ensures After(r, s, run + [a]) == Do(r, After(r, s, run), a)
  {
    var longer := run + [a];
    assert longer[..|longer| - 1] == run && longer[|longer| - 1] == a;
  }

  /** The steps `NextInPoll` takes, seen from the bucket. */
  predicate Proper(r: IoResources, size: nat, k: L.Bucket, o: nat, l: L.Action, rank: L.Bucket -> nat)
    requires L.OnBucket(l) && L.BucketReady(k, l)
  {
    match k.poll
    case Resting => l.PollLate? || (!l.Claim? && L.DoBucket(size, k, l) == k.(poll := Begun(r, o)))
    case Completing => l.Complete? && k.refcount >= 1
    case Cleaning(_) => l.CleanStep?
    case Stuck => false
    case _ => AppStep(k, l) && (LeavesApp(l) || rank(L.DoBucket(size, k, l)) < rank(k))
  }

  /** A step inside a poll ends the poll or brings its end closer. */
  lemma RankDrops(r: IoResources, size: nat, k: L.Bucket, o: nat, l: L.Action, rank: L.Bucket -> nat)
    requires L.OnBucket(l) && L.BucketReady(k, l) && Proper(r, size, k, o, l, rank) && !EndsPoll(k, l)
    ensures var j := L.DoBucket(size, k, l);
            j.poll != L.Resting && RankInPoll(r, rank, j, o) < RankInPoll(r, rank, k, o)
  {
  }

  lemma NextIsProper(r: IoResources, s: State, w: nat, f: Application, rank: L.Bucket -> nat)
    requires Sound(r, s) && Returns(f, rank) && PollsBucket(s, w) && !Blocked(r, s, w)
    ensures var l := NextInPoll(r, s, w, f);
            && Enabled(r, s, Poll(w, l)) && OwnAction(s, Poll(w, l), f)
            && Proper(r, s.life.size, Polled(s, w), s.queue.workers[w].o, l, rank)
  {
    PollerCanMove(r, s, w, f, rank);
    if Polled(s, w).poll == L.Completing { CountedStep(s.life, s.queue.workers[w].b); }
  }

  /** A run of own steps, extended until the poll of worker w is over. */
  lemma {:induction false} FinishPoll(r: IoResources, s: State, run: seq<Action>, w: nat,
                                      f: Application, rank: L.Bucket -> nat)
    returns (longer: seq<Action>, outcome: Q.Outcome)
    requires ValidRun(r, s, run) && OwnRun(r, s, run, f) && Returns(f, rank)
    requires var t := After(r, s, run);
             Sound(r, t) && PollsBucket(t, w) && !Blocked(r, t, w)
    ensures ValidRun(r, s, longer) && OwnRun(r, s, longer, f) && Sound(r, After(r, s, longer))
    ensures After(r, s, longer).queue == Q.Do(After(r, s, run).queue, Q.Finish(w, outcome))
    decreases var t := After(r, s, run); RankInPoll(r, rank, Polled(t, w), t.queue.workers[w].o)
  {
    var t := After(r, s, run);
    var l := NextInPoll(r, t, w, f);
    var a := Poll(w, l);
    NextIsProper(r, t, w, f, rank);
    SoundStep(r, t, a, f);
    AppendOwn(r, s, run, a, f);
    longer := run + [a];
    if EndsPoll(Polled(t, w), l) {
      outcome := OutcomeOf(Polled(t, w), l);
    } else {
      RankDrops(r, t.life.size, Polled(t, w), t.queue.workers[w].o, l, rank);
      longer, outcome := FinishPoll(r, s, longer, w, f, rank);
    }
  }

  /** Nothing is left to do: every call is over, and every worker sleeps or stands before a panic. */
  ghost predicate Settled(r: IoResources, s: State) {
    && (forall e :: 0 <= e < |s.queue.enqueuers| ==> s.queue.enqueuers[e] == Q.Idle)
    && (forall w :: 0 <= w < |s.queue.workers| ==> s.queue.workers[w] == Q.Asleep || Blocked(r, s, w))
  }

  predicate Less(s: State, t: State) {
    Work(t.queue) < Work(s.queue) || (Work(t.queue) == Work(s.queue) && W.Rank(t.queue) < W.Rank(s.queue))
  }

  /** Some own steps bring an unsettled state closer to rest. */
  lemma CloserToRest(r: IoResources, s: State, run: seq<Action>, f: Application, rank: L.Bucket -> nat)
    returns (longer: seq<Action>)
    requires ValidRun(r, s, run) && OwnRun(r, s, run, f) && Returns(f, rank)
    requires Sound(r, After(r, s, run)) && !Settled(r, After(r, s, run))
    ensures ValidRun(r, s, longer) && OwnRun(r, s, longer, f) && Sound(r, After(r, s, longer))
    ensures Less(After(r, s, run), After(r, s, longer))
  {
    var t := After(r, s, run);
    if w :| 0 <= w < |t.queue.workers| && t.queue.workers[w].Polling? && !Blocked(r, t, w) {
      InProgressPoll(r, t, w);
      var outcome;
      longer, outcome := FinishPoll(r, s, run, w, f, rank);
      WorkerWorks(t.queue, Q.Finish(w, outcome));
    } else {
      var q := OutsidePolls(r, t, f);
      AppendOwn(r, s, run, Queue(q), f);
      longer := run + [Queue(q)];
    }
  }

  lemma InProgressPoll(r: IoResources, t: State, w: nat)
    requires Sound(r, t) && w < |t.queue.workers| && t.queue.workers[w].Polling?
    ensures PollsBucket(t, w)
  {
    assert HolderOk(t.queue, t.queue.workers[w]);
  }

  /** With every poll blocked, a step of the queue brings an unsettled state closer to rest. */
  lemma OutsidePolls(r: IoResources, t: State, f: Application) returns (q: Q.Action)
    requires Sound(r, t) && !Settled(r, t)
    requires forall w :: 0 <= w < |t.queue.workers| && t.queue.workers[w].Polling? ==> Blocked(r, t, w)
    ensures Enabled(r, t, Queue(q)) && OwnAction(t, Queue(q), f)
    ensures Sound(r, Do(r, t, Queue(q))) && Less(t, Do(r, t, Queue(q)))
  {
    q := QueueMove(t.queue);
    SoundStep(r, t, Queue(q), f);
  }

  /** As long as a call is under way, or a worker is awake outside of a poll, the queue itself moves on. */
  lemma QueueMove(u: Q.State) returns (q: Q.Action)
    requires Invariant(u) && Fits(u)
    requires || (exists e :: 0 <= e < |u.enqueuers| && u.enqueuers[e] != Q.Idle)
             || (exists w :: 0 <= w < |u.workers| && u.workers[w] != Q.Asleep && !u.workers[w].Polling?)
    ensures W.Closer(u, q, Continues) && !q.Finish?
  {
    if e :| 0 <= e < |u.enqueuers| && u.enqueuers[e] != Q.Idle {
      q := W.FinishCall(u, e, Continues);
    } else if w :| 0 <= w < |u.workers| && Holds(u.workers[w]) && !u.workers[w].Polling? {
      q := W.WorkOnBucket(u, w, Continues);
    } else {
      var w :| 0 <= w < |u.workers| && u.workers[w] != Q.Asleep && !u.workers[w].Polling?;
      q := SearchMove(u, w);
    }
  }

  function Continues(q: Q.State, w: nat): Q.Outcome { Q.Continue }

  lemma SearchMove(u: Q.State, w: nat) returns (q: Q.Action)
    requires Invariant(u) && Fits(u) && w < |u.workers| && u.workers[w] != Q.Asleep && !Holds(u.workers[w])
    requires forall e :: 0 <= e < |u.enqueuers| ==> u.enqueuers[e] == Q.Idle
    requires forall v :: 0 <= v < |u.workers| ==> !u.workers[v].Taken?
    ensures W.Closer(u, q, Continues) && !q.Finish?
  {
    assert HolderOk(u, u.workers[w]);
    W.CounterIsTruthful(u);
    W.SearchStep(u, w);
    q := NextOfWorker(u, w, Q.Continue);
    WorkerWorks(u, q);
  }

  /** Whatever an application with returning polls does, the runtime's own steps can serve everything, up
      to workers that stand before a panic. */
  lemma CanSettle(r: IoResources, s: State, f: Application, rank: L.Bucket -> nat) returns (run: seq<Action>)
    requires Sound(r, s) && Returns(f, rank)
    ensures ValidRun(r, s, run) && OwnRun(r, s, run, f)
    ensures Sound(r, After(r, s, run)) && Settled(r, After(r, s, run))
  {
    run := Settle(r, s, [], f, rank);
  }

  lemma {:induction false} Settle(r: IoResources, s: State, run: seq<Action>, f: Application, rank: L.Bucket -> nat)
    returns (longer: seq<Action>)
    requires ValidRun(r, s, run) && OwnRun(r, s, run, f) && Sound(r, After(r, s, run)) && Returns(f, rank)
    ensures ValidRun(r, s, longer) && OwnRun(r, s, longer, f)
    ensures Sound(r, After(r, s, longer)) && Settled(r, After(r, s, longer))
    decreases Work(After(r, s, run).queue), W.Rank(After(r, s, run).queue)
  {
    longer := run;
    if !Settled(r, After(r, s, run)) {
      longer := CloserToRest(r, s, run, f, rank);
      longer := Settle(r, s, longer, f, rank);
    }
  }

  // ----- Wakes are served -----

  /** Some worker polls the task at offset o of bucket b during the run: its main future, or its connection. */
  ghost predicate PolledIn(r: IoResources, s: State, run: seq<Action>, b: nat, o: nat)
    requires ValidRun(r, s, run)
    decreases |run|
  {
    |run| > 0 &&
    (|| PolledIn(r, s, run[..|run| - 1], b, o)
     || Polls(r, After(r, s, run[..|run| - 1]), run[|run| - 1], b, o))
  }

  predicate Polls(r: IoResources, s: State, a: Action, b: nat, o: nat) {
    && a.Poll? && a.w < |s.queue.workers| && s.queue.workers[a.w] == Q.Polling(b, o)
    && (|| (a.l == L.PollMain(b) && o == 0)
        || (a.l.PollOccupied? && a.l.b == b && o == r.tcpStreams + a.l.c))
  }

  /** The connection at offset o is empty in some state of the run. */
  ghost predicate EndedIn(r: IoResources, s: State, run: seq<Action>, b: nat, o: nat)
    requires ValidRun(r, s, run) && b < |s.life.buckets|
    decreases |run|
  {
    Ended(r, After(r, s, run).life.buckets[b], o) || (|run| > 0 && EndedIn(r, s, run[..|run| - 1], b, o))
  }

  predicate Ended(r: IoResources, k: L.Bucket, o: nat) {
    r.tcpStreams <= o < r.tcpStreams + |k.connections| && k.connections[o - r.tcpStreams] == L.Empty
  }

  /** Among its own steps the runtime attends to a task only by polling it or by finding it ended. */
  lemma {:induction false} AttendedMeansPolled(r: IoResources, s: State, run: seq<Action>, b: nat, o: nat,
                                               f: Application)
    requires ValidRun(r, s, run) && OwnRun(r, s, run, f) && b < |s.life.buckets|
    requires AttendedIn(r, s, run, b, o)
    ensures PolledIn(r, s, run, b, o) || EndedIn(r, s, run, b, o)
    decreases |run|
  {
    var before, a := run[..|run| - 1], run[|run| - 1];
    if AttendedIn(r, s, before, b, o) {
      AttendedMeansPolled(r, s, before, b, o, f);
    } else {
      AttendsMeansPolls(r, After(r, s, before), a, b, o, f);
      if Ended(r, After(r, s, before).life.buckets[b], o) { assert EndedIn(r, s, before, b, o); }
    }
  }

  lemma AttendsMeansPolls(r: IoResources, s: State, a: Action, b: nat, o: nat, f: Application)
    requires Enabled(r, s, a) && OwnAction(s, a, f) && Attends(r, s, a, b, o)
    ensures b < |s.life.buckets| && (Polls(r, s, a, b, o) || Ended(r, s.life.buckets[b], o))
  {
  }

  ghost predicate OwnerBlocked(r: IoResources, s: State, b: nat) {
    exists w ::
      && 0 <= w < |s.queue.workers| && s.queue.workers[w].Polling? && s.queue.workers[w].b == b
      && Blocked(r, s, w)
  }

  ghost predicate AllBlocked(r: IoResources, s: State) {
    forall w :: 0 <= w < |s.queue.workers| ==> Blocked(r, s, w)
  }

  /** In a settled state a live task waits only behind a worker that stands before a panic. */
  lemma SettledServes(r: IoResources, s: State, b: nat, o: nat)
    requires Sound(r, s) && Settled(r, s) && b < |s.queue.slots|
    requires o in s.queue.slots[b].jobs && TaskLives(r, s.life.buckets[b], o)
    ensures OwnerBlocked(r, s, b) || AllBlocked(r, s)
  {
    var u := s.queue;
    if v :| 0 <= v < |u.workers| && !Blocked(r, s, v) {
      assert u.workers[v] == Q.Asleep;
      NoneAvailable(u, b);
      assert LiveCoveredAt(r, s, b);
      assert u.slots[b].inProgress by {
        if w :| 0 <= w < |u.workers| && Drains(u.workers[w], b) { assert HolderOk(u, u.workers[w]); }
      }
      var w :| 0 <= w < |u.workers| && Owns(u.workers[w], b);
      assert Blocked(r, s, w);
    }
  }

  lemma NoneAvailable(u: Q.State, b: nat)
    requires Staffed(u) && b < |u.slots| && !Q.NoneAsleep(u)
    requires forall e :: 0 <= e < |u.enqueuers| ==> u.enqueuers[e] == Q.Idle
    requires forall w :: 0 <= w < |u.workers| ==> u.workers[w] == Q.Asleep || u.workers[w].Polling?
    ensures !Available(u.slots[b])
  {
    TotalZero(SearchWeight, u.workers);
    TotalZero(WakingWeight, u.enqueuers);
    TotalAtLeast(AvailableWeight, u.slots, b);
  }

  /** In a settled state a wake that is owed to a live task stands behind a worker before a panic. */
  lemma SettledOwes(r: IoResources, s: State, b: nat, o: nat)
    requires Sound(r, s) && Settled(r, s) && Owed(s, b, o) && !Ended(r, s.life.buckets[b], o)
    ensures OwnerBlocked(r, s, b) || AllBlocked(r, s)
  {
    if o in s.queue.slots[b].jobs {
      assert NamesTask(r, s, b, o);
      SettledServes(r, s, b, o);
    } else {
      var v :| 0 <= v < |s.queue.workers| && (s.queue.workers[v] == Q.Clearing(b, o) || AboutTo(s, v, b, o));
      assert Blocked(r, s, v);
    }
  }

  /** How a wake fares in a run of the runtime's own steps that ends settled: its task is polled, unless it
      has ended, the bucket's own worker comes to stand before a panic, or all workers do. */
  ghost predicate Fares(r: IoResources, s: State, run: seq<Action>, b: nat, o: nat)
    requires ValidRun(r, s, run) && b < |s.life.buckets|
  {
    || PolledIn(r, s, run, b, o) || EndedIn(r, s, run, b, o)
    || OwnerBlocked(r, After(r, s, run), b) || AllBlocked(r, After(r, s, run))
  }

  lemma SettledFares(r: IoResources, s: State, run: seq<Action>, b: nat, o: nat, f: Application)
    requires Sound(r, s) && ValidRun(r, s, run) && OwnRun(r, s, run, f) && Owed(s, b, o)
    requires Sound(r, After(r, s, run)) && Settled(r, After(r, s, run))
    ensures AttendedIn(r, s, run, b, o) || Owed(After(r, s, run), b, o)
    ensures Fares(r, s, run, b, o)
  {
    OwedUntilAttended(r, s, run, b, o);
    if AttendedIn(r, s, run, b, o) {
      AttendedMeansPolled(r, s, run, b, o, f);
    } else if !Ended(r, After(r, s, run).life.buckets[b], o) {
      SettledOwes(r, After(r, s, run), b, o);
    }
  }

  /** No wake is beyond rescue.  Every race-free run that lost no worker can be continued by the runtime's
      own steps, whatever an application with returning polls does, until the task of a wake that is owed in
      it has been polled; unless that task ends first, the bucket's own worker comes to stand before a panic,
      or all workers do. */
  lemma WakeCanBeServed(r: IoResources, s: State, run: seq<Action>, b: nat, o: nat,
                        f: Application, rank: L.Bucket -> nat)
    returns (more: seq<Action>)
    requires Initial(s) && ValidRun(r, s, run) && NoRace(run) && NoLoss(run) && Returns(f, rank)
    requires Owed(After(r, s, run), b, o)
    ensures var t := After(r, s, run);
            && ValidRun(r, t, more) && OwnRun(r, t, more, f) && b < |t.life.buckets|
            && Fares(r, t, more, b, o)
  {
    var t := After(r, s, run);
    ReachableIsSound(r, s, run);
    more := CanSettle(r, t, f, rank);
    SettledFares(r, t, more, b, o, f);
  }

  lemma ReachableIsSound(r: IoResources, s: State, run: seq<Action>)
    requires Initial(s) && ValidRun(r, s, run) && NoRace(run) && NoLoss(run)
    ensures Sound(r, After(r, s, run))
  {
    RunsKeep(r, s, run);
    RunsHoldTasks(r, s, run);
    RunsMatch(r, s, run);
    forall b | 0 <= b < |s.life.buckets| ensures After(r, s, run).life.buckets[b].poll != L.Stuck {
      OwnerLostIffReservedPolled(r, s, run, b);
    }
  }

  /** A worker that stands before a panic can take no other step than that panic. */
  lemma BlockedWorkersPanic(r: IoResources, s: State, w: nat, l: L.Action)
    requires r.tcpStreams >= 1 && Blocked(r, s, w)
    ensures var b, o := s.queue.workers[w].b, s.queue.workers[w].o;
            Enabled(r, s, Poll(w, l)) <==> l == if o == 0 then L.PollMissing(b) else L.PollReserved(b, o - r.tcpStreams)
  {
  }
}

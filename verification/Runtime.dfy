/** The bucket queue and the life of a bucket together: a worker that polls goes through the steps of
    the lifecycle, and what they come to decides how it goes on in the queue.  A task is enqueued only
    once it exists: by the accept loop, at the end of a handshake, or by a waker made for one of its
    polls. */
module Runtime {
  import Q = BucketQueue
  import L = Lifecycle
  import opened QueueInvariants
  import opened QueueCoverage
  import opened QueueTheorems
  import opened Index
  import opened Dispatch
  import opened Options
  import opened Words

  /** `known` holds the buckets and offsets that somebody may enqueue. */
  datatype State = State(queue: Q.State, life: L.State, known: set<(nat, nat)>)

  datatype Action =
    | Queue(q: Q.Action)        // anything but the end of a poll
    | Accept(l: L.Action)       // the accept loop claims a bucket or fills it
    | Poll(w: nat, l: L.Action) // worker w inside `run_bucket`

  predicate Initial(s: State) {
    && Q.Initial(s.queue) && Fits(s.queue) && L.Initial(s.life)
    && |s.queue.slots| == |s.life.buckets| && s.known == {}
  }

  /** A poll begins with the task that was dequeued. */
  predicate OfOffset(r: IoResources, l: L.Action, o: nat) {
    match l
    case PollMain(_) => o == 0
    case PollMissing(_) => o == 0
    case PollOccupied(_, c) => o == r.tcpStreams + c
    case PollLate(_, c) => o == r.tcpStreams + c
    case PollReserved(_, c) => o == r.tcpStreams + c
    case _ => true
  }

  /** The steps after which `run_bucket` goes back to the mask or returns. */
  predicate EndsPoll(k: L.Bucket, l: L.Action) {
    || l.Pending? || l.PollLate?
    || (l.Complete? && k.refcount >= 1)
    || (l.CleanStep? && k.poll.Cleaning? && k.poll.stage >= 3)
  }

  /** The bucket is done forever exactly when its last task completes. */
  function OutcomeOf(k: L.Bucket, l: L.Action): Q.Outcome {
    if l.Complete? && k.refcount == 1 then Q.Forever else Q.Continue
  }

  predicate Enabled(r: IoResources, s: State, a: Action) {
    match a
    case Queue(q) => !q.Finish? && Q.Enabled(s.queue, q) && (q.Post? ==> (q.b, q.o) in s.known)
    case Accept(l) => (l.Claim? || l.SetFuture?) && L.Enabled(s.life, l)
    case Poll(w, l) =>
      && L.OnBucket(l) && !l.Claim? && L.Enabled(s.life, l)
      && w < |s.queue.workers| && s.queue.workers[w].Polling?
      && s.queue.workers[w].b == l.b && OfOffset(r, l, s.queue.workers[w].o)
  }

  /** What an action does in the queue, if anything. */
  function QueuePart(r: IoResources, s: State, a: Action): (part: seq<Q.Action>)
    requires Enabled(r, s, a)
    ensures |part| <= 1 && forall q <- part :: Q.Enabled(s.queue, q)
  {
    match a
    case Queue(q) => [q]
    case Accept(_) => []
    case Poll(w, l) =>
      var k := s.life.buckets[l.b];
      if EndsPoll(k, l) then [Q.Finish(w, OutcomeOf(k, l))] else []
  }

  /** What an action gives cause to enqueue: a future set in place, a connection occupied by a handshake,
      and the task for which a worker makes a waker. */
  function Introduced(r: IoResources, s: State, a: Action): set<(nat, nat)>
    requires Enabled(r, s, a)
  {
    match a
    case Accept(l) => if l.SetFuture? && !s.life.buckets[s.life.main.b].future then {(s.life.main.b, 0)} else {}
    case Poll(_, l) => if l.Occupy? then {(l.b, r.tcpStreams + l.c)} else {}
    case Queue(q) => if q.Clear? then {(s.queue.workers[q.w].b, s.queue.workers[q.w].o)} else {}
  }

  function Do(r: IoResources, s: State, a: Action): (t: State)
    requires Enabled(r, s, a)
    ensures |t.queue.slots| == |s.queue.slots| && |t.life.buckets| == |s.life.buckets|
    ensures |t.queue.enqueuers| == |s.queue.enqueuers| && |t.queue.workers| == |s.queue.workers|
  {
    var part := QueuePart(r, s, a);
    State(if |part| == 0 then s.queue else Q.Do(s.queue, part[0]),
          if a.Queue? then s.life else L.Do(s.life, a.l),
          s.known + Introduced(r, s, a))
  }

  predicate ValidRun(r: IoResources, s: State, run: seq<Action>)
    decreases |run|, 0
  {
    |run| == 0 ||
    (ValidRun(r, s, run[..|run| - 1]) && Enabled(r, After(r, s, run[..|run| - 1]), run[|run| - 1]))
  }

  function After(r: IoResources, s: State, run: seq<Action>): (t: State)
    requires ValidRun(r, s, run)
    ensures |t.queue.slots| == |s.queue.slots| && |t.life.buckets| == |s.life.buckets|
    ensures |t.queue.enqueuers| == |s.queue.enqueuers| && |t.queue.workers| == |s.queue.workers|
    decreases |run|, 1
  {
    if |run| == 0 then s else Do(r, After(r, s, run[..|run| - 1]), run[|run| - 1])
  }

  /** Offset 0 is dequeued only with a future present. */
  predicate NoRace(run: seq<Action>) {
    forall k :: 0 <= k < |run| ==> !(run[k].Poll? && run[k].l.PollMissing?)
  }

  // ----- Each part runs as it does alone -----

  function QueueRun(r: IoResources, s: State, run: seq<Action>): (q: seq<Q.Action>)
    requires ValidRun(r, s, run)
  {
    if |run| == 0 then []
    else QueueRun(r, s, run[..|run| - 1]) + QueuePart(r, After(r, s, run[..|run| - 1]), run[|run| - 1])
  }

  lemma {:induction false} QueueRunsAlone(r: IoResources, s: State, run: seq<Action>)
    requires ValidRun(r, s, run)
    ensures var q := QueueRun(r, s, run);
            Q.ValidRun(s.queue, q) && Q.After(s.queue, q) == After(r, s, run).queue
  {
    if |run| > 0 {
      var before, a := run[..|run| - 1], run[|run| - 1];
      QueueRunsAlone(r, s, before);
      QueueGoesOn(r, s, QueueRun(r, s, before), After(r, s, before), a);
    }
  }

  lemma QueueGoesOn(r: IoResources, s: State, q: seq<Q.Action>, now: State, a: Action)
    requires Q.ValidRun(s.queue, q) && Q.After(s.queue, q) == now.queue && Enabled(r, now, a)
    ensures var longer := q + QueuePart(r, now, a);
            Q.ValidRun(s.queue, longer) && Q.After(s.queue, longer) == Do(r, now, a).queue
  {
    var part := QueuePart(r, now, a);
    if |part| == 0 {
      assert q + part == q;
    } else {
      assert part[0] in part && part == [part[0]];
      var longer := Extend(s.queue, q, part[0]);
    }
  }

  function LifeRun(run: seq<Action>): seq<L.Action> {
    if |run| == 0 then []
    else LifeRun(run[..|run| - 1]) + LifePart(run[|run| - 1])
  }

  lemma {:induction false} LifeRunsAlone(r: IoResources, s: State, run: seq<Action>)
    requires ValidRun(r, s, run)
    ensures L.ValidRun(s.life, LifeRun(run)) && L.After(s.life, LifeRun(run)) == After(r, s, run).life
  {
    if |run| > 0 {
      var before, a := run[..|run| - 1], run[|run| - 1];
      LifeRunsAlone(r, s, before);
      LifeGoesOn(r, s, LifeRun(before), After(r, s, before), a);
    }
  }

  /** What an action does in the lifecycle, if anything. */
  function LifePart(a: Action): seq<L.Action> {
    if a.Queue? then [] else [a.l]
  }

  lemma LifeGoesOn(r: IoResources, s: State, l: seq<L.Action>, now: State, a: Action)
    requires L.ValidRun(s.life, l) && L.After(s.life, l) == now.life && Enabled(r, now, a)
    ensures var longer := l + LifePart(a);
            L.ValidRun(s.life, longer) && L.After(s.life, longer) == Do(r, now, a).life
  {
    if a.Queue? {
      assert l + [] == l;
    } else {
      var longer := L.Extend(s.life, l, a.l);
    }
  }

  // ----- No live task's wake is stranded -----

  /** The main task always counts as live: a wake for it must be seen. */
  predicate TaskLives(r: IoResources, k: L.Bucket, o: nat) {
    o == 0 || (r.tcpStreams <= o < r.tcpStreams + |k.connections| && k.connections[o - r.tcpStreams] != L.Empty)
  }

  ghost predicate LiveCoveredAt(r: IoResources, s: State, b: nat)
    requires b < |s.queue.slots| && b < |s.life.buckets|
  {
    forall o :: o in s.queue.slots[b].jobs && TaskLives(r, s.life.buckets[b], o) ==> HasCover(s.queue, b)
  }

  ghost predicate Inv(r: IoResources, s: State) {
    && |s.queue.slots| == |s.life.buckets|
    && Invariant(s.queue) && Fits(s.queue)
    && L.Inv(s.life) && L.Alone(s.life)
    && forall b :: 0 <= b < |s.queue.slots| ==> LiveCoveredAt(r, s, b)
  }

  lemma MainHasCover(q: Q.State, b: nat)
    requires MainCovered(q) && b < |q.slots| && 0 in q.slots[b].jobs
    ensures HasCover(q, b)
  {
    assert MainCoveredAt(q, b);
    if SomeMainPending(q, b) {
      var e :| 0 <= e < |q.enqueuers| && PendingOn(q.enqueuers[e], b) && q.enqueuers[e].o == 0;
      assert SomePending(q, b);
    }
    if SomeReachesMain(q, b) {
      var w :| 0 <= w < |q.workers| && ReachesMain(q.workers[w], b);
      assert Drains(q.workers[w], b);
    }
  }

  /** A job that was there before is still covered, unless the owner of its bucket leaves forever. */
  lemma CoverStays(q: Q.State, a: Q.Action, b: nat, o: nat)
    requires Invariant(q) && Fits(q) && Q.Enabled(q, a) && b < |q.slots|
    requires a.Finish? && a.outcome == Q.Forever ==> q.workers[a.w].b != b
    requires o in q.slots[b].jobs ==> HasCover(q, b)
    requires o in Q.Do(q, a).slots[b].jobs
    ensures HasCover(Q.Do(q, a), b)
  {
    CounterInRange(q, a);
    if o in q.slots[b].jobs {
      if ByEnqueuer(a) { CoveredEnqueuerStep(q, a, b); } else { CoveredWorkerStep(q, a, b); }
    } else {
      assert PendingOn(Q.Do(q, a).enqueuers[a.e], b);
    }
  }

  /** Only the worker that polls bucket b changes its connections, and when it leaves forever there are
      none left. */
  lemma PollKeepsCover(r: IoResources, s: State, a: Action, o: nat)
    requires Inv(r, s) && Enabled(r, s, a) && a.Poll?
    requires o in Do(r, s, a).queue.slots[a.l.b].jobs && TaskLives(r, Do(r, s, a).life.buckets[a.l.b], o) && o != 0
    ensures HasCover(Do(r, s, a).queue, a.l.b)
  {
    var b, t := a.l.b, Do(r, s, a);
    var k := s.life.buckets[b];
    if a.l.Complete? && k.refcount == 1 {
      LastTaskLeavesNone(s.life, a.l);
      assert false;
    }
    assert Drains(t.queue.workers[a.w], b);
  }

  lemma LastTaskLeavesNone(l: L.State, a: L.Action)
    requires L.Inv(l) && L.Enabled(l, a) && a.Complete? && l.buckets[a.b].refcount == 1
    ensures L.AllEmpty(L.Do(l, a).buckets[a.b])
  {
    var k := l.buckets[a.b];
    assert L.BucketOk(l.size, k, L.IsClaimed(l, a.b));
    L.EmptyHasNoWeight(k);
  }

  lemma LiveCoveredStep(r: IoResources, s: State, a: Action, b: nat)
    requires Inv(r, s) && Enabled(r, s, a) && b < |s.queue.slots|
    requires MainCovered(Do(r, s, a).queue)
    ensures LiveCoveredAt(r, Do(r, s, a), b)
  {
    var t := Do(r, s, a);
    forall o | o in t.queue.slots[b].jobs && TaskLives(r, t.life.buckets[b], o) ensures HasCover(t.queue, b) {
      assert LiveCoveredAt(r, s, b);
      if o == 0 {
        MainHasCover(t.queue, b);
      } else if a.Poll? && a.l.b == b {
        PollKeepsCover(r, s, a, o);
      } else {
        assert t.life.buckets[b].connections == s.life.buckets[b].connections;
        var part := QueuePart(r, s, a);
        if |part| == 1 {
          assert part[0] in part;
          CoverStays(s.queue, part[0], b, o);
        }
      }
    }
  }

  lemma StepKeeps(r: IoResources, s: State, a: Action)
    requires Inv(r, s) && Enabled(r, s, a) && !(a.Poll? && a.l.PollMissing?)
    ensures Inv(r, Do(r, s, a))
  {
    var part := QueuePart(r, s, a);
    if |part| == 1 {
      assert part[0] in part;
      InvariantStep(s.queue, part[0]);
    }
    if !a.Queue? { L.AloneStep(s.life, a.l); }
    forall b | 0 <= b < |s.queue.slots| ensures LiveCoveredAt(r, Do(r, s, a), b) {
      LiveCoveredStep(r, s, a, b);
    }
  }

  lemma {:induction false} RunsKeep(r: IoResources, s: State, run: seq<Action>)
    requires Initial(s) && ValidRun(r, s, run) && NoRace(run)
    ensures Inv(r, After(r, s, run))
  {
    if |run| == 0 {
      InitialInvariant(s.queue);
      L.InitialInv(s.life);
    } else {
      var before, a := run[..|run| - 1], run[|run| - 1];
      assert a == run[|before|];
      RunsKeep(r, s, before);
      StepKeeps(r, After(r, s, before), a);
    }
  }

  /** In race-free runs every wake of a live task, main or connection, is covered: its bucket is ENQUEUED,
      or an enqueue call is about to mark it, or its owner is still draining. */
  lemma LiveWakeIsCovered(r: IoResources, s: State, run: seq<Action>, b: nat, o: nat)
    requires Initial(s) && ValidRun(r, s, run) && NoRace(run) && b < |s.queue.slots|
    requires o in After(r, s, run).queue.slots[b].jobs && TaskLives(r, After(r, s, run).life.buckets[b], o)
    ensures HasCover(After(r, s, run).queue, b)
  {
    RunsKeep(r, s, run);
    assert LiveCoveredAt(r, After(r, s, run), b);
  }

  lemma CoverIsNotStranded(q: Q.State, b: nat)
    requires b < |q.slots| && HasCover(q, b)
    ensures !Stranded(q, b)
  {
    if w :| 0 <= w < |q.workers| && Drains(q.workers[w], b) { assert Owns(q.workers[w], b); }
  }

  /** What an exit through `Forever` strands are late wakes: each names a connection that is empty. */
  lemma StrandedWakesAreLate(r: IoResources, s: State, run: seq<Action>, b: nat, o: nat)
    requires Initial(s) && ValidRun(r, s, run) && NoRace(run) && b < |s.queue.slots|
    requires Stranded(After(r, s, run).queue, b) && o in After(r, s, run).queue.slots[b].jobs
    ensures var connections := After(r, s, run).life.buckets[b].connections;
            r.tcpStreams <= o < r.tcpStreams + |connections| && connections[o - r.tcpStreams] == L.Empty
  {
    RunsHoldTasks(r, s, run);
    if TaskLives(r, After(r, s, run).life.buckets[b], o) {
      LiveWakeIsCovered(r, s, run, b, o);
      CoverIsNotStranded(After(r, s, run).queue, b);
      assert false;
    }
  }

  /** When all workers sleep and no enqueue call is under way, no live task waits to be polled. */
  lemma AtRestNoLiveTaskWaits(r: IoResources, s: State, run: seq<Action>, b: nat, o: nat)
    requires Initial(s) && ValidRun(r, s, run) && NoRace(run) && b < |s.queue.slots|
    requires AtRest(After(r, s, run).queue) && TaskLives(r, After(r, s, run).life.buckets[b], o)
    ensures o !in After(r, s, run).queue.slots[b].jobs
  {
    var t := After(r, s, run);
    if o in t.queue.slots[b].jobs {
      LiveWakeIsCovered(r, s, run, b, o);
      QueueRunsAlone(r, s, run);
      AtRestNothingWaits(s.queue, QueueRun(r, s, run), b);
      assert false;
    }
  }

  // ----- Every wake names a task -----

  predicate OffsetOk(r: IoResources, k: L.Bucket, o: nat) {
    o == 0 || r.tcpStreams <= o < r.tcpStreams + |k.connections|
  }

  ghost predicate NamesTask(r: IoResources, s: State, b: nat, o: nat) {
    b < |s.life.buckets| && OffsetOk(r, s.life.buckets[b], o)
  }

  predicate InHand(pc: Q.Worker) {
    pc.Clearing? || pc.Polling?
  }

  /** Whatever may be enqueued, waits in a mask or is in a worker's hands names a task. */
  ghost predicate TasksOnly(r: IoResources, s: State) {
    && |s.queue.slots| == |s.life.buckets|
    && (forall x :: x in s.known ==> NamesTask(r, s, x.0, x.1))
    && (forall b, o :: 0 <= b < |s.queue.slots| && o in s.queue.slots[b].jobs ==> NamesTask(r, s, b, o))
    && (forall w :: 0 <= w < |s.queue.workers| && InHand(s.queue.workers[w])
          ==> NamesTask(r, s, s.queue.workers[w].b, s.queue.workers[w].o))
  }

  lemma TasksOnlyStep(r: IoResources, s: State, a: Action)
    requires TasksOnly(r, s) && Enabled(r, s, a)
    ensures TasksOnly(r, Do(r, s, a))
  {
    var t := Do(r, s, a);
    forall b, o | NamesTask(r, s, b, o) ensures NamesTask(r, t, b, o) {
      if !a.Queue? { StepKeepsConnections(s.life, a.l, b); }
    }
    forall x | x in t.known ensures NamesTask(r, t, x.0, x.1) {
      assert x in s.known || x in Introduced(r, s, a);
      assert NamesTask(r, s, x.0, x.1);
    }
    var part := QueuePart(r, s, a);
    if |part| == 1 {
      assert part[0] in part;
      QueueTasksStep(r, s, part[0]);
    }
  }

  lemma QueueTasksStep(r: IoResources, s: State, q: Q.Action)
    requires TasksOnly(r, s) && Q.Enabled(s.queue, q) && (q.Post? ==> (q.b, q.o) in s.known)
    ensures var t := Q.Do(s.queue, q);
            && (forall b, o :: 0 <= b < |t.slots| && o in t.slots[b].jobs ==> NamesTask(r, s, b, o))
            && (forall w :: 0 <= w < |t.workers| && InHand(t.workers[w])
                  ==> NamesTask(r, s, t.workers[w].b, t.workers[w].o))
  {
    var t := Q.Do(s.queue, q);
    forall b, o | 0 <= b < |t.slots| && o in t.slots[b].jobs ensures NamesTask(r, s, b, o) {
      assert o in s.queue.slots[b].jobs || (b, o) in s.known;
    }
  }

  lemma StepKeepsConnections(l: L.State, a: L.Action, b: nat)
    requires L.Enabled(l, a) && b < |l.buckets|
    ensures |L.Do(l, a).buckets[b].connections| == |l.buckets[b].connections|
  {
  }

  lemma {:induction false} RunsHoldTasks(r: IoResources, s: State, run: seq<Action>)
    requires Initial(s) && ValidRun(r, s, run)
    ensures TasksOnly(r, After(r, s, run))
  {
    if |run| > 0 {
      RunsHoldTasks(r, s, run[..|run| - 1]);
      TasksOnlyStep(r, After(r, s, run[..|run| - 1]), run[|run| - 1]);
    }
  }

  // ----- What a worker polls is what dispatch selects -----

  predicate Sized(r: IoResources, s: State) {
    && r.Supported() && |s.life.buckets| <= MAX_BUCKETS
    && forall b :: 0 <= b < |s.life.buckets| ==> |s.life.buckets[b].connections| == r.httpConnections
  }

  /** The task at an offset of a bucket: its main task, or a connection of its range of the flat table. */
  function TaskAt(r: IoResources, b: nat, o: nat): IoIndex {
    if o < r.tcpStreams then InputStream(BucketIndex(0, b))
    else HttpConnection(ConnectionIndex(0, b * r.httpConnections + (o - r.tcpStreams)))
  }

  lemma OffsetNamesTask(r: IoResources, n: nat, e: nat, b: nat, o: nat)
    requires r.Supported() && b < n <= MAX_BUCKETS && (o == 0 || r.tcpStreams <= o < r.PerBucket())
    ensures IsTask(r, n, TaskAt(r, b, o)) && Wakes(r, Q.Post(e, b, o), TaskAt(r, b, o))
    ensures FromIndex(r, QueueIndexAt(r, b, o)) == Some(TaskAt(r, b, o))
  {
    if o == 0 {
      BucketRoundTrip(r, BucketIndex(0, b));
    } else {
      ConnectionIsPosted(r, n, e, b, o - r.tcpStreams);
    }
    WakeIsInvertible(r, n, Q.Post(e, b, o), TaskAt(r, b, o));
  }

  lemma ConnectionIsPosted(r: IoResources, n: nat, e: nat, b: nat, k: nat)
    requires r.Supported() && b < n <= MAX_BUCKETS && k < r.httpConnections
    ensures var c := ConnectionIndex(0, b * r.httpConnections + k);
            c.index < n * r.httpConnections && Wakes(r, Q.Post(e, b, r.tcpStreams + k), HttpConnection(c))
  {
    SplitIndex(b, r.httpConnections, k);
    SplitIndex(b, r.PerBucket(), r.tcpStreams + k);
    ConnectionAt(r, b, k);
    ConnectionRoundTrip(r, ConnectionIndex(0, b * r.httpConnections + k));
    ProductMonotone(b + 1, n, r.httpConnections);
  }

  lemma {:induction false} SameConnections(r: IoResources, s: State, run: seq<Action>, b: nat)
    requires ValidRun(r, s, run) && b < |s.life.buckets|
    ensures |After(r, s, run).life.buckets[b].connections| == |s.life.buckets[b].connections|
  {
    if |run| > 0 {
      var before, a := run[..|run| - 1], run[|run| - 1];
      SameConnections(r, s, before, b);
      if !a.Queue? { StepKeepsConnections(After(r, s, before).life, a.l, b); }
    }
  }

  /** The steps by which a worker begins the poll of what it dequeued. */
  predicate BeginsPoll(l: L.Action) {
    l.PollMain? || l.PollMissing? || l.PollOccupied? || l.PollLate? || l.PollReserved?
  }

  /** The task such a step is about. */
  function TaskOf(r: IoResources, l: L.Action): IoIndex
    requires BeginsPoll(l)
  {
    if l.PollMain? || l.PollMissing? then InputStream(BucketIndex(0, l.b))
    else HttpConnection(ConnectionIndex(0, l.b * r.httpConnections + l.c))
  }

  lemma OffsetOfPoll(r: IoResources, l: L.Action, o: nat)
    requires r.tcpStreams >= 1 && BeginsPoll(l) && OfOffset(r, l, o)
    ensures TaskAt(r, l.b, o) == TaskOf(r, l)
  {
  }

  /** In every state, dispatch on the queue index that a worker polls selects a task of its own bucket, and
      whichever step begins the poll is about that very task. */
  lemma DispatchAgrees(r: IoResources, s: State, run: seq<Action>, w: nat)
    requires Initial(s) && Sized(r, s) && ValidRun(r, s, run)
    requires w < |s.queue.workers| && After(r, s, run).queue.workers[w].Polling?
    ensures var t := After(r, s, run);
            var pc := t.queue.workers[w];
            && IsTask(r, |s.life.buckets|, TaskAt(r, pc.b, pc.o))
            && FromIndex(r, QueueIndexAt(r, pc.b, pc.o)) == Some(TaskAt(r, pc.b, pc.o))
            && forall l :: Enabled(r, t, Poll(w, l)) && BeginsPoll(l) ==>
                 FromIndex(r, QueueIndexAt(r, pc.b, pc.o)) == Some(TaskOf(r, l))
  {
    RunsHoldTasks(r, s, run);
    var t := After(r, s, run);
    var pc := t.queue.workers[w];
    assert NamesTask(r, t, pc.b, pc.o);
    SameConnections(r, s, run, pc.b);
    OffsetNamesTask(r, |s.life.buckets|, 0, pc.b, pc.o);
    forall l | Enabled(r, t, Poll(w, l)) && BeginsPoll(l) ensures TaskAt(r, pc.b, pc.o) == TaskOf(r, l) {
      OffsetOfPoll(r, l, pc.o);
    }
  }

  /** Every post of a combined run carries a task's index, as the theorems about dispatch ask of the queue. */
  lemma {:induction false} PostsNameTasks(r: IoResources, s: State, run: seq<Action>)
    requires Initial(s) && Sized(r, s) && ValidRun(r, s, run)
    ensures forall q :: q in QueueRun(r, s, run) && q.Post? ==> WakesSomeTask(r, |s.queue.slots|, q)
  {
    if |run| > 0 {
      var before, a := run[..|run| - 1], run[|run| - 1];
      PostsNameTasks(r, s, before);
      var u := After(r, s, before);
      if a.Queue? && a.q.Post? {
        RunsHoldTasks(r, s, before);
        assert NamesTask(r, u, a.q.b, a.q.o);
        SameConnections(r, s, before, a.q.b);
        OffsetNamesTask(r, |s.queue.slots|, a.q.e, a.q.b, a.q.o);
      }
    }
  }

  // ----- A poll in progress is that of the dequeued task -----

  predicate PollMatches(r: IoResources, pc: Q.Worker, p: L.Poll) {
    && pc.Polling?
    && (L.InMain(p) ==> pc.o == 0)
    && (p.PollingConnection? ==> pc.o == r.tcpStreams + p.c)
  }

  ghost predicate MatchedAt(r: IoResources, s: State, b: nat)
    requires b < |s.life.buckets|
  {
    s.life.buckets[b].poll != L.Resting ==>
      exists w :: 0 <= w < |s.queue.workers|
                  && PollMatches(r, s.queue.workers[w], s.life.buckets[b].poll) && s.queue.workers[w].b == b
  }

  ghost predicate Matched(r: IoResources, s: State) {
    forall b :: 0 <= b < |s.life.buckets| ==> MatchedAt(r, s, b)
  }

  /** The one worker that polls bucket b has the offset of the task whose poll is under way. */
  lemma TheOwnerMatches(r: IoResources, s: State, w: nat, b: nat)
    requires Ownership(s.queue) && b < |s.life.buckets| && MatchedAt(r, s, b) && s.life.buckets[b].poll != L.Resting
    requires w < |s.queue.workers| && Owns(s.queue.workers[w], b)
    ensures PollMatches(r, s.queue.workers[w], s.life.buckets[b].poll)
  {
    var v :| 0 <= v < |s.queue.workers|
             && PollMatches(r, s.queue.workers[v], s.life.buckets[b].poll) && s.queue.workers[v].b == b;
    assert v == w;
  }

  lemma MatchedStep(r: IoResources, s: State, a: Action, b: nat)
    requires Ownership(s.queue) && Enabled(r, s, a) && b < |s.life.buckets| && MatchedAt(r, s, b)
    ensures MatchedAt(r, Do(r, s, a), b)
  {
    if a.Poll? && a.l.b == b {
      MatchedPoll(r, s, a);
    } else if s.life.buckets[b].poll != L.Resting {
      var w :| 0 <= w < |s.queue.workers|
               && PollMatches(r, s.queue.workers[w], s.life.buckets[b].poll) && s.queue.workers[w].b == b;
      PollerStays(r, s, a, w);
    } else {
      PollStays(r, s, a, b);
    }
  }

  lemma MatchedPoll(r: IoResources, s: State, a: Action)
    requires Ownership(s.queue) && Enabled(r, s, a) && a.Poll? && MatchedAt(r, s, a.l.b)
    ensures MatchedAt(r, Do(r, s, a), a.l.b)
  {
    var b, t := a.l.b, Do(r, s, a);
    var k := s.life.buckets[b];
    if k.poll != L.Resting { TheOwnerMatches(r, s, a.w, b); }
    if t.life.buckets[b].poll != L.Resting {
      assert !EndsPoll(k, a.l) && t.queue.workers[a.w] == s.queue.workers[a.w];
      assert PollMatches(r, t.queue.workers[a.w], t.life.buckets[b].poll);
    }
  }

  lemma PollStays(r: IoResources, s: State, a: Action, b: nat)
    requires Enabled(r, s, a) && b < |s.life.buckets| && !(a.Poll? && a.l.b == b)
    ensures Do(r, s, a).life.buckets[b].poll == s.life.buckets[b].poll
  {
  }

  lemma PollerStays(r: IoResources, s: State, a: Action, w: nat)
    requires Enabled(r, s, a) && w < |s.queue.workers| && s.queue.workers[w].Polling?
    requires s.queue.workers[w].b < |s.life.buckets| && !(a.Poll? && a.l.b == s.queue.workers[w].b)
    ensures Do(r, s, a).queue.workers[w] == s.queue.workers[w]
    ensures var b := s.queue.workers[w].b;
            Do(r, s, a).life.buckets[b].poll == s.life.buckets[b].poll
  {
    PollStays(r, s, a, s.queue.workers[w].b);
  }

  lemma {:induction false} QueueInvariantHolds(r: IoResources, s: State, run: seq<Action>)
    requires Initial(s) && ValidRun(r, s, run)
    ensures Invariant(After(r, s, run).queue) && Fits(After(r, s, run).queue)
  {
    QueueRunsAlone(r, s, run);
    RunsKeepInvariant(s.queue, QueueRun(r, s, run));
  }

  lemma {:induction false} RunsMatch(r: IoResources, s: State, run: seq<Action>)
    requires Initial(s) && ValidRun(r, s, run)
    ensures Matched(r, After(r, s, run))
  {
    if |run| > 0 {
      var before, a := run[..|run| - 1], run[|run| - 1];
      RunsMatch(r, s, before);
      QueueInvariantHolds(r, s, before);
      var u := After(r, s, before);
      forall b | 0 <= b < |s.life.buckets| ensures MatchedAt(r, Do(r, u, a), b) {
        assert MatchedAt(r, u, b);
        MatchedStep(r, u, a, b);
      }
    }
  }
}

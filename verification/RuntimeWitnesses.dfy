/** Concrete runs of the runtime, with one bucket, one connection and one worker, that show what can go
    wrong.  Every wake in them has a cause: the accept loop, a handshake, or a waker of an earlier poll. */
module RuntimeWitnesses {
  import opened Q = BucketQueue
  import L = Lifecycle
  import T = QueueTheorems
  import opened Index
  import opened R = Runtime
  import opened RuntimeLoss
  import opened RuntimeWakes

  const ONE_EACH := IoResources(1, 1)

  const MAIN: set<(nat, nat)> := {(0, 0)}
  const BOTH: set<(nat, nat)> := {(0, 0), (0, 1)}

  function Slots(enqueued: bool, inProgress: bool, jobs: set<nat>, available: nat,
                 call: Enqueuer, worker: Worker): Q.State
  {
    Q.State([Slot(enqueued, inProgress, jobs)], available, [call], [worker])
  }

  function Life(refcount: nat, future: bool, connection: L.Connection, poll: L.Poll, main: L.Main): L.State {
    L.State(1, [L.Bucket(refcount, future, [connection], 1, poll)], main)
  }

  const START := R.State(Slots(false, false, {}, 0, Idle, Waiting), Life(0, false, L.Empty, L.Resting, L.Accepting), {})

  /** The run leads from the start to the given state. */
  predicate Leads(run: seq<R.Action>, t: R.State) {
    R.ValidRun(ONE_EACH, START, run) && R.After(ONE_EACH, START, run) == t
  }

  /** Steps of the queue, of worker 0 inside a poll, and of the accept loop. */
  lemma ThenQueue(run: seq<R.Action>, t: R.State, q: Q.Action, u: Q.State) returns (longer: seq<R.Action>, v: R.State)
    requires Leads(run, t) && !q.Finish? && !q.Clear? && (q.Post? ==> (q.b, q.o) in t.known)
    requires Q.Enabled(t.queue, q) && Q.Do(t.queue, q) == u
    ensures v == t.(queue := u) && Leads(longer, v) && (NoRace(run) ==> NoRace(longer))
  {
    longer := Then(run, t, Queue(q));
    v := t.(queue := u);
  }

  lemma ThenClear(run: seq<R.Action>, t: R.State, u: Q.State) returns (longer: seq<R.Action>, v: R.State)
    requires Leads(run, t) && Q.Enabled(t.queue, Q.Clear(0)) && Q.Do(t.queue, Q.Clear(0)) == u
    requires (t.queue.workers[0].b, t.queue.workers[0].o) in t.known
    ensures v == t.(queue := u) && Leads(longer, v) && (NoRace(run) ==> NoRace(longer))
  {
    longer := Then(run, t, Queue(Q.Clear(0)));
    v := t.(queue := u);
  }

  predicate PollStep(t: R.State, l: L.Action) {
    && L.OnBucket(l) && !l.Claim? && L.Enabled(t.life, l)
    && |t.queue.workers| == 1 && t.queue.workers[0].Polling? && t.queue.workers[0].b == l.b
    && OfOffset(ONE_EACH, l, t.queue.workers[0].o)
  }

  lemma ThenPoll(run: seq<R.Action>, t: R.State, l: L.Action, u: L.State) returns (longer: seq<R.Action>, v: R.State)
    requires Leads(run, t) && PollStep(t, l) && !l.Occupy? && !EndsPoll(t.life.buckets[l.b], l) && L.Do(t.life, l) == u
    ensures v == t.(life := u) && Leads(longer, v) && (NoRace(run) && !l.PollMissing? ==> NoRace(longer))
  {
    longer := Then(run, t, Poll(0, l));
    v := t.(life := u);
  }

  lemma ThenOccupy(run: seq<R.Action>, t: R.State, u: L.State) returns (longer: seq<R.Action>, v: R.State)
    requires Leads(run, t) && PollStep(t, L.Occupy(0, 0)) && L.Do(t.life, L.Occupy(0, 0)) == u
    ensures v == t.(life := u, known := t.known + {(0, 1)}) && Leads(longer, v) && (NoRace(run) ==> NoRace(longer))
  {
    var a := Poll(0, L.Occupy(0, 0));
    assert Introduced(ONE_EACH, t, a) == {(0, 1)} && QueuePart(ONE_EACH, t, a) == [];
    longer := Then(run, t, a);
    v := t.(life := u, known := t.known + {(0, 1)});
  }

  lemma ThenEnd(run: seq<R.Action>, t: R.State, l: L.Action, u: L.State, q: Q.State)
    returns (longer: seq<R.Action>, v: R.State)
    requires Leads(run, t) && PollStep(t, l) && EndsPoll(t.life.buckets[l.b], l) && L.Do(t.life, l) == u
    requires Q.Do(t.queue, Q.Finish(0, OutcomeOf(t.life.buckets[l.b], l))) == q
    ensures v == t.(life := u, queue := q) && Leads(longer, v) && (NoRace(run) && !l.PollMissing? ==> NoRace(longer))
  {
    longer := Then(run, t, Poll(0, l));
    v := t.(life := u, queue := q);
  }

  lemma ThenClaim(run: seq<R.Action>, t: R.State, u: L.State) returns (longer: seq<R.Action>, v: R.State)
    requires Leads(run, t) && L.Enabled(t.life, L.Claim(0)) && L.Do(t.life, L.Claim(0)) == u
    ensures v == t.(life := u) && Leads(longer, v) && (NoRace(run) ==> NoRace(longer))
  {
    longer := Then(run, t, Accept(L.Claim(0)));
    v := t.(life := u);
  }

  lemma ThenSet(run: seq<R.Action>, t: R.State, u: L.State) returns (longer: seq<R.Action>, v: R.State)
    requires Leads(run, t) && L.Enabled(t.life, L.SetFuture) && L.Do(t.life, L.SetFuture) == u
    requires t.life.main == L.Claimed(0)
    ensures v == t.(life := u, known := t.known + if t.life.buckets[0].future then {} else {(0, 0)})
    ensures Leads(longer, v) && (NoRace(run) ==> NoRace(longer))
  {
    longer := Then(run, t, Accept(L.SetFuture));
    v := t.(life := u, known := t.known + if t.life.buckets[0].future then {} else {(0, 0)});
  }

  lemma Then(run: seq<R.Action>, t: R.State, a: R.Action) returns (longer: seq<R.Action>)
    requires Leads(run, t) && R.Enabled(ONE_EACH, t, a)
    ensures Leads(longer, R.Do(ONE_EACH, t, a))
    ensures NoRace(run) && !(a.Poll? && a.l.PollMissing?) ==> NoRace(longer)
  {
    longer := run + [a];
    assert longer[..|run|] == run;
  }

  // ----- A request is accepted and its main task polled -----

  const ACCEPTED := R.State(Slots(true, false, {0}, 1, Waking(0), Waiting),
                            Life(1, true, L.Empty, L.Resting, L.Accepting), MAIN)
  const FOUND := R.State(Slots(false, true, {0}, 1, Idle, Taken(0)),
                         Life(1, true, L.Empty, L.Resting, L.Accepting), MAIN)
  const TAKEN := R.State(Slots(false, true, {0}, 0, Idle, Clearing(0, 0)),
                         Life(1, true, L.Empty, L.Resting, L.Accepting), MAIN)
  const POLLED := R.State(Slots(false, true, {}, 0, Idle, Polling(0, 0)),
                          Life(1, true, L.Empty, L.PollingMain, L.Accepting), MAIN)

  lemma AcceptRequest() returns (run: seq<R.Action>)
    ensures Leads(run, ACCEPTED) && NoRace(run)
  {
    var t := START;
    run := [];
    run, t := ThenClaim(run, t, Life(1, false, L.Empty, L.Resting, L.Claimed(0)));
    assert {} + {(0, 0)} == MAIN;
    run, t := ThenSet(run, t, Life(1, true, L.Empty, L.Resting, L.Accepting));
    assert {} + {0} == {0};
    run, t := ThenQueue(run, t, Post(0, 0, 0), Slots(false, false, {0}, 0, Counting(0, 0), Waiting));
    run, t := ThenQueue(run, t, Count(0), Slots(false, false, {0}, 1, Marking(0, 0), Waiting));
    run, t := ThenQueue(run, t, Mark(0), Slots(true, false, {0}, 1, Waking(0), Waiting));
  }

  lemma FindRequest() returns (run: seq<R.Action>)
    ensures Leads(run, FOUND) && NoRace(run)
  {
    run := AcceptRequest();
    var t := ACCEPTED;
    run, t := ThenQueue(run, t, Notify(0, 0), Slots(true, false, {0}, 1, Idle, Waiting));
    run, t := ThenQueue(run, t, Check(0), Slots(true, false, {0}, 1, Idle, Scanning(0)));
    run, t := ThenQueue(run, t, TryProcess(0), Slots(false, true, {0}, 1, Idle, Taken(0)));
  }

  lemma TakeRequest() returns (run: seq<R.Action>)
    ensures Leads(run, TAKEN) && NoRace(run)
  {
    run := FindRequest();
    var t := FOUND;
    run, t := ThenQueue(run, t, Uncount(0), Slots(false, true, {0}, 0, Idle, Draining(0)));
    run, t := ThenQueue(run, t, Load(0), Slots(false, true, {0}, 0, Idle, Clearing(0, 0)));
  }

  lemma PollRequest() returns (run: seq<R.Action>)
    ensures Leads(run, POLLED) && NoRace(run)
  {
    run := TakeRequest();
    var t := TAKEN;
    assert {0} - {0} == {};
    run, t := ThenClear(run, t, Slots(false, true, {}, 0, Idle, Polling(0, 0)));
    run, t := ThenPoll(run, t, L.PollMain(0), Life(1, true, L.Empty, L.PollingMain, L.Accepting));
  }

  // ----- It makes a connection, which is polled to its end -----

  const CONNECTED := R.State(Slots(false, true, {}, 0, Idle, Polling(0, 0)),
                             Life(2, true, L.Occupied, L.PollingMain, L.Accepting), BOTH)
  const ENLISTED := R.State(Slots(true, true, {1}, 0, Idle, Polling(0, 0)),
                            Life(2, true, L.Occupied, L.PollingMain, L.Accepting), BOTH)
  const CONNECTION_POLLED := R.State(Slots(true, true, {}, 0, Idle, Polling(0, 1)),
                                     Life(2, true, L.Occupied, L.PollingConnection(0), L.Accepting), BOTH)
  const CONNECTION_DONE := R.State(Slots(true, true, {}, 0, Idle, Draining(0)),
                                   Life(1, true, L.Empty, L.Resting, L.Accepting), BOTH)
  const NOTHING_LEFT := R.State(Slots(false, true, {}, 0, Idle, Draining(0)),
                                Life(1, true, L.Empty, L.Resting, L.Accepting), BOTH)
  const RELEASED := R.State(Slots(false, false, {}, 0, Idle, Waiting),
                            Life(1, true, L.Empty, L.Resting, L.Accepting), BOTH)

  lemma Connect() returns (run: seq<R.Action>)
    ensures Leads(run, CONNECTED) && NoRace(run)
  {
    run := PollRequest();
    var t := POLLED;
    run, t := ThenPoll(run, t, L.CountHandshake(0), Life(2, true, L.Empty, L.Counted, L.Accepting));
    assert [L.Empty][0 := L.Reserved] == [L.Reserved];
    run, t := ThenPoll(run, t, L.Reserve(0, 0), Life(2, true, L.Reserved, L.PollingMain, L.Accepting));
    assert MAIN + {(0, 1)} == BOTH;
    assert [L.Reserved][0 := L.Occupied] == [L.Occupied];
    run, t := ThenOccupy(run, t, Life(2, true, L.Occupied, L.PollingMain, L.Accepting));
  }

  lemma Enlist() returns (run: seq<R.Action>)
    ensures Leads(run, ENLISTED) && NoRace(run)
  {
    run := Connect();
    var t := CONNECTED;
    assert {} + {1} == {1};
    run, t := ThenQueue(run, t, Post(0, 0, 1), Slots(false, true, {1}, 0, Counting(0, 1), Polling(0, 0)));
    run, t := ThenQueue(run, t, Count(0), Slots(false, true, {1}, 1, Marking(0, 1), Polling(0, 0)));
    run, t := ThenQueue(run, t, Mark(0), Slots(true, true, {1}, 1, Reverting(0), Polling(0, 0)));
    run, t := ThenQueue(run, t, Revert(0), Slots(true, true, {1}, 0, Idle, Polling(0, 0)));
  }

  lemma PollConnection() returns (run: seq<R.Action>)
    ensures Leads(run, CONNECTION_POLLED) && NoRace(run)
  {
    run := Enlist();
    var t := ENLISTED;
    run, t := ThenEnd(run, t, L.Pending(0), Life(2, true, L.Occupied, L.Resting, L.Accepting),
                      Slots(true, true, {1}, 0, Idle, Draining(0)));
    run, t := ThenQueue(run, t, Load(0), Slots(true, true, {1}, 0, Idle, Clearing(0, 1)));
    assert {1} - {1} == {};
    run, t := ThenClear(run, t, Slots(true, true, {}, 0, Idle, Polling(0, 1)));
    run, t := ThenPoll(run, t, L.PollOccupied(0, 0), Life(2, true, L.Occupied, L.PollingConnection(0), L.Accepting));
  }

  lemma FinishConnection() returns (run: seq<R.Action>)
    ensures Leads(run, CONNECTION_DONE) && NoRace(run)
  {
    run := PollConnection();
    var t := CONNECTION_POLLED;
    assert [L.Occupied][0 := L.Empty] == [L.Empty];
    run, t := ThenPoll(run, t, L.Finished(0), Life(2, true, L.Empty, L.Completing, L.Accepting));
    run, t := ThenEnd(run, t, L.Complete(0), Life(1, true, L.Empty, L.Resting, L.Accepting),
                      Slots(true, true, {}, 0, Idle, Draining(0)));
  }

  lemma GoAgain() returns (run: seq<R.Action>)
    ensures Leads(run, NOTHING_LEFT) && NoRace(run)
  {
    run := FinishConnection();
    var t := CONNECTION_DONE;
    run, t := ThenQueue(run, t, Load(0), Slots(true, true, {}, 0, Idle, Releasing(0, 0)));
    run, t := ThenQueue(run, t, ClearEnqueued(0), Slots(false, true, {}, 0, Idle, Draining(0)));
  }

  lemma Release() returns (run: seq<R.Action>)
    ensures Leads(run, RELEASED) && NoRace(run)
  {
    run := GoAgain();
    var t := NOTHING_LEFT;
    run, t := ThenQueue(run, t, Load(0), Slots(false, true, {}, 0, Idle, Releasing(0, 0)));
    run, t := ThenQueue(run, t, ClearEnqueued(0), Slots(false, true, {}, 0, Idle, Dropping(0, 0)));
    run, t := ThenQueue(run, t, ClearInProgress(0), Slots(false, false, {}, 0, Idle, Waiting));
  }

  // ----- A late wake of the connection, then one of the main task -----

  const LATE_WAKE := R.State(Slots(true, false, {1}, 1, Idle, Waiting),
                             Life(1, true, L.Empty, L.Resting, L.Accepting), BOTH)
  const BOTH_WOKEN := R.State(Slots(true, false, {0, 1}, 1, Idle, Waiting),
                              Life(1, true, L.Empty, L.Resting, L.Accepting), BOTH)
  const MAIN_LOADED := R.State(Slots(false, true, {0, 1}, 0, Idle, Clearing(0, 0)),
                               Life(1, true, L.Empty, L.Resting, L.Accepting), BOTH)
  const POLLED_AGAIN := R.State(Slots(false, true, {1}, 0, Idle, Polling(0, 0)),
                                Life(1, true, L.Empty, L.PollingMain, L.Accepting), BOTH)

  lemma WakeLate() returns (run: seq<R.Action>)
    ensures Leads(run, LATE_WAKE) && NoRace(run)
  {
    run := Release();
    var t := RELEASED;
    assert {} + {1} == {1};
    run, t := ThenQueue(run, t, Post(0, 0, 1), Slots(false, false, {1}, 0, Counting(0, 1), Waiting));
    run, t := ThenQueue(run, t, Count(0), Slots(false, false, {1}, 1, Marking(0, 1), Waiting));
    run, t := ThenQueue(run, t, Mark(0), Slots(true, false, {1}, 1, Waking(0), Waiting));
    run, t := ThenQueue(run, t, Notify(0, 0), Slots(true, false, {1}, 1, Idle, Waiting));
  }

  lemma WakeMain() returns (run: seq<R.Action>)
    ensures Leads(run, BOTH_WOKEN) && NoRace(run)
  {
    run := WakeLate();
    var t := LATE_WAKE;
    assert {1} + {0} == {0, 1};
    run, t := ThenQueue(run, t, Post(0, 0, 0), Slots(true, false, {0, 1}, 1, Counting(0, 0), Waiting));
    run, t := ThenQueue(run, t, Count(0), Slots(true, false, {0, 1}, 2, Marking(0, 0), Waiting));
    run, t := ThenQueue(run, t, Mark(0), Slots(true, false, {0, 1}, 2, Reverting(0), Waiting));
    run, t := ThenQueue(run, t, Revert(0), Slots(true, false, {0, 1}, 1, Idle, Waiting));
  }

  lemma LoadMain() returns (run: seq<R.Action>)
    ensures Leads(run, MAIN_LOADED) && NoRace(run)
  {
    run := WakeMain();
    var t := BOTH_WOKEN;
    run, t := ThenQueue(run, t, Check(0), Slots(true, false, {0, 1}, 1, Idle, Scanning(0)));
    run, t := ThenQueue(run, t, TryProcess(0), Slots(false, true, {0, 1}, 1, Idle, Taken(0)));
    run, t := ThenQueue(run, t, Uncount(0), Slots(false, true, {0, 1}, 0, Idle, Draining(0)));
    run, t := ThenQueue(run, t, Load(0), Slots(false, true, {0, 1}, 0, Idle, Clearing(0, 0)));
  }

  lemma PollMainAgain() returns (run: seq<R.Action>)
    ensures Leads(run, POLLED_AGAIN) && NoRace(run)
  {
    run := LoadMain();
    var t := MAIN_LOADED;
    assert {0, 1} - {0} == {1};
    run, t := ThenClear(run, t, Slots(false, true, {1}, 0, Idle, Polling(0, 0)));
    run, t := ThenPoll(run, t, L.PollMain(0), Life(1, true, L.Empty, L.PollingMain, L.Accepting));
  }

  // ----- Main finishes as the last task: the late wake is stranded -----

  const FINISHED := R.State(Slots(false, true, {1}, 0, Idle, Releasing(0, 0)),
                            Life(0, false, L.Empty, L.Resting, L.Accepting), BOTH)
  const LEFT_BEHIND := R.State(Slots(false, false, {1}, 0, Idle, Waiting),
                               Life(0, false, L.Empty, L.Resting, L.Accepting), BOTH)

  lemma FinishMain() returns (run: seq<R.Action>)
    ensures Leads(run, FINISHED) && NoRace(run)
  {
    run := PollMainAgain();
    var t := POLLED_AGAIN;
    run, t := ThenPoll(run, t, L.Finished(0), Life(1, false, L.Empty, L.Completing, L.Accepting));
    run, t := ThenEnd(run, t, L.Complete(0), Life(0, false, L.Empty, L.Resting, L.Accepting),
                      Slots(false, true, {1}, 0, Idle, Releasing(0, 0)));
  }

  lemma LeaveBucket() returns (run: seq<R.Action>)
    ensures Leads(run, LEFT_BEHIND) && NoRace(run)
  {
    run := FinishMain();
    var t := FINISHED;
    run, t := ThenQueue(run, t, ClearEnqueued(0), Slots(false, true, {1}, 0, Idle, Dropping(0, 0)));
    run, t := ThenQueue(run, t, ClearInProgress(0), Slots(false, false, {1}, 0, Idle, Waiting));
  }

  /** A race-free run in which the worker leaves the bucket forever, with the count at zero, while a late
      wake of a finished connection sits in the mask: the bucket is stranded. */
  lemma ForeverCanStrand() returns (run: seq<R.Action>)
    ensures R.Initial(START) && R.ValidRun(ONE_EACH, START, run) && NoRace(run)
    ensures T.Stranded(R.After(ONE_EACH, START, run).queue, 0)
  {
    run := LeaveBucket();
    assert 1 in LEFT_BEHIND.queue.slots[0].jobs;
  }

  // ----- Main reserves the connection again: the late wake takes the worker down -----

  const RESERVED := R.State(Slots(false, true, {1}, 0, Idle, Polling(0, 0)),
                            Life(2, true, L.Reserved, L.PollingMain, L.Accepting), BOTH)
  const SHAKING := R.State(Slots(false, true, {1}, 0, Idle, Draining(0)),
                           Life(2, true, L.Reserved, L.Resting, L.Accepting), BOTH)
  const DOOMED := R.State(Slots(false, true, {}, 0, Idle, Polling(0, 1)),
                          Life(2, true, L.Reserved, L.Resting, L.Accepting), BOTH)
  const LOST := R.State(Slots(true, true, {0}, 0, Idle, Polling(0, 1)),
                        Life(2, true, L.Reserved, L.Stuck, L.Accepting), BOTH)

  lemma ReserveAgain() returns (run: seq<R.Action>)
    ensures Leads(run, RESERVED) && NoRace(run)
  {
    run := PollMainAgain();
    var t := POLLED_AGAIN;
    run, t := ThenPoll(run, t, L.CountHandshake(0), Life(2, true, L.Empty, L.Counted, L.Accepting));
    assert [L.Empty][0 := L.Reserved] == [L.Reserved];
    run, t := ThenPoll(run, t, L.Reserve(0, 0), Life(2, true, L.Reserved, L.PollingMain, L.Accepting));
  }

  lemma SuspendMain() returns (run: seq<R.Action>)
    ensures Leads(run, SHAKING) && NoRace(run)
  {
    run := ReserveAgain();
    var t := RESERVED;
    run, t := ThenEnd(run, t, L.Pending(0), Life(2, true, L.Reserved, L.Resting, L.Accepting),
                      Slots(false, true, {1}, 0, Idle, Draining(0)));
  }

  lemma TakeLateWake() returns (run: seq<R.Action>)
    ensures Leads(run, DOOMED) && NoRace(run)
  {
    run := SuspendMain();
    var t := SHAKING;
    run, t := ThenQueue(run, t, Load(0), Slots(false, true, {1}, 0, Idle, Clearing(0, 1)));
    assert {1} - {1} == {};
    run, t := ThenClear(run, t, Slots(false, true, {}, 0, Idle, Polling(0, 1)));
  }

  lemma LoseWorker() returns (run: seq<R.Action>)
    ensures Leads(run, LOST) && NoRace(run)
  {
    run := TakeLateWake();
    var t := DOOMED;
    run, t := ThenPoll(run, t, L.PollReserved(0, 0), Life(2, true, L.Reserved, L.Stuck, L.Accepting));
    assert {} + {0} == {0};
    run, t := ThenQueue(run, t, Post(0, 0, 0), Slots(false, true, {0}, 0, Counting(0, 0), Polling(0, 1)));
    run, t := ThenQueue(run, t, Count(0), Slots(false, true, {0}, 1, Marking(0, 0), Polling(0, 1)));
    run, t := ThenQueue(run, t, Mark(0), Slots(true, true, {0}, 1, Reverting(0), Polling(0, 1)));
    run, t := ThenQueue(run, t, Revert(0), Slots(true, true, {0}, 0, Idle, Polling(0, 1)));
  }

  /** A race-free run that loses the worker, with a wake of the live main task in the mask; no
      continuation whatsoever begins a poll of it again. */
  lemma WorkerCanBeLost() returns (run: seq<R.Action>)
    ensures R.Initial(START) && R.ValidRun(ONE_EACH, START, run) && NoRace(run)
    ensures var t := R.After(ONE_EACH, START, run);
            && t.life.buckets[0].poll == L.Stuck && 0 in t.queue.slots[0].jobs && t.life.buckets[0].future
            && forall more :: R.ValidRun(ONE_EACH, t, more) ==> !AttendedIn(ONE_EACH, t, more, 0, 0)
  {
    run := LoseWorker();
    QueueInvariantHolds(ONE_EACH, START, run);
    forall more | R.ValidRun(ONE_EACH, LOST, more) ensures !AttendedIn(ONE_EACH, LOST, more, 0, 0) {
      NeverAttended(more);
    }
  }

  lemma {:induction false} NeverAttended(more: seq<R.Action>)
    requires T.Invariant(LOST.queue) && R.ValidRun(ONE_EACH, LOST, more)
    ensures !AttendedIn(ONE_EACH, LOST, more, 0, 0)
    decreases |more|
  {
    if |more| > 0 {
      var before, a := more[..|more| - 1], more[|more| - 1];
      NeverAttended(before);
      LostForGood(ONE_EACH, LOST, before, 0, 0);
      assert !Attends(ONE_EACH, R.After(ONE_EACH, LOST, before), a, 0, 0);
    }
  }

  // ----- A request finishes while its handshake is still under way -----

  const HANDSHAKING := R.State(Slots(false, true, {}, 0, Idle, Polling(0, 0)),
                               Life(2, true, L.Reserved, L.PollingMain, L.Accepting), MAIN)
  const DROPPED := R.State(Slots(false, true, {}, 0, Idle, Draining(0)),
                           Life(1, false, L.Reserved, L.Resting, L.Accepting), MAIN)
  const TAKEN_FOR_GOOD := R.State(Slots(false, false, {}, 0, Idle, Waiting),
                                  Life(1, false, L.Reserved, L.Resting, L.Accepting), MAIN)

  lemma BeginHandshake() returns (run: seq<R.Action>)
    ensures Leads(run, HANDSHAKING) && NoRace(run)
  {
    run := PollRequest();
    var t := POLLED;
    run, t := ThenPoll(run, t, L.CountHandshake(0), Life(2, true, L.Empty, L.Counted, L.Accepting));
    assert [L.Empty][0 := L.Reserved] == [L.Reserved];
    run, t := ThenPoll(run, t, L.Reserve(0, 0), Life(2, true, L.Reserved, L.PollingMain, L.Accepting));
  }

  lemma DropHandshake() returns (run: seq<R.Action>)
    ensures Leads(run, DROPPED) && NoRace(run)
  {
    run := BeginHandshake();
    var t := HANDSHAKING;
    run, t := ThenPoll(run, t, L.Finished(0), Life(2, false, L.Reserved, L.Completing, L.Accepting));
    run, t := ThenEnd(run, t, L.Complete(0), Life(1, false, L.Reserved, L.Resting, L.Accepting),
                      Slots(false, true, {}, 0, Idle, Draining(0)));
  }

  lemma ReleaseDropped() returns (run: seq<R.Action>)
    ensures Leads(run, TAKEN_FOR_GOOD) && NoRace(run)
  {
    run := DropHandshake();
    var t := DROPPED;
    run, t := ThenQueue(run, t, Load(0), Slots(false, true, {}, 0, Idle, Releasing(0, 0)));
    run, t := ThenQueue(run, t, ClearEnqueued(0), Slots(false, true, {}, 0, Idle, Dropping(0, 0)));
    run, t := ThenQueue(run, t, ClearInProgress(0), Slots(false, false, {}, 0, Idle, Waiting));
  }

  /** A race-free run in which a request completes with a handshake still under way and leaves its bucket
      abandoned: nobody owns it, and its connection stays reserved. */
  lemma HandshakeCanBeAbandoned() returns (run: seq<R.Action>)
    ensures R.Initial(START) && R.ValidRun(ONE_EACH, START, run) && NoRace(run)
    ensures var t := R.After(ONE_EACH, START, run);
            L.Abandoned(t.life, 0, 0) && !t.queue.slots[0].inProgress && t.queue.slots[0].jobs == {}
  {
    run := ReleaseDropped();
  }

  // ----- A second handshake finds no free connection -----

  const COUNTED_AGAIN := R.State(Slots(false, true, {}, 0, Idle, Polling(0, 0)),
                                 Life(3, true, L.Occupied, L.Counted, L.Accepting), BOTH)
  const NONE_FREE := R.State(Slots(false, true, {}, 0, Idle, Polling(0, 0)),
                             Life(3, true, L.Empty, L.Cleaning(1), L.Accepting), BOTH)
  const GIVEN_UP := R.State(Slots(false, true, {}, 0, Idle, Polling(0, 0)),
                            Life(3, false, L.Empty, L.Cleaning(3), L.Accepting), BOTH)
  const WIPED_CLEAN := R.State(Slots(false, true, {}, 0, Idle, Draining(0)),
                               Life(0, false, L.Empty, L.Resting, L.Accepting), BOTH)

  lemma CountAgain() returns (run: seq<R.Action>)
    ensures Leads(run, COUNTED_AGAIN) && NoRace(run)
  {
    run := Connect();
    var t := CONNECTED;
    run, t := ThenPoll(run, t, L.CountHandshake(0), Life(3, true, L.Occupied, L.Counted, L.Accepting));
  }

  lemma FindNone() returns (run: seq<R.Action>)
    ensures Leads(run, NONE_FREE) && NoRace(run)
  {
    run := CountAgain();
    var t := COUNTED_AGAIN;
    run, t := ThenPoll(run, t, L.NoFreeConnection(0), Life(3, true, L.Occupied, L.Cleaning(0), L.Accepting));
    assert L.DoBucket(1, t.life.buckets[0], L.CleanStep(0)).connections == [L.Empty];
    assert [L.Occupied][0 := L.Empty] == [L.Empty];
    run, t := ThenPoll(run, t, L.CleanStep(0), Life(3, true, L.Empty, L.Cleaning(1), L.Accepting));
  }

  lemma GiveUp() returns (run: seq<R.Action>)
    ensures Leads(run, GIVEN_UP) && NoRace(run)
  {
    run := FindNone();
    var t := NONE_FREE;
    run, t := ThenPoll(run, t, L.CleanStep(0), Life(3, false, L.Empty, L.Cleaning(2), L.Accepting));
    run, t := ThenPoll(run, t, L.CleanStep(0), Life(3, false, L.Empty, L.Cleaning(3), L.Accepting));
  }

  lemma ResetCount() returns (run: seq<R.Action>)
    ensures Leads(run, WIPED_CLEAN) && NoRace(run)
  {
    run := GiveUp();
    var t := GIVEN_UP;
    run, t := ThenEnd(run, t, L.CleanStep(0), Life(0, false, L.Empty, L.Resting, L.Accepting),
                      Slots(false, true, {}, 0, Idle, Draining(0)));
  }

  /** A race-free run in which a request with its only connection in use starts another handshake: the poll
      fails and the bucket is cleaned up, its live connection included. */
  lemma HandshakeCanFail() returns (run: seq<R.Action>)
    ensures R.Initial(START) && R.ValidRun(ONE_EACH, START, run) && NoRace(run)
    ensures L.CleanBucket(1, R.After(ONE_EACH, START, run).life.buckets[0])
  {
    run := ResetCount();
  }

  // ----- The main task's own waker fires during its last poll -----

  const WOKEN_INSIDE := R.State(Slots(true, true, {0}, 0, Idle, Polling(0, 0)),
                                Life(1, true, L.Empty, L.PollingMain, L.Accepting), MAIN)
  const FINISHED_WOKEN := R.State(Slots(true, true, {0}, 0, Idle, Releasing(0, 0)),
                                  Life(0, false, L.Empty, L.Resting, L.Accepting), MAIN)
  const WAKE_TAKEN := R.State(Slots(false, true, {}, 0, Idle, Polling(0, 0)),
                              Life(0, false, L.Empty, L.Resting, L.Accepting), MAIN)
  const MISSED := R.State(Slots(false, true, {}, 0, Idle, Polling(0, 0)),
                          Life(1, false, L.Empty, L.Cleaning(1), L.Claimed(0)), MAIN)
  const CLEANED := R.State(Slots(false, true, {}, 0, Idle, Polling(0, 0)),
                           Life(1, false, L.Empty, L.Cleaning(3), L.Claimed(0)), MAIN)
  const WIPED := R.State(Slots(false, true, {}, 0, Idle, Draining(0)),
                         Life(0, false, L.Empty, L.Resting, L.Claimed(0)), MAIN)
  const SET_TWICE := R.State(Slots(false, true, {}, 0, Idle, Draining(0)),
                             Life(1, true, L.Empty, L.Resting, L.SetFailed), MAIN)

  lemma WakeInside() returns (run: seq<R.Action>)
    ensures Leads(run, WOKEN_INSIDE) && NoRace(run)
  {
    run := PollRequest();
    var t := POLLED;
    assert {} + {0} == {0};
    run, t := ThenQueue(run, t, Post(0, 0, 0), Slots(false, true, {0}, 0, Counting(0, 0), Polling(0, 0)));
    run, t := ThenQueue(run, t, Count(0), Slots(false, true, {0}, 1, Marking(0, 0), Polling(0, 0)));
    run, t := ThenQueue(run, t, Mark(0), Slots(true, true, {0}, 1, Reverting(0), Polling(0, 0)));
    run, t := ThenQueue(run, t, Revert(0), Slots(true, true, {0}, 0, Idle, Polling(0, 0)));
  }

  lemma FinishWoken() returns (run: seq<R.Action>)
    ensures Leads(run, FINISHED_WOKEN) && NoRace(run)
  {
    run := WakeInside();
    var t := WOKEN_INSIDE;
    run, t := ThenPoll(run, t, L.Finished(0), Life(1, false, L.Empty, L.Completing, L.Accepting));
    run, t := ThenEnd(run, t, L.Complete(0), Life(0, false, L.Empty, L.Resting, L.Accepting),
                      Slots(true, true, {0}, 0, Idle, Releasing(0, 0)));
  }

  lemma TakeLastWake() returns (run: seq<R.Action>)
    ensures Leads(run, WAKE_TAKEN) && NoRace(run)
  {
    run := FinishWoken();
    var t := FINISHED_WOKEN;
    run, t := ThenQueue(run, t, ClearEnqueued(0), Slots(false, true, {0}, 0, Idle, Draining(0)));
    run, t := ThenQueue(run, t, Load(0), Slots(false, true, {0}, 0, Idle, Clearing(0, 0)));
    assert {0} - {0} == {};
    run, t := ThenClear(run, t, Slots(false, true, {}, 0, Idle, Polling(0, 0)));
  }

  lemma MissFuture() returns (run: seq<R.Action>)
    ensures Leads(run, MISSED)
  {
    run := TakeLastWake();
    var t := WAKE_TAKEN;
    run, t := ThenClaim(run, t, Life(1, false, L.Empty, L.Resting, L.Claimed(0)));
    run, t := ThenPoll(run, t, L.PollMissing(0), Life(1, false, L.Empty, L.Cleaning(0), L.Claimed(0)));
    assert L.DoBucket(1, t.life.buckets[0], L.CleanStep(0)).connections == [L.Empty];
    run, t := ThenPoll(run, t, L.CleanStep(0), Life(1, false, L.Empty, L.Cleaning(1), L.Claimed(0)));
  }

  lemma CleanUp() returns (run: seq<R.Action>)
    ensures Leads(run, CLEANED)
  {
    run := MissFuture();
    var t := MISSED;
    run, t := ThenPoll(run, t, L.CleanStep(0), Life(1, false, L.Empty, L.Cleaning(2), L.Claimed(0)));
    run, t := ThenPoll(run, t, L.CleanStep(0), Life(1, false, L.Empty, L.Cleaning(3), L.Claimed(0)));
  }

  lemma WipeWhileClaimed() returns (run: seq<R.Action>)
    ensures Leads(run, WIPED)
  {
    run := CleanUp();
    var t := CLEANED;
    run, t := ThenEnd(run, t, L.CleanStep(0), Life(0, false, L.Empty, L.Resting, L.Claimed(0)),
                      Slots(false, true, {}, 0, Idle, Draining(0)));
  }

  lemma SetTwice() returns (run: seq<R.Action>)
    ensures Leads(run, SET_TWICE)
  {
    run := WipeWhileClaimed();
    var t := WIPED;
    assert MAIN + {(0, 0)} == MAIN;
    run, t := ThenSet(run, t, Life(0, true, L.Empty, L.Resting, L.Accepting));
    run, t := ThenClaim(run, t, Life(1, true, L.Empty, L.Resting, L.Claimed(0)));
    run, t := ThenSet(run, t, Life(1, true, L.Empty, L.Resting, L.SetFailed));
  }

  /** A wake of the main task that outlives it, dequeued while the accept loop is between claiming the bucket
      and filling it, leaves a live future behind a count of zero; the next claim then runs into it. */
  lemma RaceBreaksAccounting() returns (run: seq<R.Action>)
    ensures R.Initial(START) && R.ValidRun(ONE_EACH, START, run)
    ensures R.After(ONE_EACH, START, run).life.main == L.SetFailed
  {
    run := SetTwice();
  }
}

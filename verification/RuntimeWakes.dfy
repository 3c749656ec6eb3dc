/** From a wake to the poll of the very task it names: a wake is owed from the moment it is posted until a
    worker begins that poll. */
module RuntimeWakes {
  import Q = BucketQueue
  import L = Lifecycle
  import opened QueueInvariants
  import opened QueueTheorems
  import opened Index
  import opened Runtime

  predicate AboutTo(s: State, v: nat, b: nat, o: nat) {
    && v < |s.queue.workers| && s.queue.workers[v] == Q.Polling(b, o)
    && b < |s.life.buckets| && s.life.buckets[b].poll == L.Resting
  }

  /** The wake waits in the mask, or a worker has it in hand and has not begun the poll. */
  ghost predicate Owed(s: State, b: nat, o: nat) {
    && b < |s.queue.slots|
    && (|| o in s.queue.slots[b].jobs
        || exists v :: 0 <= v < |s.queue.workers| && (s.queue.workers[v] == Q.Clearing(b, o) || AboutTo(s, v, b, o)))
  }

  /** The step begins a poll of bucket b, of the main task for offset 0 and else of the connection at that
      offset. */
  predicate IsPollOf(r: IoResources, l: L.Action, b: nat, o: nat) {
    match l
    case PollMain(x) => x == b && o == 0
    case PollMissing(x) => x == b && o == 0
    case PollOccupied(x, c) => x == b && o == r.tcpStreams + c
    case PollLate(x, c) => x == b && o == r.tcpStreams + c
    case PollReserved(x, c) => x == b && o == r.tcpStreams + c
    case _ => false
  }

  predicate Attends(r: IoResources, s: State, a: Action, b: nat, o: nat) {
    && a.Poll? && a.w < |s.queue.workers| && s.queue.workers[a.w] == Q.Polling(b, o)
    && IsPollOf(r, a.l, b, o)
  }

  /** The main task has its future, or the connection is occupied. */
  predicate CanBePolled(r: IoResources, k: L.Bucket, o: nat) {
    if o == 0 then k.future
    else r.tcpStreams <= o < r.tcpStreams + |k.connections| && k.connections[o - r.tcpStreams] == L.Occupied
  }

  /** A worker that has a live task's offset in hand can only go on by polling that task. */
  lemma LiveTaskIsPolled(r: IoResources, s: State, v: nat, b: nat, o: nat, l: L.Action)
    requires r.tcpStreams >= 1 && AboutTo(s, v, b, o) && CanBePolled(r, s.life.buckets[b], o)
    ensures Enabled(r, s, Poll(v, l)) <==>
            l == if o == 0 then L.PollMain(b) else L.PollOccupied(b, o - r.tcpStreams)
  {
  }

  /** A wake is owed until its task is attended to. */
  lemma OwedStep(r: IoResources, s: State, a: Action, b: nat, o: nat)
    requires Ownership(s.queue) && Enabled(r, s, a) && Owed(s, b, o) && b < |s.life.buckets| && MatchedAt(r, s, b)
    ensures Owed(Do(r, s, a), b, o) || Attends(r, s, a, b, o)
  {
    if o in s.queue.slots[b].jobs {
      WaitingStep(r, s, a, b, o);
    } else {
      var v :| 0 <= v < |s.queue.workers| && (s.queue.workers[v] == Q.Clearing(b, o) || AboutTo(s, v, b, o));
      if s.queue.workers[v] == Q.Clearing(b, o) {
        InHandStep(r, s, a, v, b, o);
      } else {
        AboutToStep(r, s, a, v, b, o);
      }
    }
  }

  lemma WaitingStep(r: IoResources, s: State, a: Action, b: nat, o: nat)
    requires Ownership(s.queue) && Enabled(r, s, a) && b < |s.life.buckets| && MatchedAt(r, s, b)
    requires b < |s.queue.slots| && o in s.queue.slots[b].jobs
    ensures Owed(Do(r, s, a), b, o)
  {
    var part := QueuePart(r, s, a);
    if |part| == 1 {
      assert part[0] in part;
      if o !in Q.Do(s.queue, part[0]).slots[b].jobs {
        OnlyClearRemoves(s.queue, part[0], b, o);
        InHandStep(r, s, a, part[0].w, b, o);
      }
    }
  }

  lemma InHandStep(r: IoResources, s: State, a: Action, v: nat, b: nat, o: nat)
    requires Ownership(s.queue) && Enabled(r, s, a) && b < |s.life.buckets| && MatchedAt(r, s, b)
    requires b < |s.queue.slots| && v < |s.queue.workers| && s.queue.workers[v] == Q.Clearing(b, o)
    ensures Owed(Do(r, s, a), b, o)
  {
    if s.life.buckets[b].poll != L.Resting { TheOwnerMatches(r, s, v, b); }
    assert Owns(s.queue.workers[v], b);
    if a == Queue(Q.Clear(v)) {
      assert AboutTo(Do(r, s, a), v, b, o);
    } else {
      assert Do(r, s, a).queue.workers[v] == Q.Clearing(b, o);
    }
  }

  lemma AboutToStep(r: IoResources, s: State, a: Action, v: nat, b: nat, o: nat)
    requires Ownership(s.queue) && Enabled(r, s, a) && b < |s.queue.slots| && AboutTo(s, v, b, o)
    ensures Owed(Do(r, s, a), b, o) || Attends(r, s, a, b, o)
  {
    if a.Poll? && a.l.b == b {
      assert a.w == v by {
        assert Owns(s.queue.workers[v], b) && Owns(s.queue.workers[a.w], b);
      }
    } else {
      PollerStays(r, s, a, v);
      assert AboutTo(Do(r, s, a), v, b, o);
    }
  }

  /** What holds of queue and polls in every run, race or no race. */
  ghost predicate Orderly(r: IoResources, s: State) {
    Invariant(s.queue) && Fits(s.queue) && Matched(r, s) && |s.queue.slots| == |s.life.buckets|
  }

  lemma OrderlyStep(r: IoResources, s: State, a: Action)
    requires Orderly(r, s) && Enabled(r, s, a)
    ensures Orderly(r, Do(r, s, a))
  {
    var part := QueuePart(r, s, a);
    if |part| == 1 {
      assert part[0] in part;
      InvariantStep(s.queue, part[0]);
    }
    forall b | 0 <= b < |s.life.buckets| ensures MatchedAt(r, Do(r, s, a), b) {
      assert MatchedAt(r, s, b);
      MatchedStep(r, s, a, b);
    }
  }

  lemma {:induction false} RunsAreOrderly(r: IoResources, s: State, run: seq<Action>)
    requires Orderly(r, s) && ValidRun(r, s, run)
    ensures Orderly(r, After(r, s, run))
  {
    if |run| > 0 {
      RunsAreOrderly(r, s, run[..|run| - 1]);
      OrderlyStep(r, After(r, s, run[..|run| - 1]), run[|run| - 1]);
    }
  }

  lemma InitialIsOrderly(r: IoResources, s: State)
    requires Initial(s)
    ensures Orderly(r, s)
  {
    InitialInvariant(s.queue);
  }

  ghost predicate AttendedIn(r: IoResources, s: State, run: seq<Action>, b: nat, o: nat)
    requires ValidRun(r, s, run)
    decreases |run|
  {
    |run| > 0 &&
    (|| AttendedIn(r, s, run[..|run| - 1], b, o)
     || Attends(r, After(r, s, run[..|run| - 1]), run[|run| - 1], b, o))
  }

  /** Over whole runs: a wake that is owed at the start is owed at the end, or its task was attended to. */
  lemma {:induction false} OwedUntilAttended(r: IoResources, s: State, run: seq<Action>, b: nat, o: nat)
    requires Orderly(r, s) && ValidRun(r, s, run) && Owed(s, b, o)
    ensures Owed(After(r, s, run), b, o) || AttendedIn(r, s, run, b, o)
    decreases |run|
  {
    if |run| > 0 {
      var before, a := run[..|run| - 1], run[|run| - 1];
      OwedUntilAttended(r, s, before, b, o);
      RunsAreOrderly(r, s, before);
      var u := After(r, s, before);
      if Owed(u, b, o) {
        assert MatchedAt(r, u, b);
        OwedStep(r, u, a, b, o);
      }
    }
  }
}

/** Worker threads that are lost: a wake dequeued for a connection that is only reserved is a panic that
    nobody catches.  When that happens, what it means for the bucket, and how it is ruled out. */
module RuntimeLoss {
  import Q = BucketQueue
  import L = Lifecycle
  import opened QueueInvariants
  import opened QueueCoverage
  import opened QueueTheorems
  import opened Index
  import opened Dispatch
  import opened Runtime

  predicate PollsReserved(a: Action, b: nat) {
    a.Poll? && L.PollsReserved(a.l, b)
  }

  predicate NeverPollsReserved(run: seq<Action>, b: nat) {
    forall k :: 0 <= k < |run| ==> !PollsReserved(run[k], b)
  }

  /** No wake is ever dequeued for a reserved connection. */
  predicate NoLoss(run: seq<Action>) {
    forall k :: 0 <= k < |run| ==> !(run[k].Poll? && run[k].l.PollReserved?)
  }

  lemma LastAction(run: seq<Action>, b: nat)
    requires |run| > 0
    ensures NeverPollsReserved(run, b) <==>
              NeverPollsReserved(run[..|run| - 1], b) && !PollsReserved(run[|run| - 1], b)
    ensures NoRace(run) ==> NoRace(run[..|run| - 1])
  {
    var before := run[..|run| - 1];
    assert run == before + [run[|run| - 1]];
    assert forall k :: 0 <= k < |before| ==> before[k] == run[k];
  }

  /** In race-free runs the owner of a bucket is lost exactly when a wake was dequeued for a connection of
      the bucket that was only reserved. */
  lemma {:induction false} OwnerLostIffReservedPolled(r: IoResources, s: State, run: seq<Action>, b: nat)
    requires Initial(s) && ValidRun(r, s, run) && NoRace(run) && b < |s.life.buckets|
    ensures After(r, s, run).life.buckets[b].poll == L.Stuck <==> !NeverPollsReserved(run, b)
  {
    if |run| > 0 {
      LastAction(run, b);
      OwnerLostIffReservedPolled(r, s, run[..|run| - 1], b);
      SurvivalStep(r, s, run[..|run| - 1], run[|run| - 1], b);
    }
  }

  lemma SurvivalStep(r: IoResources, s: State, run: seq<Action>, a: Action, b: nat)
    requires Initial(s) && ValidRun(r, s, run) && NoRace(run) && b < |s.life.buckets|
    requires Enabled(r, After(r, s, run), a)
    ensures var t := After(r, s, run);
            Do(r, t, a).life.buckets[b].poll == L.Stuck <==> t.life.buckets[b].poll == L.Stuck || PollsReserved(a, b)
  {
    RunsKeep(r, s, run);
    if !a.Queue? { L.StuckStep(After(r, s, run).life, a.l, b); }
  }

  /** Somebody is going to look at the mask, and the bucket's owner, if it has one, is not lost. */
  ghost predicate LivingCover(s: State, b: nat)
    requires b < |s.queue.slots| && b < |s.life.buckets|
  {
    HasCover(s.queue, b) && s.life.buckets[b].poll != L.Stuck
  }

  /** In race-free runs every wake of a live task, main or connection, is seen to, exactly when no wake was
      ever dequeued for a reserved connection of its bucket. */
  lemma NoLiveWakeLost(r: IoResources, s: State, run: seq<Action>, b: nat, o: nat)
    requires Initial(s) && ValidRun(r, s, run) && NoRace(run) && b < |s.queue.slots|
    requires o in After(r, s, run).queue.slots[b].jobs && TaskLives(r, After(r, s, run).life.buckets[b], o)
    ensures LivingCover(After(r, s, run), b) <==> NeverPollsReserved(run, b)
  {
    LiveWakeIsCovered(r, s, run, b, o);
    OwnerLostIffReservedPolled(r, s, run, b);
  }

  /** A lost worker never moves again, and what waits in its bucket waits forever. */
  lemma {:induction false} LostForGood(r: IoResources, s: State, run: seq<Action>, w: nat, b: nat)
    requires Invariant(s.queue) && Fits(s.queue) && ValidRun(r, s, run)
    requires w < |s.queue.workers| && b < |s.queue.slots| && b < |s.life.buckets|
    requires s.queue.workers[w].Polling? && s.queue.workers[w].b == b && s.life.buckets[b].poll == L.Stuck
    ensures var t := After(r, s, run);
            && Invariant(t.queue) && t.queue.workers[w] == s.queue.workers[w]
            && t.life.buckets[b].poll == L.Stuck && s.queue.slots[b].jobs <= t.queue.slots[b].jobs
  {
    if |run| > 0 {
      var before, a := run[..|run| - 1], run[|run| - 1];
      LostForGood(r, s, before, w, b);
      LostStep(r, After(r, s, before), a, w, b);
    }
  }

  lemma LostStep(r: IoResources, s: State, a: Action, w: nat, b: nat)
    requires Invariant(s.queue) && Fits(s.queue) && Enabled(r, s, a)
    requires w < |s.queue.workers| && b < |s.queue.slots| && b < |s.life.buckets|
    requires s.queue.workers[w].Polling? && s.queue.workers[w].b == b && s.life.buckets[b].poll == L.Stuck
    ensures var t := Do(r, s, a);
            && Invariant(t.queue) && t.queue.workers[w] == s.queue.workers[w]
            && t.life.buckets[b].poll == L.Stuck && s.queue.slots[b].jobs <= t.queue.slots[b].jobs
  {
    assert !(a.Poll? && a.l.b == b);
    PollerStays(r, s, a, w);
    var part := QueuePart(r, s, a);
    if |part| == 1 {
      assert part[0] in part;
      InvariantStep(s.queue, part[0]);
      OthersOnlyAdd(s.queue, part[0], w);
    }
  }

  /** While a worker polls a bucket only that worker takes anything off the bucket's mask. */
  lemma OthersOnlyAdd(q: Q.State, a: Q.Action, w: nat)
    requires Ownership(q) && Q.Enabled(q, a) && w < |q.workers| && q.workers[w].Polling? && q.workers[w].b < |q.slots|
    ensures var b := q.workers[w].b;
            q.slots[b].jobs <= Q.Do(q, a).slots[b].jobs
  {
    forall o | o in q.slots[q.workers[w].b].jobs ensures o in Q.Do(q, a).slots[q.workers[w].b].jobs {
      if o !in Q.Do(q, a).slots[q.workers[w].b].jobs {
        OnlyClearRemoves(q, a, q.workers[w].b, o);
        assert false;
      }
    }
  }

  /** A step by which a wake meets a reservation: a connection is reserved while its offset waits in the
      mask, or its offset is enqueued while it is reserved. */
  ghost predicate MeetsReservation(r: IoResources, s: State, a: Action) {
    match a
    case Poll(_, l) => l.Reserve? && l.b < |s.queue.slots| && r.tcpStreams + l.c in s.queue.slots[l.b].jobs
    case Queue(q) => q.Post? && q.b < |s.life.buckets| && IsReserved(r, s.life.buckets[q.b], q.o)
    case Accept(_) => false
  }

  predicate IsReserved(r: IoResources, k: L.Bucket, o: nat) {
    r.tcpStreams <= o < r.tcpStreams + |k.connections| && k.connections[o - r.tcpStreams] == L.Reserved
  }

  ghost predicate NeverMeets(r: IoResources, s: State, run: seq<Action>)
    requires ValidRun(r, s, run)
    decreases |run|
  {
    |run| == 0 ||
    (NeverMeets(r, s, run[..|run| - 1]) && !MeetsReservation(r, After(r, s, run[..|run| - 1]), run[|run| - 1]))
  }

  /** The offset of a reserved connection is in no mask and in no worker's hands. */
  ghost predicate UnseenAt(r: IoResources, s: State, b: nat, o: nat)
    requires b < |s.queue.slots| && b < |s.life.buckets|
  {
    IsReserved(r, s.life.buckets[b], o) ==>
      && o !in s.queue.slots[b].jobs
      && forall w :: 0 <= w < |s.queue.workers| ==> !HasOffset(s.queue.workers[w], b, o)
  }

  ghost predicate ReservedUnseen(r: IoResources, s: State) {
    |s.queue.slots| == |s.life.buckets| &&
    forall b, o: nat :: 0 <= b < |s.queue.slots| ==> UnseenAt(r, s, b, o)
  }

  lemma UnseenStep(r: IoResources, s: State, a: Action, b: nat, o: nat)
    requires r.tcpStreams >= 1 && Ownership(s.queue) && Enabled(r, s, a) && !MeetsReservation(r, s, a)
    requires b < |s.queue.slots| && b < |s.life.buckets| && MatchedAt(r, s, b) && UnseenAt(r, s, b, o)
    ensures UnseenAt(r, Do(r, s, a), b, o)
  {
    if IsReserved(r, Do(r, s, a).life.buckets[b], o) {
      if IsReserved(r, s.life.buckets[b], o) {
        StaysUnseen(r, s, a, b, o);
      } else {
        NewReservation(r, s, a, b, o);
      }
    }
  }

  lemma StaysUnseen(r: IoResources, s: State, a: Action, b: nat, o: nat)
    requires Enabled(r, s, a) && !MeetsReservation(r, s, a)
    requires b < |s.queue.slots| && b < |s.life.buckets| && UnseenAt(r, s, b, o) && IsReserved(r, s.life.buckets[b], o)
    ensures UnseenAt(r, Do(r, s, a), b, o)
  {
    var part, t := QueuePart(r, s, a), Do(r, s, a).queue;
    if |part| == 1 {
      assert part[0] in part;
      if o in t.slots[b].jobs || exists w :: 0 <= w < |t.workers| && HasOffset(t.workers[w], b, o) {
        WorkComesFrom(s.queue, part[0], b, o);
        assert false;
      }
    }
  }

  lemma NewReservation(r: IoResources, s: State, a: Action, b: nat, o: nat)
    requires r.tcpStreams >= 1 && Ownership(s.queue) && Enabled(r, s, a) && !MeetsReservation(r, s, a)
    requires b < |s.queue.slots| && b < |s.life.buckets| && MatchedAt(r, s, b)
    requires !IsReserved(r, s.life.buckets[b], o) && IsReserved(r, Do(r, s, a).life.buckets[b], o)
    ensures UnseenAt(r, Do(r, s, a), b, o)
  {
    ReservedByStep(r, s, a, b, o);
    TheOwnerMatches(r, s, a.w, b);
    forall w | 0 <= w < |s.queue.workers| ensures !HasOffset(s.queue.workers[w], b, o) {
      assert Owns(s.queue.workers[a.w], b);
    }
  }

  lemma ReservedByStep(r: IoResources, s: State, a: Action, b: nat, o: nat)
    requires Enabled(r, s, a) && b < |s.life.buckets|
    requires !IsReserved(r, s.life.buckets[b], o) && IsReserved(r, Do(r, s, a).life.buckets[b], o)
    ensures a.Poll? && a.l == L.Reserve(b, o - r.tcpStreams) && s.life.buckets[b].poll == L.Counted
    ensures Do(r, s, a).queue == s.queue
  {
  }

  lemma {:induction false} ReservationsUnseen(r: IoResources, s: State, run: seq<Action>)
    requires r.tcpStreams >= 1 && Initial(s) && ValidRun(r, s, run) && NeverMeets(r, s, run)
    ensures ReservedUnseen(r, After(r, s, run))
  {
    if |run| > 0 {
      var before, a := run[..|run| - 1], run[|run| - 1];
      ReservationsUnseen(r, s, before);
      QueueInvariantHolds(r, s, before);
      RunsMatch(r, s, before);
      var u := After(r, s, before);
      forall b, o: nat | 0 <= b < |s.queue.slots| ensures UnseenAt(r, Do(r, u, a), b, o) {
        assert UnseenAt(r, u, b, o) && MatchedAt(r, u, b);
        UnseenStep(r, u, a, b, o);
      }
    }
  }

  /** No worker is lost in a run in which no connection is reserved while a wake of its offset waits, and
      no wake of its offset comes while it is reserved. */
  lemma {:induction false} NoWorkerLost(r: IoResources, s: State, run: seq<Action>)
    requires r.tcpStreams >= 1 && Initial(s) && ValidRun(r, s, run) && NeverMeets(r, s, run)
    ensures NoLoss(run)
  {
    if |run| > 0 {
      var before, a := run[..|run| - 1], run[|run| - 1];
      NoWorkerLost(r, s, before);
      ReservationsUnseen(r, s, before);
      NoReservedPoll(r, After(r, s, before), a);
      assert run == before + [a];
    }
  }

  lemma NoReservedPoll(r: IoResources, s: State, a: Action)
    requires ReservedUnseen(r, s) && Enabled(r, s, a)
    ensures !(a.Poll? && a.l.PollReserved?)
  {
    if a.Poll? && a.l.PollReserved? {
      assert UnseenAt(r, s, a.l.b, r.tcpStreams + a.l.c);
      assert HasOffset(s.queue.workers[a.w], a.l.b, r.tcpStreams + a.l.c);
      assert false;
    }
  }
}

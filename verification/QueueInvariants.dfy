/** What every step of the bucket queue keeps. */
module QueueInvariants {
  import opened BucketQueue
  import opened Counting

  // ----- Exclusive ownership and totality of release -----

  predicate Holds(pc: Worker) {
    pc.Taken? || pc.Draining? || pc.Clearing? || pc.Polling? || pc.Releasing? || pc.Dropping?
  }

  predicate Owns(pc: Worker, b: nat) {
    Holds(pc) && pc.b == b
  }

  /** A worker's own view of the slot it holds. */
  predicate HolderOk(s: State, pc: Worker) {
    && pc != NotInProgress && pc != Exhausted
    && (Holds(pc) ==> pc.b < |s.slots| && s.slots[pc.b].inProgress)
    && (pc.Clearing? ==> pc.o in s.slots[pc.b].jobs)
    && (pc.Releasing? ==> pc.round < 2 && (pc.round == 1 ==> s.slots[pc.b].enqueued))
    && (pc.Dropping? ==> pc.round == 0)
  }

  predicate EnqueuerOk(s: State, pc: Enqueuer) {
    pc == Idle || pc == Overflowed || pc.b < |s.slots|
  }

  ghost predicate Ownership(s: State) {
    && (forall w :: 0 <= w < |s.workers| ==> HolderOk(s, s.workers[w]))
    && (forall v, w :: 0 <= v < w < |s.workers| && Holds(s.workers[v]) && Holds(s.workers[w])
          ==> s.workers[v].b != s.workers[w].b)
    && (forall b :: 0 <= b < |s.slots| && s.slots[b].inProgress
          ==> exists w :: 0 <= w < |s.workers| && Owns(s.workers[w], b))
    && (forall e :: 0 <= e < |s.enqueuers| ==> EnqueuerOk(s, s.enqueuers[e]))
  }

  predicate ByEnqueuer(a: Action) {
    a.Post? || a.Count? || a.Mark? || a.Notify? || a.Revert?
  }

  lemma EnqueuerKeepsOwnership(s: State, a: Action)
    requires Ownership(s) && Enabled(s, a) && ByEnqueuer(a)
    ensures Ownership(Do(s, a))
  {
    var t := Do(s, a);
    assert EnqueuerOk(s, s.enqueuers[a.e]);
    forall w | 0 <= w < |t.workers|
      ensures Holds(s.workers[w]) || Holds(t.workers[w]) ==> t.workers[w] == s.workers[w]
      ensures HolderOk(t, t.workers[w])
    {
      assert HolderOk(s, s.workers[w]);
    }
    OwnershipUnderEnqueuer(s, t);
  }

  lemma OwnershipUnderEnqueuer(s: State, t: State)
    requires Ownership(s) && |t.slots| == |s.slots| && |t.workers| == |s.workers| && |t.enqueuers| == |s.enqueuers|
    requires forall w :: 0 <= w < |t.workers| ==>
               && HolderOk(t, t.workers[w])
               && (Holds(s.workers[w]) || Holds(t.workers[w]) ==> t.workers[w] == s.workers[w])
    requires forall b :: 0 <= b < |t.slots| ==> t.slots[b].inProgress == s.slots[b].inProgress
    requires forall e :: 0 <= e < |t.enqueuers| ==> EnqueuerOk(s, s.enqueuers[e]) ==> EnqueuerOk(t, t.enqueuers[e])
    ensures Ownership(t)
  {
    forall b | 0 <= b < |t.slots| && t.slots[b].inProgress
      ensures exists w :: 0 <= w < |t.workers| && Owns(t.workers[w], b)
    {
      var w :| 0 <= w < |s.workers| && Owns(s.workers[w], b);
      assert Owns(t.workers[w], b);
    }
  }

  /** How a worker's step may treat slots: it takes a free one, keeps or frees its own, or touches none. */
  predicate Takes(s: State, t: State, w: nat, b: nat)
    requires w < |s.workers| && w < |t.workers| && b < |s.slots| && b < |t.slots|
  {
    !Holds(s.workers[w]) && t.workers[w] == Taken(b) && !s.slots[b].inProgress && t.slots[b].inProgress
  }

  predicate Keeps(s: State, t: State, w: nat, b: nat)
    requires w < |s.workers| && w < |t.workers| && b < |s.slots| && b < |t.slots|
  {
    Owns(s.workers[w], b) && Owns(t.workers[w], b) && t.slots[b].inProgress
  }

  predicate Frees(s: State, t: State, w: nat, b: nat)
    requires w < |s.workers| && w < |t.workers| && b < |s.slots| && b < |t.slots|
  {
    Owns(s.workers[w], b) && !Holds(t.workers[w]) && !t.slots[b].inProgress
  }

  lemma OwnershipByShape(s: State, t: State, w: nat, b: nat)
    requires Ownership(s) && w < |s.workers| && b < |s.slots|
    requires |t.workers| == |s.workers| && t.workers == s.workers[w := t.workers[w]]
    requires |t.slots| == |s.slots| && t.slots == s.slots[b := t.slots[b]] && t.enqueuers == s.enqueuers
    requires HolderOk(t, t.workers[w])
    requires Takes(s, t, w, b) || Keeps(s, t, w, b) || Frees(s, t, w, b)
    ensures Ownership(t)
  {
    forall v | 0 <= v < |t.workers| ensures HolderOk(t, t.workers[v]) {
      assert HolderOk(s, s.workers[v]);
    }
    forall c | 0 <= c < |t.slots| && t.slots[c].inProgress
      ensures exists v :: 0 <= v < |t.workers| && Owns(t.workers[v], c)
    {
      if c == b {
        assert Owns(t.workers[w], c);
      } else {
        var v :| 0 <= v < |s.workers| && Owns(s.workers[v], c);
        assert Owns(t.workers[v], c);
      }
    }
    forall e | 0 <= e < |t.enqueuers| ensures EnqueuerOk(t, t.enqueuers[e]) {
      assert EnqueuerOk(s, s.enqueuers[e]);
    }
  }

  lemma WorkerKeepsOwnership(s: State, a: Action)
    requires Ownership(s) && Enabled(s, a) && !ByEnqueuer(a)
    requires a.Uncount? ==> s.available > 0
    ensures Ownership(Do(s, a))
  {
    var t := Do(s, a);
    var pc := s.workers[a.w];
    assert HolderOk(s, pc);
    if Holds(pc) {
      OwnershipByShape(s, t, a.w, pc.b);
    } else if Holds(t.workers[a.w]) {
      OwnershipByShape(s, t, a.w, pc.i);
    } else {
      SearchingKeepsOwnership(s, t, a.w);
    }
  }

  lemma SearchingKeepsOwnership(s: State, t: State, w: nat)
    requires Ownership(s) && w < |s.workers| && w < |t.workers|
    requires t == MoveW(s, w, t.workers[w]) && !Holds(s.workers[w]) && !Holds(t.workers[w])
    requires HolderOk(t, t.workers[w])
    ensures Ownership(t)
  {
    forall v | 0 <= v < |t.workers| ensures HolderOk(t, t.workers[v]) {
      assert HolderOk(s, s.workers[v]);
    }
    forall c | 0 <= c < |t.slots| && t.slots[c].inProgress
      ensures exists v :: 0 <= v < |t.workers| && Owns(t.workers[v], c)
    {
      var v :| 0 <= v < |s.workers| && Owns(s.workers[v], c);
      assert Owns(t.workers[v], c);
    }
    assert forall e :: 0 <= e < |t.enqueuers| ==> EnqueuerOk(s, s.enqueuers[e]);
  }

  lemma OwnershipStep(s: State, a: Action)
    requires Ownership(s) && Conserved(s) && Enabled(s, a)
    ensures Ownership(Do(s, a))
  {
    if ByEnqueuer(a) {
      EnqueuerKeepsOwnership(s, a);
    } else {
      if a.Uncount? { TotalAtLeast(TakenWeight, s.workers, a.w); }
      WorkerKeepsOwnership(s, a);
    }
  }

  // ----- Counter conservation -----

  /** Flags exactly ENQUEUED: a bucket a worker may take. */
  predicate Available(slot: Slot) {
    slot.enqueued && !slot.inProgress
  }

  function AvailableWeight(slot: Slot): nat { if Available(slot) then 1 else 0 }
  function OwedWeight(pc: Enqueuer): nat { if pc.Marking? || pc.Reverting? then 1 else 0 }
  function TakenWeight(pc: Worker): nat { if pc.Taken? then 1 else 0 }

  function Expected(s: State): nat {
    Total(AvailableWeight, s.slots) + Total(OwedWeight, s.enqueuers) + Total(TakenWeight, s.workers)
  }

  predicate NoneFailed(s: State) {
    && (forall e :: 0 <= e < |s.enqueuers| ==> s.enqueuers[e] != Overflowed)
    && (forall w :: 0 <= w < |s.workers| ==> s.workers[w] != Underflowed)
  }

  predicate Conserved(s: State) {
    s.available == Expected(s) && NoneFailed(s)
  }

  /** The counter never needs more than one unit per slot and per thread. */
  lemma ExpectedBound(s: State)
    ensures Expected(s) <= |s.slots| + |s.enqueuers| + |s.workers|
  {
    TotalAtMost(AvailableWeight, s.slots, 1);
    TotalAtMost(OwedWeight, s.enqueuers, 1);
    TotalAtMost(TakenWeight, s.workers, 1);
  }

  lemma EnqueuerMoves(s: State, e: nat, pc: Enqueuer)
    requires e < |s.enqueuers|
    ensures Expected(MoveE(s, e, pc)) + OwedWeight(s.enqueuers[e]) == Expected(s) + OwedWeight(pc)
  {
    TotalUpdate(OwedWeight, s.enqueuers, e, pc);
  }

  lemma WorkerMoves(s: State, w: nat, pc: Worker)
    requires w < |s.workers|
    ensures Expected(MoveW(s, w, pc)) + TakenWeight(s.workers[w]) == Expected(s) + TakenWeight(pc)
  {
    TotalUpdate(TakenWeight, s.workers, w, pc);
  }

  lemma SlotChanges(s: State, b: nat, slot: Slot)
    requires b < |s.slots|
    ensures Expected(SetSlot(s, b, slot)) + AvailableWeight(s.slots[b]) == Expected(s) + AvailableWeight(slot)
  {
    TotalUpdate(AvailableWeight, s.slots, b, slot);
  }

  lemma ConservedStep(s: State, a: Action)
    requires Ownership(s) && Conserved(s) && Enabled(s, a)
    requires |s.slots| + |s.enqueuers| + |s.workers| <= U32_MAX
    ensures Conserved(Do(s, a))
  {
    if ByEnqueuer(a) {
      ConservedEnqueuerStep(s, a);
    } else {
      ConservedWorkerStep(s, a);
    }
  }

  lemma ConservedEnqueuerStep(s: State, a: Action)
    requires Conserved(s) && Enabled(s, a) && ByEnqueuer(a)
    requires |s.slots| + |s.enqueuers| + |s.workers| <= U32_MAX
    ensures Conserved(Do(s, a))
  {
    match a
    case Post(e, b, o) => ConservedPost(s, e, b, o);
    case Count(e) => ConservedCount(s, e);
    case Mark(e) => ConservedMark(s, e);
    case Notify(e, target) => ConservedNotify(s, e, target);
    case Revert(e) => ConservedRevert(s, e);
  }

  lemma ConservedPost(s: State, e: nat, b: nat, o: nat)
    requires Conserved(s) && Enabled(s, Post(e, b, o))
    ensures Conserved(Do(s, Post(e, b, o)))
  {
    var t := Do(s, Post(e, b, o));
    SlotChanges(s, b, t.slots[b]);
    EnqueuerMoves(SetSlot(s, b, t.slots[b]), e, t.enqueuers[e]);
  }

  lemma ConservedCount(s: State, e: nat)
    requires Conserved(s) && Enabled(s, Count(e)) && |s.slots| + |s.enqueuers| + |s.workers| <= U32_MAX
    ensures Conserved(Do(s, Count(e)))
  {
    SpareCapacity(s, e);
    EnqueuerMoves(s, e, Do(s, Count(e)).enqueuers[e]);
  }

  lemma ConservedMark(s: State, e: nat)
    requires Conserved(s) && Enabled(s, Mark(e))
    ensures Conserved(Do(s, Mark(e)))
  {
    var t := Do(s, Mark(e));
    var b := s.enqueuers[e].b;
    SlotChanges(s, b, t.slots[b]);
    EnqueuerMoves(SetSlot(s, b, t.slots[b]), e, t.enqueuers[e]);
  }

  lemma ConservedNotify(s: State, e: nat, target: nat)
    requires Conserved(s) && Enabled(s, Notify(e, target))
    ensures Conserved(Do(s, Notify(e, target)))
  {
    EnqueuerMoves(s, e, Idle);
    if !NoneAsleep(s) { WorkerMoves(MoveE(s, e, Idle), target, Waiting); }
  }

  lemma ConservedRevert(s: State, e: nat)
    requires Conserved(s) && Enabled(s, Revert(e))
    ensures Conserved(Do(s, Revert(e)))
  {
    TotalAtLeast(OwedWeight, s.enqueuers, e);
    EnqueuerMoves(s, e, Do(s, Revert(e)).enqueuers[e]);
  }

  /** A thread about to increment is not itself counted, so the counter is below its bound. */
  lemma SpareCapacity(s: State, e: nat)
    requires e < |s.enqueuers| && s.enqueuers[e].Counting?
    ensures Expected(s) < |s.slots| + |s.enqueuers| + |s.workers|
  {
    var t := MoveE(s, e, Marking(0, 0));
    EnqueuerMoves(s, e, Marking(0, 0));
    ExpectedBound(t);
  }

  lemma ConservedWorkerStep(s: State, a: Action)
    requires Ownership(s) && Conserved(s) && Enabled(s, a) && !ByEnqueuer(a)
    ensures Conserved(Do(s, a))
  {
    if Holds(s.workers[a.w]) { ConservedHolder(s, a); } else { ConservedSearcher(s, a); }
  }

  lemma ConservedHolder(s: State, a: Action)
    requires Ownership(s) && Conserved(s) && Enabled(s, a) && !ByEnqueuer(a) && Holds(s.workers[a.w])
    ensures Conserved(Do(s, a))
  {
    TotalAtLeast(TakenWeight, s.workers, a.w);
    assert HolderOk(s, s.workers[a.w]);
    ConservedByShape(s, Do(s, a), a.w, s.workers[a.w].b);
  }

  lemma ConservedByShape(s: State, t: State, w: nat, b: nat)
    requires Conserved(s) && w < |s.workers| == |t.workers| && b < |s.slots| == |t.slots|
    requires t.workers == s.workers[w := t.workers[w]] && t.slots == s.slots[b := t.slots[b]]
    requires t.enqueuers == s.enqueuers && t.workers[w] != Underflowed
    requires t.available + AvailableWeight(s.slots[b]) + TakenWeight(s.workers[w])
          == s.available + AvailableWeight(t.slots[b]) + TakenWeight(t.workers[w])
    ensures Conserved(t)
  {
    SlotChanges(s, b, t.slots[b]);
    WorkerMoves(SetSlot(s, b, t.slots[b]), w, t.workers[w]);
  }

  lemma ConservedSearcher(s: State, a: Action)
    requires Conserved(s) && Enabled(s, a) && !ByEnqueuer(a) && !Holds(s.workers[a.w])
    ensures Conserved(Do(s, a))
  {
    var t := Do(s, a);
    var pc := s.workers[a.w];
    if pc.Scanning? && pc.i < |s.slots| {
      SlotChanges(s, pc.i, t.slots[pc.i]);
      WorkerMoves(SetSlot(s, pc.i, t.slots[pc.i]), a.w, t.workers[a.w]);
    } else {
      WorkerMoves(s, a.w, t.workers[a.w]);
    }
    assert t.available == Expected(t);
  }

  // ----- No sleeping while buckets are available -----

  function SearchWeight(pc: Worker): nat { if pc.Waiting? || pc.Scanning? then 1 else 0 }
  function WakingWeight(pc: Enqueuer): nat { if pc.Waking? then 1 else 0 }

  /** While any worker sleeps, every available bucket is matched by a worker that is looking for
      one or by an enqueuer that still has its notification to deliver. */
  predicate Staffed(s: State) {
    NoneAsleep(s) ||
    Total(AvailableWeight, s.slots) <= Total(SearchWeight, s.workers) + Total(WakingWeight, s.enqueuers)
  }

  lemma StaffedEnqueuerStep(s: State, a: Action)
    requires Staffed(s) && Enabled(s, a) && ByEnqueuer(a)
    ensures Staffed(Do(s, a))
  {
    var t := Do(s, a);
    TotalUpdate(WakingWeight, s.enqueuers, a.e, t.enqueuers[a.e]);
    match a
    case Post(e, b, o) => TotalUpdate(AvailableWeight, s.slots, b, t.slots[b]);
    case Count(e) =>
    case Mark(e) => TotalUpdate(AvailableWeight, s.slots, s.enqueuers[e].b, t.slots[s.enqueuers[e].b]);
    case Notify(e, target) => if !NoneAsleep(s) { TotalUpdate(SearchWeight, s.workers, target, Waiting); }
    case Revert(e) =>
  }

  /** A worker other than one falling asleep never widens the gap: it releases no available bucket
      without looking for one itself. */
  lemma StaffedByShape(s: State, t: State, w: nat)
    requires Staffed(s) && w < |s.workers| && |t.workers| == |s.workers|
    requires t.workers == s.workers[w := t.workers[w]] && t.enqueuers == s.enqueuers
    requires t.workers[w] != Asleep
    requires Total(AvailableWeight, t.slots) + SearchWeight(s.workers[w])
          <= Total(AvailableWeight, s.slots) + SearchWeight(t.workers[w])
    ensures Staffed(t)
  {
    TotalUpdate(SearchWeight, s.workers, w, t.workers[w]);
    if !NoneAsleep(t) {
      var v :| 0 <= v < |t.workers| && t.workers[v] == Asleep;
      assert s.workers[v] == Asleep;
    }
  }

  lemma StaffedWorkerStep(s: State, a: Action)
    requires Ownership(s) && Conserved(s) && Staffed(s) && Enabled(s, a) && !ByEnqueuer(a)
    ensures Staffed(Do(s, a))
  {
    if Holds(s.workers[a.w]) { StaffedHolder(s, a); } else { StaffedSearcher(s, a); }
  }

  lemma StaffedHolder(s: State, a: Action)
    requires Ownership(s) && Staffed(s) && Enabled(s, a) && !ByEnqueuer(a) && Holds(s.workers[a.w])
    ensures Staffed(Do(s, a))
  {
    assert HolderOk(s, s.workers[a.w]);
    var t, b := Do(s, a), s.workers[a.w].b;
    TotalUpdate(AvailableWeight, s.slots, b, t.slots[b]);
    StaffedByShape(s, t, a.w);
  }

  lemma StaffedSearcher(s: State, a: Action)
    requires Conserved(s) && Staffed(s) && Enabled(s, a) && !ByEnqueuer(a) && !Holds(s.workers[a.w])
    ensures Staffed(Do(s, a))
  {
    var t, pc := Do(s, a), s.workers[a.w];
    if a.Check? && s.available == 0 {
      assert Total(AvailableWeight, t.slots) == 0;
    } else {
      if pc.Scanning? && pc.i < |s.slots| {
        TotalUpdate(AvailableWeight, s.slots, pc.i, t.slots[pc.i]);
      }
      StaffedByShape(s, t, a.w);
    }
  }

  lemma StaffedStep(s: State, a: Action)
    requires Ownership(s) && Conserved(s) && Staffed(s) && Enabled(s, a)
    ensures Staffed(Do(s, a))
  {
    if ByEnqueuer(a) { StaffedEnqueuerStep(s, a); } else { StaffedWorkerStep(s, a); }
  }
}

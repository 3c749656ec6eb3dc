/** No wake is lost: every job in a bucket's mask has somebody who will get to it. */
module QueueCoverage {
  import opened BucketQueue
  import opened Counting
  import opened QueueInvariants

  /** An enqueue call for bucket b that has not set ENQUEUED yet. */
  predicate PendingOn(pc: Enqueuer, b: nat) {
    (pc.Counting? || pc.Marking?) && pc.b == b
  }

  /** An owner of bucket b that is still to load the mask again, unless it finishes forever. */
  predicate Drains(pc: Worker, b: nat) {
    (pc.Taken? || pc.Draining? || pc.Clearing? || pc.Polling?) && pc.b == b
  }

  /** An owner of bucket b that is certain to see offset 0 of the mask. */
  predicate ReachesMain(pc: Worker, b: nat) {
    (pc.Taken? || pc.Draining? || (pc.Clearing? && pc.o == 0)) && pc.b == b
  }

  ghost predicate SomePending(s: State, b: nat) {
    exists e :: 0 <= e < |s.enqueuers| && PendingOn(s.enqueuers[e], b)
  }

  ghost predicate SomeMainPending(s: State, b: nat) {
    exists e :: 0 <= e < |s.enqueuers| && PendingOn(s.enqueuers[e], b) && s.enqueuers[e].o == 0
  }

  ghost predicate SomeDrains(s: State, b: nat) {
    exists w :: 0 <= w < |s.workers| && Drains(s.workers[w], b)
  }

  ghost predicate SomeReachesMain(s: State, b: nat) {
    exists w :: 0 <= w < |s.workers| && ReachesMain(s.workers[w], b)
  }

  ghost predicate MainCoveredAt(s: State, b: nat)
    requires b < |s.slots|
  {
    0 in s.slots[b].jobs ==> s.slots[b].enqueued || SomeMainPending(s, b) || SomeReachesMain(s, b)
  }

  /** Somebody is going to look at the mask of bucket b. */
  ghost predicate HasCover(s: State, b: nat)
    requires b < |s.slots|
  {
    s.slots[b].enqueued || SomePending(s, b) || SomeDrains(s, b)
  }

  ghost predicate CoveredAt(s: State, b: nat)
    requires b < |s.slots|
  {
    s.slots[b].jobs != {} ==> HasCover(s, b)
  }

  /** The main task's wake is never stranded. */
  ghost predicate MainCovered(s: State) {
    forall b :: 0 <= b < |s.slots| ==> MainCoveredAt(s, b)
  }

  /** No wake at all is stranded. */
  ghost predicate Covered(s: State) {
    forall b :: 0 <= b < |s.slots| ==> CoveredAt(s, b)
  }

  /** Leaving a bucket forever is clean when nothing is left in its mask, or somebody has marked it
      enqueued again, or somebody is about to. */
  ghost predicate CleanExit(s: State, a: Action)
    requires Ownership(s) && Enabled(s, a)
  {
    a.Finish? && a.outcome == Forever ==>
      assert HolderOk(s, s.workers[a.w]);
      var b := s.workers[a.w].b;
      s.slots[b].jobs == {} || s.slots[b].enqueued || SomePending(s, b)
  }

  // ----- The main task -----

  lemma MainCoveredEnqueuerStep(s: State, a: Action, b: nat)
    requires MainCovered(s) && Enabled(s, a) && ByEnqueuer(a) && b < |s.slots|
    requires a.Count? ==> s.available < U32_MAX
    ensures MainCoveredAt(Do(s, a), b)
  {
    var t := Do(s, a);
    assert MainCoveredAt(s, b);
    if 0 in t.slots[b].jobs && !t.slots[b].enqueued {
      if 0 !in s.slots[b].jobs {
        assert PendingOn(t.enqueuers[a.e], b);
      } else if SomeMainPending(s, b) {
        var e :| 0 <= e < |s.enqueuers| && PendingOn(s.enqueuers[e], b) && s.enqueuers[e].o == 0;
        assert PendingOn(t.enqueuers[e], b) && t.enqueuers[e].o == 0;
      } else {
        var w :| 0 <= w < |s.workers| && ReachesMain(s.workers[w], b);
        assert ReachesMain(t.workers[w], b);
      }
    }
  }

  lemma MainCoveredByShape(s: State, t: State, w: nat, b: nat)
    requires b < |s.slots| && b < |t.slots| && MainCoveredAt(s, b)
    requires w < |s.workers| == |t.workers| && t.workers == s.workers[w := t.workers[w]] && t.enqueuers == s.enqueuers
    requires 0 in t.slots[b].jobs ==> 0 in s.slots[b].jobs
    requires 0 in t.slots[b].jobs && !t.slots[b].enqueued ==>
               (s.slots[b].enqueued || ReachesMain(s.workers[w], b) ==> ReachesMain(t.workers[w], b))
    ensures MainCoveredAt(t, b)
  {
    if 0 in t.slots[b].jobs && !t.slots[b].enqueued {
      if SomeMainPending(s, b) {
        assert SomeMainPending(t, b);
      } else if s.slots[b].enqueued {
        assert ReachesMain(t.workers[w], b);
      } else {
        var v :| 0 <= v < |s.workers| && ReachesMain(s.workers[v], b);
        assert ReachesMain(t.workers[v], b);
      }
    }
  }

  lemma MainCoveredWorkerStep(s: State, a: Action, b: nat)
    requires Ownership(s) && MainCovered(s) && Enabled(s, a) && !ByEnqueuer(a) && b < |s.slots|
    requires a.Uncount? ==> s.available > 0
    ensures MainCoveredAt(Do(s, a), b)
  {
    assert MainCoveredAt(s, b) && HolderOk(s, s.workers[a.w]);
    MainCoveredByShape(s, Do(s, a), a.w, b);
  }

  lemma MainCoveredStep(s: State, a: Action)
    requires Ownership(s) && Conserved(s) && MainCovered(s) && Enabled(s, a)
    requires |s.slots| + |s.enqueuers| + |s.workers| <= U32_MAX
    ensures MainCovered(Do(s, a))
  {
    CounterInRange(s, a);
    forall b | 0 <= b < |s.slots| ensures MainCoveredAt(Do(s, a), b) {
      if ByEnqueuer(a) { MainCoveredEnqueuerStep(s, a, b); } else { MainCoveredWorkerStep(s, a, b); }
    }
  }

  lemma CounterInRange(s: State, a: Action)
    requires Conserved(s) && Enabled(s, a)
    requires |s.slots| + |s.enqueuers| + |s.workers| <= U32_MAX
    ensures a.Count? ==> s.available < U32_MAX
    ensures a.Uncount? ==> s.available > 0
  {
    if a.Count? { SpareCapacity(s, a.e); }
    if a.Uncount? { TotalAtLeast(TakenWeight, s.workers, a.w); }
  }

  // ----- All offsets -----

  lemma CoveredEnqueuerStep(s: State, a: Action, b: nat)
    requires Enabled(s, a) && ByEnqueuer(a) && b < |s.slots| && CoveredAt(s, b)
    requires a.Count? ==> s.available < U32_MAX
    ensures CoveredAt(Do(s, a), b)
  {
    var t := Do(s, a);
    if t.slots[b].jobs != {} && !t.slots[b].enqueued {
      if s.slots[b].jobs != t.slots[b].jobs {
        assert PendingOn(t.enqueuers[a.e], b);
      } else if SomePending(s, b) {
        var e :| 0 <= e < |s.enqueuers| && PendingOn(s.enqueuers[e], b);
        assert PendingOn(t.enqueuers[e], b);
      } else {
        var w :| 0 <= w < |s.workers| && Drains(s.workers[w], b);
        assert Drains(t.workers[w], b);
      }
    }
  }

  lemma CoveredByShape(s: State, t: State, w: nat, b: nat)
    requires b < |s.slots| && b < |t.slots| && CoveredAt(s, b)
    requires w < |s.workers| == |t.workers| && t.workers == s.workers[w := t.workers[w]] && t.enqueuers == s.enqueuers
    requires t.slots[b].jobs <= s.slots[b].jobs
    requires t.slots[b].jobs != {} && !t.slots[b].enqueued && !SomePending(s, b) ==>
               (s.slots[b].enqueued || Drains(s.workers[w], b) ==> Drains(t.workers[w], b))
    ensures CoveredAt(t, b)
  {
    if t.slots[b].jobs != {} && !t.slots[b].enqueued {
      if SomePending(s, b) {
        assert SomePending(t, b);
      } else if s.slots[b].enqueued {
        assert Drains(t.workers[w], b);
      } else {
        var v :| 0 <= v < |s.workers| && Drains(s.workers[v], b);
        assert Drains(t.workers[v], b);
      }
    }
  }

  lemma CoveredWorkerStep(s: State, a: Action, b: nat)
    requires Ownership(s) && Enabled(s, a) && !ByEnqueuer(a) && b < |s.slots| && CoveredAt(s, b)
    requires a.Uncount? ==> s.available > 0
    requires CleanExit(s, a) || !Owns(s.workers[a.w], b)
    ensures CoveredAt(Do(s, a), b)
  {
    assert HolderOk(s, s.workers[a.w]);
    CoveredByShape(s, Do(s, a), a.w, b);
  }

  /** A step keeps every job covered exactly when it is not an unclean exit. */
  lemma CoveredStep(s: State, a: Action)
    requires Ownership(s) && Conserved(s) && Covered(s) && Enabled(s, a)
    requires |s.slots| + |s.enqueuers| + |s.workers| <= U32_MAX
    ensures Covered(Do(s, a)) <==> CleanExit(s, a)
  {
    CounterInRange(s, a);
    if CleanExit(s, a) {
      forall b | 0 <= b < |s.slots| ensures CoveredAt(Do(s, a), b) {
        assert CoveredAt(s, b);
        if ByEnqueuer(a) { CoveredEnqueuerStep(s, a, b); } else { CoveredWorkerStep(s, a, b); }
      }
    } else {
      assert HolderOk(s, s.workers[a.w]);
      NobodyElseDrains(s, a);
    }
  }

  lemma NobodyElseDrains(s: State, a: Action)
    requires Ownership(s) && Enabled(s, a) && !CleanExit(s, a)
    ensures !Covered(Do(s, a))
  {
    assert HolderOk(s, s.workers[a.w]);
    var t := Do(s, a);
    var b := s.workers[a.w].b;
    assert t.slots == s.slots && t.enqueuers == s.enqueuers;
    assert SomePending(t, b) == SomePending(s, b);
    forall w | 0 <= w < |t.workers| ensures !Drains(t.workers[w], b) {
      assert w != a.w ==> t.workers[w] == s.workers[w];
    }
    assert !CoveredAt(t, b);
  }
}

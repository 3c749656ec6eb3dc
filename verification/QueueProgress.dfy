/** The work in a bucket queue is finite: without new wakes, only so many productive steps can happen. */
module QueueProgress {
  import opened BucketQueue
  import opened Counting
  import opened QueueInvariants
  import opened QueueTheorems

  /** Steps that get something done, as opposed to looking at the counter, passing over a slot that is
      not available, or waking up for nothing. */
  predicate Productive(s: State, a: Action)
    requires Enabled(s, a)
  {
    match a
    case Post(_, _, _) => false
    case Check(_) => false
    case Spurious(_) => false
    case TryProcess(w) => var i := s.workers[w].i; i < |s.slots| && Available(s.slots[i])
    case _ => true
  }

  function SlotWork(slot: Slot): nat { 3 * |slot.jobs| + if slot.enqueued then 7 else 0 }

  function EnqueuerWork(pc: Enqueuer): nat {
    match pc
    case Counting(_, _) => 10
    case Marking(_, _) => 9
    case Waking(_) => 1
    case Reverting(_) => 1
    case _ => 0
  }

  function WorkerWork(pc: Worker): nat {
    match pc
    case Taken(_) => 6
    case Draining(_) => 5
    case Clearing(_, _) => 4
    case Polling(_, _) => 6
    case Releasing(_, round) => if round == 0 then 3 else 1
    case Dropping(_, _) => 2
    case _ => 0
  }

  /** The work left in a state. */
  function Work(s: State): nat {
    Total(SlotWork, s.slots) + Total(EnqueuerWork, s.enqueuers) + Total(WorkerWork, s.workers)
  }

  lemma WorkOfEnqueuer(s: State, e: nat, pc: Enqueuer)
    requires e < |s.enqueuers|
    ensures Work(MoveE(s, e, pc)) + EnqueuerWork(s.enqueuers[e]) == Work(s) + EnqueuerWork(pc)
  {
    TotalUpdate(EnqueuerWork, s.enqueuers, e, pc);
  }

  lemma WorkOfWorker(s: State, w: nat, pc: Worker)
    requires w < |s.workers|
    ensures Work(MoveW(s, w, pc)) + WorkerWork(s.workers[w]) == Work(s) + WorkerWork(pc)
  {
    TotalUpdate(WorkerWork, s.workers, w, pc);
  }

  lemma WorkOfSlot(s: State, b: nat, slot: Slot)
    requires b < |s.slots|
    ensures Work(SetSlot(s, b, slot)) + SlotWork(s.slots[b]) == Work(s) + SlotWork(slot)
  {
    TotalUpdate(SlotWork, s.slots, b, slot);
  }

  lemma EnqueuerWorks(s: State, a: Action)
    requires Enabled(s, a) && ByEnqueuer(a) && !a.Post?
    ensures Work(Do(s, a)) < Work(s)
  {
    var t := Do(s, a);
    match a
    case Count(e) => WorkOfEnqueuer(s, e, t.enqueuers[e]);
    case Mark(e) =>
      var b := s.enqueuers[e].b;
      WorkOfSlot(s, b, t.slots[b]);
      WorkOfEnqueuer(SetSlot(s, b, t.slots[b]), e, t.enqueuers[e]);
    case Notify(e, target) =>
      WorkOfEnqueuer(s, e, Idle);
      if !NoneAsleep(s) { WorkOfWorker(MoveE(s, e, Idle), target, Waiting); }
    case Revert(e) => WorkOfEnqueuer(s, e, t.enqueuers[e]);
  }

  /** The work of a worker that holds a slot, and of the slot, shrinks with each of its steps. */
  lemma HolderWorks(s: State, a: Action)
    requires Ownership(s) && Enabled(s, a) && !ByEnqueuer(a) && Holds(s.workers[a.w])
    ensures HolderOk(s, s.workers[a.w])
    ensures var t, b := Do(s, a), s.workers[a.w].b;
            SlotWork(t.slots[b]) + WorkerWork(t.workers[a.w]) < SlotWork(s.slots[b]) + WorkerWork(s.workers[a.w])
  {
    assert HolderOk(s, s.workers[a.w]);
    if a.Clear? { OneJobLess(s.slots[s.workers[a.w].b].jobs, s.workers[a.w].o); }
  }

  lemma OneJobLess(jobs: set<nat>, o: nat)
    requires o in jobs
    ensures |jobs - {o}| == |jobs| - 1
  {
  }

  lemma WorkByShape(s: State, t: State, w: nat, b: nat)
    requires w < |s.workers| == |t.workers| && b < |s.slots| == |t.slots|
    requires t.workers == s.workers[w := t.workers[w]] && t.slots == s.slots[b := t.slots[b]]
    requires t.enqueuers == s.enqueuers
    ensures Work(t) + SlotWork(s.slots[b]) + WorkerWork(s.workers[w])
         == Work(s) + SlotWork(t.slots[b]) + WorkerWork(t.workers[w])
  {
    WorkOfSlot(s, b, t.slots[b]);
    WorkOfWorker(SetSlot(s, b, t.slots[b]), w, t.workers[w]);
  }

  lemma WorkerWorks(s: State, a: Action)
    requires Ownership(s) && Enabled(s, a) && !ByEnqueuer(a)
    ensures Productive(s, a) ==> Work(Do(s, a)) < Work(s)
    ensures !Productive(s, a) ==> Work(Do(s, a)) == Work(s)
  {
    if Holds(s.workers[a.w]) {
      HolderWorks(s, a);
      WorkByShape(s, Do(s, a), a.w, s.workers[a.w].b);
    } else {
      SearcherWorks(s, a);
    }
  }

  lemma SearcherWorks(s: State, a: Action)
    requires Enabled(s, a) && !ByEnqueuer(a) && !Holds(s.workers[a.w])
    ensures Productive(s, a) ==> Work(Do(s, a)) < Work(s)
    ensures !Productive(s, a) ==> Work(Do(s, a)) == Work(s)
  {
    if Productive(s, a) {
      WorkByShape(s, Do(s, a), a.w, s.workers[a.w].i);
    } else {
      WorkOfWorker(s, a.w, Do(s, a).workers[a.w]);
    }
  }

  /** How many productive steps a continuation of a run takes. */
  ghost function ProductiveSteps(s: State, run: seq<Action>): nat
    requires ValidRun(s, run)
  {
    if |run| == 0 then 0
    else
      var before := run[..|run| - 1];
      ProductiveSteps(s, before) + if Productive(After(s, before), run[|run| - 1]) then 1 else 0
  }

  lemma {:induction false} InvariantPersists(s: State, run: seq<Action>)
    requires Invariant(s) && Fits(s) && ValidRun(s, run)
    ensures Invariant(After(s, run))
  {
    if |run| > 0 {
      InvariantPersists(s, run[..|run| - 1]);
      InvariantStep(After(s, run[..|run| - 1]), run[|run| - 1]);
    }
  }

  /** From any reachable state on, and as long as nothing new is posted, at most `Work` productive steps
      are taken: the workers cannot keep handing the same jobs around. */
  lemma {:induction false} WorkIsFinite(s: State, run: seq<Action>)
    requires Invariant(s) && Fits(s) && ValidRun(s, run)
    requires forall k :: 0 <= k < |run| ==> !run[k].Post?
    ensures ProductiveSteps(s, run) + Work(After(s, run)) <= Work(s)
  {
    if |run| > 0 {
      var before, a := run[..|run| - 1], run[|run| - 1];
      WorkIsFinite(s, before);
      InvariantPersists(s, before);
      var u := After(s, before);
      if ByEnqueuer(a) {
        EnqueuerWorks(u, a);
      } else {
        WorkerWorks(u, a);
      }
    }
  }
}

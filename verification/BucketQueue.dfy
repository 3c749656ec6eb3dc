/** The lock-free bucket queue as a transition system: one step per atomic operation, a program
    counter per enqueue call and per worker, any number of both. */
module BucketQueue {

  const U32_MAX: nat := 0xFFFF_FFFF

  /** What a `QueueSlot` holds: the two flag bits and the set of offsets in its job mask. */
  datatype Slot = Slot(enqueued: bool, inProgress: bool, jobs: set<nat>)

  /** Where a call of `wake`/`initial_enqueue` for offset `o` of bucket `b` stands. */
  datatype Enqueuer =
    | Idle
    | Counting(b: nat, o: nat)   // the offset was new; about to increment the counter
    | Marking(b: nat, o: nat)    // about to set ENQUEUED
    | Waking(b: nat)             // the bucket was new; about to notify a worker
    | Reverting(b: nat)          // the bucket was known already; about to decrement
    | Overflowed                 // a checked add or subtract on the counter failed

  /** Where a worker stands in `run_worker`, `blocking_dequeue` and `run_bucket`. */
  datatype Worker =
    | Waiting                    // about to inspect the counter under its mutex
    | Asleep                     // in the condvar's wait set
    | Scanning(i: nat)           // about to try slot i
    | Taken(b: nat)              // took slot b; about to decrement the counter
    | Draining(b: nat)           // about to load the job mask
    | Clearing(b: nat, o: nat)   // loaded lowest offset o; about to clear its bit
    | Polling(b: nat, o: nat)
    | Releasing(b: nat, round: nat)  // about to exchange ENQUEUED|IN_PROGRESS for IN_PROGRESS
    | Dropping(b: nat, round: nat)   // about to exchange IN_PROGRESS for 0
    | Underflowed                // the checked subtract failed
    | NotInProgress              // the assert in done_with_bucket failed
    | Exhausted                  // the unreachable! after two rounds

  datatype State = State(slots: seq<Slot>, available: nat, enqueuers: seq<Enqueuer>, workers: seq<Worker>)

  /** How polling a task ends for the worker: it goes back to the mask (pending, late wake, not the
      last task, or cleaned up after a panic or out-of-memory), or the bucket is done forever. */
  datatype Outcome = Continue | Forever

  datatype Action =
    | Post(e: nat, b: nat, o: nat)
    | Count(e: nat)
    | Mark(e: nat)
    | Notify(e: nat, target: nat)
    | Revert(e: nat)
    | Check(w: nat)
    | Spurious(w: nat)
    | TryProcess(w: nat)
    | Uncount(w: nat)
    | Load(w: nat)
    | Clear(w: nat)
    | Finish(w: nat, outcome: Outcome)
    | ClearEnqueued(w: nat)
    | ClearInProgress(w: nat)

  predicate Initial(s: State) {
    && s.available == 0
    && |s.workers| >= 1
    && (forall b :: 0 <= b < |s.slots| ==> s.slots[b] == Slot(false, false, {}))
    && (forall e :: 0 <= e < |s.enqueuers| ==> s.enqueuers[e] == Idle)
    && (forall w :: 0 <= w < |s.workers| ==> s.workers[w] == Waiting)
  }

  predicate EnqueuerReady(s: State, a: Action)
    requires a.Post? || a.Count? || a.Mark? || a.Notify? || a.Revert?
  {
    && a.e < |s.enqueuers|
    && var pc := s.enqueuers[a.e];
       match a
       case Post(_, b, _) => pc == Idle && b < |s.slots|
       case Count(_) => pc.Counting?
       case Mark(_) => pc.Marking? && pc.b < |s.slots|
       case Notify(_, target) =>
         pc.Waking? && ((target < |s.workers| && s.workers[target] == Asleep) || NoneAsleep(s))
       case Revert(_) => pc.Reverting?
  }

  predicate WorkerReady(s: State, a: Action)
    requires !(a.Post? || a.Count? || a.Mark? || a.Notify? || a.Revert?)
  {
    && a.w < |s.workers|
    && var pc := s.workers[a.w];
       match a
       case Check(_) => pc == Waiting
       case Spurious(_) => pc == Asleep
       case TryProcess(_) => pc.Scanning?
       case Uncount(_) => pc.Taken?
       case Load(_) => pc.Draining? && pc.b < |s.slots|
       case Clear(_) => pc.Clearing? && pc.b < |s.slots|
       case Finish(_, _) => pc.Polling?
       case ClearEnqueued(_) => pc.Releasing? && pc.b < |s.slots|
       case ClearInProgress(_) => pc.Dropping? && pc.b < |s.slots|
  }

  predicate Enabled(s: State, a: Action) {
    if a.Post? || a.Count? || a.Mark? || a.Notify? || a.Revert? then EnqueuerReady(s, a) else WorkerReady(s, a)
  }

  predicate NoneAsleep(s: State) {
    forall w :: 0 <= w < |s.workers| ==> s.workers[w] != Asleep
  }

  function MoveE(s: State, e: nat, pc: Enqueuer): State
    requires e < |s.enqueuers|
  {
    s.(enqueuers := s.enqueuers[e := pc])
  }

  function MoveW(s: State, w: nat, pc: Worker): State
    requires w < |s.workers|
  {
    s.(workers := s.workers[w := pc])
  }

  function SetSlot(s: State, b: nat, slot: Slot): State
    requires b < |s.slots|
  {
    s.(slots := s.slots[b := slot])
  }

  /** The lowest member of a non-empty job mask. */
  function Lowest(jobs: set<nat>): (o: nat)
    requires jobs != {}
    ensures o in jobs && forall x :: x in jobs ==> o <= x
  {
    LowestExists(jobs);
    var o :| o in jobs && forall x :: x in jobs ==> o <= x;
    o
  }

  lemma LowestExists(jobs: set<nat>)
    requires jobs != {}
    ensures exists o :: o in jobs && forall x :: x in jobs ==> o <= x
  {
    var y :| y in jobs;
    LowestBelow(jobs, y);
  }

  lemma {:induction false} LowestBelow(jobs: set<nat>, y: nat)
    requires y in jobs
    ensures exists o :: o in jobs && forall x :: x in jobs ==> o <= x
  {
    if x :| x in jobs && x < y {
      LowestBelow(jobs, x);
    }
  }

  function Do(s: State, a: Action): (t: State)
    requires Enabled(s, a)
    ensures |t.slots| == |s.slots| && |t.enqueuers| == |s.enqueuers| && |t.workers| == |s.workers|
  {
    match a
    case Post(e, b, o) =>
      var slot := s.slots[b];
      if o in slot.jobs then s
      else MoveE(SetSlot(s, b, slot.(jobs := slot.jobs + {o})), e, Counting(b, o))
    case Count(e) =>
      var pc := s.enqueuers[e];
      if s.available == U32_MAX then MoveE(s, e, Overflowed)
      else MoveE(s.(available := s.available + 1), e, Marking(pc.b, pc.o))
    case Mark(e) =>
      var b := s.enqueuers[e].b;
      var slot := s.slots[b];
      MoveE(SetSlot(s, b, slot.(enqueued := true)), e,
            if !slot.enqueued && !slot.inProgress then Waking(b) else Reverting(b))
    case Notify(e, target) =>
      if NoneAsleep(s) then MoveE(s, e, Idle) else MoveW(MoveE(s, e, Idle), target, Waiting)
    case Revert(e) =>
      if s.available == 0 then MoveE(s, e, Overflowed)
      else MoveE(s.(available := s.available - 1), e, Idle)
    case Check(w) =>
      MoveW(s, w, if s.available == 0 then Asleep else Scanning(0))
    case Spurious(w) =>
      MoveW(s, w, Waiting)
    case TryProcess(w) =>
      var i := s.workers[w].i;
      if i >= |s.slots| then MoveW(s, w, Waiting)
      else
        var slot := s.slots[i];
        if slot.enqueued && !slot.inProgress
        then MoveW(SetSlot(s, i, slot.(enqueued := false, inProgress := true)), w, Taken(i))
        else MoveW(s, w, Scanning(i + 1))
    case Uncount(w) =>
      if s.available == 0 then MoveW(s, w, Underflowed)
      else MoveW(s.(available := s.available - 1), w, Draining(s.workers[w].b))
    case Load(w) =>
      var b := s.workers[w].b;
      var jobs := s.slots[b].jobs;
      MoveW(s, w, if jobs == {} then Releasing(b, 0) else Clearing(b, Lowest(jobs)))
    case Clear(w) =>
      var Clearing(b, o) := s.workers[w];
      var slot := s.slots[b];
      MoveW(SetSlot(s, b, slot.(jobs := slot.jobs - {o})), w, Polling(b, o))
    case Finish(w, outcome) =>
      var b := s.workers[w].b;
      MoveW(s, w, if outcome == Forever then Releasing(b, 0) else Draining(b))
    case ClearEnqueued(w) =>
      var Releasing(b, round) := s.workers[w];
      var slot := s.slots[b];
      if slot.enqueued && slot.inProgress
      then MoveW(SetSlot(s, b, slot.(enqueued := false)), w, Draining(b))
      else if slot.enqueued || !slot.inProgress then MoveW(s, w, NotInProgress)
      else MoveW(s, w, Dropping(b, round))
    case ClearInProgress(w) =>
      var Dropping(b, round) := s.workers[w];
      var slot := s.slots[b];
      if !slot.enqueued && slot.inProgress
      then MoveW(SetSlot(s, b, slot.(inProgress := false)), w, Waiting)
      else if round + 1 < 2 then MoveW(s, w, Releasing(b, round + 1))
      else MoveW(s, w, Exhausted)
  }

  /** A run: every action is enabled in the state its predecessors lead to. */
  predicate ValidRun(s: State, run: seq<Action>)
    decreases |run|, 0
  {
    |run| == 0 ||
    (ValidRun(s, run[..|run| - 1]) && Enabled(After(s, run[..|run| - 1]), run[|run| - 1]))
  }

  function After(s: State, run: seq<Action>): (t: State)
    requires ValidRun(s, run)
    ensures |t.slots| == |s.slots| && |t.enqueuers| == |s.enqueuers| && |t.workers| == |s.workers|
    decreases |run|, 1
  {
    if |run| == 0 then s else Do(After(s, run[..|run| - 1]), run[|run| - 1])
  }

  /** The state a run has reached before its k-th action. */
  function At(s: State, run: seq<Action>, k: nat): State
    requires ValidRun(s, run) && k <= |run|
  {
    PrefixesAreValid(s, run, k);
    After(s, run[..k])
  }

  lemma {:induction false} PrefixesAreValid(s: State, run: seq<Action>, k: nat)
    requires ValidRun(s, run) && k <= |run|
    ensures ValidRun(s, run[..k])
    ensures k < |run| ==> Enabled(After(s, run[..k]), run[k]) && run[..k + 1][..k] == run[..k]
  {
    if k == |run| {
      assert run[..k] == run;
    } else {
      var init := run[..|run| - 1];
      assert init[..k] == run[..k];
      if k < |init| {
        PrefixesAreValid(s, init, k);
      } else {
        assert run[..k] == init;
      }
    }
  }

  lemma AtNext(s: State, run: seq<Action>, k: nat)
    requires ValidRun(s, run) && k < |run|
    ensures Enabled(At(s, run, k), run[k])
    ensures At(s, run, k + 1) == Do(At(s, run, k), run[k])
    ensures ValidRun(s, run[..k])
  {
    PrefixesAreValid(s, run, k);
    PrefixesAreValid(s, run, k + 1);
  }
}

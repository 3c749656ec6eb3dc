/** Safety of the bucket queue over whole runs. */
module QueueTheorems {
  import opened BucketQueue
  import opened Counting
  import opened QueueInvariants
  import opened QueueCoverage

  ghost predicate Invariant(s: State) {
    Ownership(s) && Conserved(s) && Staffed(s) && MainCovered(s)
  }

  predicate Fits(s: State) {
    |s.slots| + |s.enqueuers| + |s.workers| <= U32_MAX
  }

  lemma InitialInvariant(s: State)
    requires Initial(s)
    ensures Invariant(s) && Covered(s)
  {
    TotalZero(AvailableWeight, s.slots);
    TotalZero(OwedWeight, s.enqueuers);
    TotalZero(TakenWeight, s.workers);
  }

  lemma InvariantStep(s: State, a: Action)
    requires Invariant(s) && Fits(s) && Enabled(s, a)
    ensures Invariant(Do(s, a))
  {
    OwnershipStep(s, a);
    ConservedStep(s, a);
    StaffedStep(s, a);
    MainCoveredStep(s, a);
  }

  /** In every reachable state: buckets have at most one owner, the counter is conserved, no worker
      sleeps while buckets outnumber the workers looking for one, and main wakes are not stranded. */
  lemma {:induction false} RunsKeepInvariant(s: State, run: seq<Action>)
    requires Initial(s) && Fits(s) && ValidRun(s, run)
    ensures Invariant(After(s, run))
  {
    if |run| == 0 {
      InitialInvariant(s);
    } else {
      var before, a := run[..|run| - 1], run[|run| - 1];
      RunsKeepInvariant(s, before);
      InvariantStep(After(s, before), a);
    }
  }

  /** The counter is a 32-bit word: below its largest value counting goes through, and at that value it
      fails. */
  lemma CounterIsAWord(s: State, e: nat)
    requires e < |s.enqueuers| && s.enqueuers[e].Counting?
    ensures Enabled(s, Count(e))
    ensures s.available < 4294967295 ==>
              var t := Do(s, Count(e));
              t.available == s.available + 1 && t.enqueuers[e] == Marking(s.enqueuers[e].b, s.enqueuers[e].o)
    ensures s.available == 4294967295 ==> Do(s, Count(e)).enqueuers[e] == Overflowed
    ensures Fits(s) <==> |s.slots| + |s.enqueuers| + |s.workers| <= 4294967295
  {
  }

  /** A bucket is in progress exactly when one worker owns it, and no two workers own the same one. */
  lemma OwnersAreExclusive(s: State, run: seq<Action>, b: nat)
    requires Initial(s) && Fits(s) && ValidRun(s, run) && b < |s.slots|
    ensures var t := After(s, run);
            && (t.slots[b].inProgress <==> exists w :: 0 <= w < |t.workers| && Owns(t.workers[w], b))
            && (forall v, w | 0 <= v < |t.workers| && 0 <= w < |t.workers| ::
                  Owns(t.workers[v], b) && Owns(t.workers[w], b) ==> v == w)
  {
    RunsKeepInvariant(s, run);
    var t := After(s, run);
    forall w | 0 <= w < |t.workers| && Owns(t.workers[w], b) ensures t.slots[b].inProgress {
      assert HolderOk(t, t.workers[w]);
    }
  }

  /** No checked arithmetic on the counter fails, the assertion in `done_with_bucket` holds, and its
      two rounds always suffice. */
  lemma NothingPanics(s: State, run: seq<Action>)
    requires Initial(s) && Fits(s) && ValidRun(s, run)
    ensures var t := After(s, run);
            && (forall e :: 0 <= e < |t.enqueuers| ==> t.enqueuers[e] != Overflowed)
            && (forall w :: 0 <= w < |t.workers| ==> t.workers[w] !in {Underflowed, NotInProgress, Exhausted})
            && t.available <= |s.slots| + |s.enqueuers| + |s.workers|
  {
    RunsKeepInvariant(s, run);
    var t := After(s, run);
    ExpectedBound(t);
    forall w | 0 <= w < |t.workers| ensures t.workers[w] !in {Underflowed, NotInProgress, Exhausted} {
      assert HolderOk(t, t.workers[w]);
    }
  }

  ghost predicate AwakeOrNotifying(s: State) {
    || (exists w :: 0 <= w < |s.workers| && s.workers[w] != Asleep)
    || (exists e :: 0 <= e < |s.enqueuers| && s.enqueuers[e].Waking?)
  }

  /** If some bucket is available then some worker is awake or some notification is still to come. */
  lemma NoSleepingDeadlock(s: State, run: seq<Action>, b: nat)
    requires Initial(s) && Fits(s) && ValidRun(s, run) && b < |s.slots|
    requires Available(After(s, run).slots[b])
    ensures AwakeOrNotifying(After(s, run))
  {
    RunsKeepInvariant(s, run);
    StaffedMeansAwake(After(s, run), b);
  }

  lemma StaffedMeansAwake(t: State, b: nat)
    requires Staffed(t) && |t.workers| >= 1 && b < |t.slots| && Available(t.slots[b])
    ensures AwakeOrNotifying(t)
  {
    TotalAtLeast(AvailableWeight, t.slots, b);
    TotalZero(SearchWeight, t.workers);
    TotalZero(WakingWeight, t.enqueuers);
    assert t.workers[0] == Asleep ==> !NoneAsleep(t);
  }

  /** Every state of a run has all its jobs covered exactly when every exit through `Forever` was clean. */
  lemma {:induction false} NoJobLostIffCleanExits(s: State, run: seq<Action>)
    requires Initial(s) && Fits(s) && ValidRun(s, run)
    ensures (forall k: nat :: k <= |run| ==> Covered(At(s, run, k)))
       <==> (forall k: nat :: k < |run| ==> CleanAt(s, run, k))
  {
    if forall k: nat :: k < |run| ==> CleanAt(s, run, k) {
      forall k: nat | k <= |run| ensures Covered(At(s, run, k)) {
        CoveredWhileClean(s, run, k);
      }
    }
    if forall k: nat :: k <= |run| ==> Covered(At(s, run, k)) {
      forall k: nat | k < |run| ensures CleanAt(s, run, k) {
        CoveredFollowsClean(s, run, k);
        assert Covered(At(s, run, k + 1));
      }
    }
  }

  ghost predicate CleanAt(s: State, run: seq<Action>, k: nat)
    requires Initial(s) && Fits(s) && ValidRun(s, run) && k < |run|
  {
    AtNext(s, run, k);
    RunsKeepInvariant(s, run[..k]);
    CleanExit(At(s, run, k), run[k])
  }

  lemma CoveredFollowsClean(s: State, run: seq<Action>, k: nat)
    requires Initial(s) && Fits(s) && ValidRun(s, run) && k < |run|
    requires Covered(At(s, run, k))
    ensures CleanAt(s, run, k) <==> Covered(At(s, run, k + 1))
  {
    AtNext(s, run, k);
    RunsKeepInvariant(s, run[..k]);
    CoveredStep(At(s, run, k), run[k]);
  }

  lemma {:induction false} CoveredWhileClean(s: State, run: seq<Action>, k: nat)
    requires Initial(s) && Fits(s) && ValidRun(s, run) && k <= |run|
    requires forall j: nat :: j < k ==> CleanAt(s, run, j)
    ensures Covered(At(s, run, k))
  {
    if k == 0 {
      InitialInvariant(s);
    } else {
      CoveredWhileClean(s, run, k - 1);
      CoveredFollowsClean(s, run, k - 1);
    }
  }

  /** Runs in which workers leave a bucket only after seeing an empty mask lose nothing. */
  lemma NoJobLostWithoutForever(s: State, run: seq<Action>)
    requires Initial(s) && Fits(s) && ValidRun(s, run)
    requires forall k :: 0 <= k < |run| ==> !(run[k].Finish? && run[k].outcome == Forever)
    ensures Covered(After(s, run))
  {
    NoJobLostIffCleanExits(s, run);
    assert forall k: nat :: k < |run| ==> CleanAt(s, run, k);
    assert run[..|run|] == run;
    assert Covered(At(s, run, |run|));
  }

  // ----- What it all means at rest -----

  predicate AtRest(s: State) {
    && (forall e :: 0 <= e < |s.enqueuers| ==> s.enqueuers[e] == Idle)
    && (forall w :: 0 <= w < |s.workers| ==> s.workers[w] == Asleep)
  }

  /** When every worker sleeps and no enqueue call is under way, no main task is waiting to run; and
      if every exit was clean, no task is. */
  lemma AtRestNothingWaits(s: State, run: seq<Action>, b: nat)
    requires Initial(s) && Fits(s) && ValidRun(s, run) && b < |s.slots|
    requires AtRest(After(s, run))
    ensures var slot := After(s, run).slots[b];
            !slot.enqueued && !slot.inProgress && 0 !in slot.jobs
    ensures (forall k: nat :: k < |run| ==> CleanAt(s, run, k)) ==> After(s, run).slots[b].jobs == {}
  {
    RunsKeepInvariant(s, run);
    var t := After(s, run);
    TotalZero(SearchWeight, t.workers);
    TotalZero(WakingWeight, t.enqueuers);
    TotalZero(AvailableWeight, t.slots);
    assert t.workers[0] == Asleep;
    assert AvailableWeight(t.slots[b]) == 0;
    assert MainCoveredAt(t, b);
    if forall k: nat :: k < |run| ==> CleanAt(s, run, k) {
      CoveredWhileClean(s, run, |run|);
      assert run[..|run|] == run;
      assert CoveredAt(t, b);
    }
  }

  /** A step that some thread of the runtime takes on its own: no new wake, no spurious wake-up. */
  predicate OwnStep(a: Action) {
    !a.Post? && !a.Spurious?
  }

  /** The step a call under way, or an awake worker whose polls end as given, takes next. */
  function NextOfEnqueuer(s: State, e: nat): Action
    requires e < |s.enqueuers|
  {
    match s.enqueuers[e]
    case Counting(_, _) => Count(e)
    case Marking(_, _) => Mark(e)
    case Waking(_) => Notify(e, 0)
    case _ => Revert(e)
  }

  function NextOfWorker(s: State, w: nat, outcome: Outcome): Action
    requires w < |s.workers|
  {
    match s.workers[w]
    case Scanning(_) => TryProcess(w)
    case Taken(_) => Uncount(w)
    case Draining(_) => Load(w)
    case Clearing(_, _) => Clear(w)
    case Polling(_, _) => Finish(w, outcome)
    case Releasing(_, _) => ClearEnqueued(w)
    case Dropping(_, _) => ClearInProgress(w)
    case _ => Check(w)
  }

  lemma AwakeWorkerCanMove(t: State, w: nat, outcome: Outcome)
    requires Ownership(t) && Conserved(t) && w < |t.workers| && t.workers[w] != Asleep
    ensures Enabled(t, NextOfWorker(t, w, outcome)) && OwnStep(NextOfWorker(t, w, outcome))
  {
    assert HolderOk(t, t.workers[w]);
  }

  lemma EnqueuerCanMove(t: State, e: nat)
    requires Ownership(t) && Conserved(t) && e < |t.enqueuers| && t.enqueuers[e] != Idle
    requires t.enqueuers[e].Waking? ==> NoneAsleep(t) || (|t.workers| > 0 && t.workers[0] == Asleep)
    ensures Enabled(t, NextOfEnqueuer(t, e)) && OwnStep(NextOfEnqueuer(t, e))
  {
    assert EnqueuerOk(t, t.enqueuers[e]);
  }

  /** As long as a main task waits to run and every poll returns, some thread can take a step of its own:
      the queue itself never deadlocks on a wake. */
  lemma NeverStuckOnMainWake(s: State, run: seq<Action>, b: nat)
    requires Initial(s) && Fits(s) && ValidRun(s, run) && b < |s.slots|
    requires 0 in After(s, run).slots[b].jobs
    ensures exists a :: OwnStep(a) && Enabled(After(s, run), a)
  {
    RunsKeepInvariant(s, run);
    var t := After(s, run);
    if w :| 0 <= w < |t.workers| && t.workers[w] != Asleep {
      AwakeWorkerCanMove(t, w, Continue);
    } else {
      if AtRest(t) {
        AtRestNothingWaits(s, run, b);
        assert false;
      }
      var e :| 0 <= e < |t.enqueuers| && t.enqueuers[e] != Idle;
      assert t.workers[0] == Asleep;
      EnqueuerCanMove(t, e);
    }
  }

  // ----- The mask as a set of wakes -----

  /** The worker's load and clear act as one removal: the loaded offset is still there, and clearing
      removes it and nothing else. */
  lemma ClearRemovesOneWake(s: State, run: seq<Action>, w: nat)
    requires Initial(s) && Fits(s) && ValidRun(s, run)
    requires w < |s.workers| && After(s, run).workers[w].Clearing?
    ensures var t := After(s, run);
            var Clearing(b, o) := t.workers[w];
            && Enabled(t, Clear(w)) && o in t.slots[b].jobs
            && Do(t, Clear(w)).workers[w] == Polling(b, o)
            && (forall c :: 0 <= c < |t.slots| ==>
                  Do(t, Clear(w)).slots[c].jobs == t.slots[c].jobs - (if c == b then {o} else {}))
  {
    RunsKeepInvariant(s, run);
    assert HolderOk(After(s, run), After(s, run).workers[w]);
  }

  /** Some worker takes offset o of bucket b off the mask and goes on to poll it at step k. */
  ghost predicate PolledAt(s: State, run: seq<Action>, k: nat, b: nat, o: nat)
    requires ValidRun(s, run) && k < |run|
  {
    var u := At(s, run, k);
    run[k].Clear? && run[k].w < |u.workers| && u.workers[run[k].w] == Clearing(b, o)
  }

  /** A wake, coalesced or not, is gone from the mask only once its offset has been polled since. */
  lemma {:induction false} WakesArePolled(s: State, run: seq<Action>, i: nat, j: nat)
    requires ValidRun(s, run) && i < j <= |run| && run[i].Post? && run[i].b < |s.slots|
    requires run[i].o !in At(s, run, j).slots[run[i].b].jobs
    ensures exists k: nat :: i < k < j && PolledAt(s, run, k, run[i].b, run[i].o)
  {
    var b, o := run[i].b, run[i].o;
    AtNext(s, run, j - 1);
    var u := At(s, run, j - 1);
    if j == i + 1 {
      assert false;
    } else if o in u.slots[b].jobs {
      OnlyClearRemoves(u, run[j - 1], b, o);
      assert PolledAt(s, run, j - 1, b, o);
    } else {
      WakesArePolled(s, run, i, j - 1);
    }
  }

  lemma OnlyClearRemoves(s: State, a: Action, b: nat, o: nat)
    requires Enabled(s, a) && b < |s.slots|
    requires o in s.slots[b].jobs && o !in Do(s, a).slots[b].jobs
    ensures a.Clear? && s.workers[a.w] == Clearing(b, o)
  {
  }

  // ----- What an unclean exit does -----

  /** A bucket with jobs that no flag, owner or enqueuer accounts for. */
  ghost predicate Stranded(s: State, b: nat)
    requires b < |s.slots|
  {
    && s.slots[b].jobs != {} && !s.slots[b].enqueued && !s.slots[b].inProgress
    && !SomePending(s, b)
    && (forall w :: 0 <= w < |s.workers| ==> !Owns(s.workers[w], b))
  }

  /** A stranded bucket ignores every wake for the offsets it already holds: its jobs stay put until
      a different offset is woken. */
  lemma {:induction false} StrandedUntilOtherWake(s: State, run: seq<Action>, b: nat)
    requires b < |s.slots| && Stranded(s, b) && ValidRun(s, run)
    requires forall k :: 0 <= k < |run| && run[k].Post? && run[k].b == b ==> run[k].o in s.slots[b].jobs
    ensures Stranded(After(s, run), b) && After(s, run).slots[b] == s.slots[b]
  {
    if |run| > 0 {
      var before, a := run[..|run| - 1], run[|run| - 1];
      StrandedUntilOtherWake(s, before, b);
      StrandedStep(After(s, before), a, b);
    }
  }

  lemma StrandedStep(s: State, a: Action, b: nat)
    requires b < |s.slots| && Stranded(s, b) && Enabled(s, a)
    requires a.Post? && a.b == b ==> a.o in s.slots[b].jobs
    ensures Stranded(Do(s, a), b) && Do(s, a).slots[b] == s.slots[b]
  {
    var t := Do(s, a);
    if ByEnqueuer(a) {
      assert !PendingOn(s.enqueuers[a.e], b);
      assert !PendingOn(t.enqueuers[a.e], b);
    } else {
      assert !Owns(s.workers[a.w], b);
      assert !Owns(t.workers[a.w], b);
    }
    forall e | 0 <= e < |t.enqueuers| ensures !PendingOn(t.enqueuers[e], b) {
      assert !PendingOn(s.enqueuers[e], b);
    }
  }

  lemma Extend(s: State, run: seq<Action>, a: Action) returns (longer: seq<Action>)
    requires ValidRun(s, run) && Enabled(After(s, run), a)
    ensures longer == run + [a] && ValidRun(s, longer) && After(s, longer) == Do(After(s, run), a)
  {
    longer := run + [a];
    assert longer[..|longer| - 1] == run;
  }
}

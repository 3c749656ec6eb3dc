/** From every reachable state the runtime can serve what has been woken and go back to sleep,
    however the application's polls end. */
module QueueWindDown {
  import opened BucketQueue
  import opened Counting
  import opened QueueInvariants
  import opened QueueTheorems
  import opened QueueProgress

  /** A scan that stands at slot i has an available bucket ahead of it. */
  predicate Ahead(slots: seq<Slot>, i: nat) {
    exists k :: i <= k < |slots| && Available(slots[k])
  }

  /** How many unproductive steps a worker can take before it sleeps or takes a bucket. */
  function SearchRank(slots: seq<Slot>, pc: Worker): nat {
    match pc
    case Waiting => if Ahead(slots, 0) then |slots| + 2 else 1
    case Scanning(i) =>
      if Ahead(slots, i) then |slots| + 1 - i
      else (if i < |slots| then |slots| - i else 0) + |slots| + 3
    case _ => 0
  }

  function RankOf(slots: seq<Slot>): Worker -> nat {
    pc => SearchRank(slots, pc)
  }

  function Rank(s: State): nat {
    Total(RankOf(s.slots), s.workers)
  }

  /** With every call done and no bucket just taken, the counter is right about whether a bucket is
      available. */
  lemma CounterIsTruthful(s: State)
    requires Conserved(s)
    requires forall e :: 0 <= e < |s.enqueuers| ==> s.enqueuers[e] == Idle
    requires forall w :: 0 <= w < |s.workers| ==> !s.workers[w].Taken?
    ensures s.available > 0 <==> Ahead(s.slots, 0)
  {
    TotalZero(OwedWeight, s.enqueuers);
    TotalZero(TakenWeight, s.workers);
    TotalZero(AvailableWeight, s.slots);
  }

  lemma SearchStep(s: State, w: nat)
    requires Invariant(s) && w < |s.workers| && (s.workers[w].Waiting? || s.workers[w].Scanning?)
    requires s.available > 0 <==> Ahead(s.slots, 0)
    ensures var a := NextOfWorker(s, w, Continue);
            Enabled(s, a) && OwnStep(a)
            && (Productive(s, a) || (Work(Do(s, a)) == Work(s) && Rank(Do(s, a)) < Rank(s)))
  {
    var a := NextOfWorker(s, w, Continue);
    if !Productive(s, a) {
      var t := Do(s, a);
      WorkerWorks(s, a);
      TotalUpdate(RankOf(s.slots), s.workers, w, t.workers[w]);
      assert t.slots == s.slots;
      if s.workers[w].Scanning? { ScanMoves(s, w); }
    }
  }

  lemma ScanMoves(s: State, w: nat)
    requires w < |s.workers| && s.workers[w].Scanning? && !Productive(s, TryProcess(w))
    ensures SearchRank(s.slots, Do(s, TryProcess(w)).workers[w]) < SearchRank(s.slots, s.workers[w])
  {
    var i := s.workers[w].i;
    if Ahead(s.slots, i) {
      var k :| i <= k < |s.slots| && Available(s.slots[k]);
      assert i + 1 <= k;
      assert Ahead(s.slots, i + 1);
    }
  }

  /** How the application's polls end: any function of the state and the worker. */
  type Application = (State, nat) -> Outcome

  predicate Obeys(s: State, a: Action, f: Application) {
    OwnStep(a) && (a.Finish? ==> a.outcome == f(s, a.w))
  }

  predicate Closer(s: State, a: Action, f: Application) {
    && Enabled(s, a) && Obeys(s, a, f)
    && (Work(Do(s, a)) < Work(s) || (Work(Do(s, a)) == Work(s) && Rank(Do(s, a)) < Rank(s)))
  }

  lemma FinishCall(s: State, e: nat, f: Application) returns (a: Action)
    requires Invariant(s) && e < |s.enqueuers| && s.enqueuers[e] != Idle
    ensures Closer(s, a, f) && !a.Finish? && Work(Do(s, a)) < Work(s)
  {
    assert EnqueuerOk(s, s.enqueuers[e]);
    if s.enqueuers[e].Waking? && !NoneAsleep(s) {
      var w :| 0 <= w < |s.workers| && s.workers[w] == Asleep;
      a := Notify(e, w);
    } else {
      a := NextOfEnqueuer(s, e);
    }
    EnqueuerWorks(s, a);
  }

  lemma WorkOnBucket(s: State, w: nat, f: Application) returns (a: Action)
    requires Invariant(s) && w < |s.workers| && Holds(s.workers[w])
    ensures Closer(s, a, f) && (a.Finish? ==> s.workers[w].Polling?)
  {
    AwakeWorkerCanMove(s, w, f(s, w));
    a := NextOfWorker(s, w, f(s, w));
    WorkerWorks(s, a);
  }

  /** Unless everything is at rest, some step of the runtime's own brings it closer. */
  lemma CloserToRest(s: State, f: Application) returns (a: Action)
    requires Invariant(s) && Fits(s) && |s.workers| >= 1 && !AtRest(s)
    ensures Closer(s, a, f)
  {
    if e :| 0 <= e < |s.enqueuers| && s.enqueuers[e] != Idle {
      a := FinishCall(s, e, f);
    } else if w :| 0 <= w < |s.workers| && Holds(s.workers[w]) {
      a := WorkOnBucket(s, w, f);
    } else {
      var w :| 0 <= w < |s.workers| && s.workers[w] != Asleep;
      assert HolderOk(s, s.workers[w]);
      CounterIsTruthful(s);
      SearchStep(s, w);
      a := NextOfWorker(s, w, Continue);
      WorkerWorks(s, a);
    }
  }

  lemma {:induction false} Prepend(s: State, a: Action, run: seq<Action>)
    requires Enabled(s, a) && ValidRun(Do(s, a), run)
    ensures ValidRun(s, [a] + run) && After(s, [a] + run) == After(Do(s, a), run)
  {
    if |run| == 0 {
      AppendStep(s, [], a);
      assert [a] + run == [] + [a];
    } else {
      var before, last := run[..|run| - 1], run[|run| - 1];
      Prepend(s, a, before);
      AppendStep(s, [a] + before, last);
      assert [a] + run == [a] + before + [last];
    }
  }

  /** A run of the runtime's own steps in which every poll ends as the application says. */
  ghost predicate OwnRun(s: State, run: seq<Action>, f: Application)
    requires ValidRun(s, run)
    decreases |run|
  {
    |run| == 0 || (OwnRun(s, run[..|run| - 1], f) && Obeys(After(s, run[..|run| - 1]), run[|run| - 1], f))
  }

  lemma {:induction false} PrependOwn(s: State, a: Action, run: seq<Action>, f: Application)
    requires Enabled(s, a) && ValidRun(Do(s, a), run) && Obeys(s, a, f) && OwnRun(Do(s, a), run, f)
    ensures ValidRun(s, [a] + run) && OwnRun(s, [a] + run, f)
    decreases |run|
  {
    Prepend(s, a, run);
    var whole := [a] + run;
    if |run| == 0 {
      assert whole[..0] == [] && whole[0] == a;
    } else {
      var before := run[..|run| - 1];
      Prepend(s, a, before);
      PrependOwn(s, a, before, f);
      assert whole[..|whole| - 1] == [a] + before && whole[|whole| - 1] == run[|run| - 1];
    }
  }

  /** From every state that satisfies the invariant, and whatever the application's polls answer as long
      as they return, there is a continuation without new wakes to a state where every worker sleeps. */
  lemma {:induction false} CanWindDown(s: State, f: Application) returns (run: seq<Action>)
    requires Invariant(s) && Fits(s) && |s.workers| >= 1
    ensures ValidRun(s, run) && OwnRun(s, run, f) && AtRest(After(s, run))
    decreases Work(s), Rank(s)
  {
    if AtRest(s) {
      run := [];
    } else {
      var a := CloserToRest(s, f);
      InvariantStep(s, a);
      var rest := CanWindDown(Do(s, a), f);
      Prepend(s, a, rest);
      PrependOwn(s, a, rest, f);
      run := [a] + rest;
    }
  }

  /** A run followed by a continuation of its end is a run. */
  lemma {:induction false} Concat(s: State, run: seq<Action>, more: seq<Action>)
    requires ValidRun(s, run) && ValidRun(After(s, run), more)
    ensures ValidRun(s, run + more) && After(s, run + more) == After(After(s, run), more)
  {
    if |more| == 0 {
      assert run + more == run;
    } else {
      var before, a := more[..|more| - 1], more[|more| - 1];
      assert run + more == run + before + [a];
      Concat(s, run, before);
      AppendStep(s, run + before, a);
    }
  }

  lemma AppendStep(s: State, run: seq<Action>, a: Action)
    requires ValidRun(s, run) && Enabled(After(s, run), a)
    ensures ValidRun(s, run + [a]) && After(s, run + [a]) == Do(After(s, run), a)
  {
    var longer := Extend(s, run, a);
  }

  /** No wake of a main task is ever beyond rescue: every run in which one was posted can be continued,
      by steps of the runtime alone and however the application's polls return, until that task has been
      polled after the wake. */
  lemma MainWakeCanBeServed(s: State, run: seq<Action>, i: nat, f: Application) returns (more: seq<Action>)
    requires Initial(s) && Fits(s) && ValidRun(s, run)
    requires i < |run| && run[i].Post? && run[i].o == 0 && run[i].b < |s.slots|
    ensures ValidRun(s, run + more) && ValidRun(After(s, run), more) && OwnRun(After(s, run), more, f)
    ensures exists k: nat :: i < k < |run + more| && PolledAt(s, run + more, k, run[i].b, 0)
  {
    RunsKeepInvariant(s, run);
    more := CanWindDown(After(s, run), f);
    Concat(s, run, more);
    var whole := run + more;
    AtRestNothingWaits(s, whole, run[i].b);
    assert whole[..|whole|] == whole && whole[i] == run[i];
    WakesArePolled(s, whole, i, |whole|);
  }
}

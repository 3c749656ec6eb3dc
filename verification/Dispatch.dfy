/** From a wake to the task it polls, across the queue and the index arithmetic. */
module Dispatch {
  import opened BucketQueue
  import opened QueueInvariants
  import opened QueueTheorems
  import opened Index
  import opened Options
  import opened Words

  /** The tasks of a runtime with n buckets. */
  predicate IsTask(r: IoResources, n: nat, io: IoIndex) {
    match io
    case InputStream(b) => b.index < n
    case HttpConnection(c) => c.index < n * r.httpConnections
  }

  /** The queue index under which a task is enqueued and under which its waker is made. */
  function QueueIndexOf(r: IoResources, io: IoIndex): Option<QueueIndex> {
    match io
    case InputStream(b) => FromBucketIndex(r, b)
    case HttpConnection(c) => FromConnectionIndex(r, c)
  }

  /** `initial_enqueue` turns a queue index into the bucket and offset it posts. */
  predicate Posts(r: IoResources, a: Action, q: QueueIndex) {
    && a.Post? && r.PerBucket() > 0
    && ToBucketIndex(q, r).Some?
    && a.b == ToBucketIndex(q, r).value.index
    && a.o == Remainder(q.index, r.PerBucket())
  }

  /** The first enqueue of a task: by the accept loop, or at the end of a handshake. */
  predicate Wakes(r: IoResources, a: Action, io: IoIndex) {
    QueueIndexOf(r, io).Some? && Posts(r, a, QueueIndexOf(r, io).value)
  }

  ghost predicate WakesSomeTask(r: IoResources, n: nat, a: Action) {
    exists io :: IsTask(r, n, io) && Wakes(r, a, io)
  }

  /** The word in the waker that a worker hands to the task it polls. */
  function WakerWord(r: IoResources, b: nat, o: nat): nat {
    ToUsize(QueueIndexAt(r, b, o))
  }

  /** A waker fires at step k of a run: some worker made it for its poll at an earlier step. */
  ghost predicate WakerFires(r: IoResources, s: State, run: seq<Action>, k: nat)
    requires ValidRun(s, run) && k < |run|
  {
    exists j: nat, w: nat ::
      && j <= k && w < |s.workers| && PolledBy(s, run, j, w)
      && var Polling(b, o) := At(s, run, j).workers[w];
         Posts(r, run[k], FromUsize(WakerWord(r, b, o)))
  }

  ghost predicate PolledBy(s: State, run: seq<Action>, j: nat, w: nat)
    requires ValidRun(s, run) && j <= |run| && w < |s.workers|
  {
    At(s, run, j).workers[w].Polling?
  }

  /** Every post of a run is the first enqueue of a task or the firing of a waker. */
  ghost predicate PostsAreSourced(r: IoResources, s: State, run: seq<Action>)
    requires ValidRun(s, run)
  {
    forall k: nat :: k < |run| && run[k].Post? ==> WakesSomeTask(r, |s.slots|, run[k]) || WakerFires(r, s, run, k)
  }

  /** The index a worker computes carries no identifier. */
  function Anonymous(io: IoIndex): IoIndex {
    match io
    case InputStream(b) => InputStream(b.(identifier := 0))
    case HttpConnection(c) => HttpConnection(c.(identifier := 0))
  }

  ghost predicate Posted(run: seq<Action>, b: nat, o: nat) {
    exists k :: 0 <= k < |run| && run[k].Post? && run[k].b == b && run[k].o == o
  }

  ghost predicate HasOffset(pc: Worker, b: nat, o: nat) {
    pc == Clearing(b, o) || pc == Polling(b, o)
  }

  /** Whatever sits in a mask or in a worker's hands was posted earlier in the run. */
  lemma {:induction false} OnlyPostedWork(s: State, run: seq<Action>, b: nat, o: nat)
    requires Initial(s) && ValidRun(s, run) && b < |s.slots|
    requires || o in After(s, run).slots[b].jobs
             || exists w :: 0 <= w < |s.workers| && HasOffset(After(s, run).workers[w], b, o)
    ensures Posted(run, b, o)
  {
    if |run| > 0 {
      var before, a := run[..|run| - 1], run[|run| - 1];
      if a.Post? && a.b == b && a.o == o {
      } else {
        WorkComesFrom(After(s, before), a, b, o);
        OnlyPostedWork(s, before, b, o);
        var k :| 0 <= k < |before| && before[k].Post? && before[k].b == b && before[k].o == o;
        assert run[k] == before[k];
      }
    }
  }

  lemma WorkComesFrom(s: State, a: Action, b: nat, o: nat)
    requires Enabled(s, a) && b < |s.slots| && !(a.Post? && a.b == b && a.o == o)
    requires || o in Do(s, a).slots[b].jobs
             || exists w :: 0 <= w < |s.workers| && HasOffset(Do(s, a).workers[w], b, o)
    ensures || o in s.slots[b].jobs
            || exists w :: 0 <= w < |s.workers| && HasOffset(s.workers[w], b, o)
  {
    if o !in s.slots[b].jobs {
      assert o !in Do(s, a).slots[b].jobs;
      var w :| 0 <= w < |s.workers| && HasOffset(Do(s, a).workers[w], b, o);
      assert HasOffset(s.workers[w], b, o);
    }
  }

  /** A woken task's bucket and offset identify it: dispatch on them gives the task back. */
  lemma WakeIsInvertible(r: IoResources, n: nat, a: Action, io: IoIndex)
    requires r.Supported() && n <= MAX_BUCKETS && IsTask(r, n, io) && Wakes(r, a, io)
    ensures a.b < n && a.o < r.PerBucket() && (a.o == 0 || r.tcpStreams <= a.o)
    ensures FromIndex(r, QueueIndexAt(r, a.b, a.o)) == Some(Anonymous(io))
  {
    var q := QueueIndexOf(r, io).value;
    JoinIndex(q.index, r.PerBucket());
    assert QueueIndexAt(r, a.b, a.o) == q.(identifier := 0);
    match io
    case InputStream(b) =>
      BucketRoundTrip(r, b);
      BucketRoundTrip(r, b.(identifier := 0));
    case HttpConnection(c) =>
      ConnectionOwner(r, n, c.index);
      ConnectionRoundTrip(r, c);
      ConnectionRoundTrip(r, c.(identifier := 0));
  }

  lemma ConnectionOwner(r: IoResources, n: nat, c: nat)
    requires c < n * r.httpConnections
    ensures r.httpConnections >= 1 && Quotient(c, r.httpConnections) < n
  {
    var h := r.httpConnections;
    if h == 0 || Quotient(c, h) >= n {
      if h > 0 {
        JoinIndex(c, h);
        ProductMonotone(n, Quotient(c, h), h);
      }
      assert false;
    }
  }

  /** A waker made for a task's offset carries that task's index through its word. */
  lemma WakerKeepsTask(r: IoResources, n: nat, a: Action, b: nat, o: nat, first: Action)
    requires r.Supported() && n <= MAX_BUCKETS && WakesSomeTask(r, n, first) && first.b == b && first.o == o
    requires Posts(r, a, FromUsize(WakerWord(r, b, o)))
    ensures WakesSomeTask(r, n, a) && a.b == b && a.o == o
  {
    var io :| IsTask(r, n, io) && Wakes(r, first, io);
    WakeIsInvertible(r, n, first, io);
    ProductLimit(b, r.PerBucket(), o);
    LimitOfFour();
    TokenRoundTrip(QueueIndexAt(r, b, o), 0);
    SplitIndex(b, r.PerBucket(), o);
    assert Wakes(r, a, io);
  }

  lemma LimitOfFour()
    ensures Limit(4) == U32_LIMIT && Limit(8) > 0
  {
    assert Limit(2) == 0x1_0000;
  }

  /** By induction over the run: wakers only ever repeat what was first enqueued, so every post of the
      run carries the index of a task. */
  lemma {:induction false} EveryPostWakesATask(r: IoResources, s: State, run: seq<Action>, k: nat)
    requires r.Supported() && |s.slots| <= MAX_BUCKETS
    requires Initial(s) && Fits(s) && ValidRun(s, run) && PostsAreSourced(r, s, run)
    requires k < |run| && run[k].Post?
    ensures WakesSomeTask(r, |s.slots|, run[k])
    decreases k
  {
    if !WakesSomeTask(r, |s.slots|, run[k]) {
      var j: nat, w: nat :|
        && j <= k && w < |s.workers| && PolledBy(s, run, j, w)
        && var Polling(b, o) := At(s, run, j).workers[w];
           Posts(r, run[k], FromUsize(WakerWord(r, b, o)));
      var Polling(b, o) := At(s, run, j).workers[w];
      var i := FirstPost(s, run, j, w);
      EveryPostWakesATask(r, s, run, i);
      WakerKeepsTask(r, |s.slots|, run[k], b, o, run[i]);
    }
  }

  /** What a worker polls was posted before. */
  lemma FirstPost(s: State, run: seq<Action>, j: nat, w: nat) returns (i: nat)
    requires Initial(s) && Fits(s) && ValidRun(s, run) && j <= |run|
    requires w < |s.workers| && PolledBy(s, run, j, w)
    ensures i < j && run[i].Post? && At(s, run, j).workers[w] == Polling(run[i].b, run[i].o)
  {
    var before := run[..j];
    PrefixesAreValid(s, run, j);
    var t := After(s, before);
    var Polling(b, o) := t.workers[w];
    RunsKeepInvariant(s, before);
    assert HolderOk(t, t.workers[w]) && HasOffset(t.workers[w], b, o);
    OnlyPostedWork(s, before, b, o);
    i :| 0 <= i < |before| && before[i].Post? && before[i].b == b && before[i].o == o;
  }

  /** Every job bit in every mask of every state is offset 0 or in the connections' range. */
  lemma MasksHoldTasks(r: IoResources, s: State, run: seq<Action>, b: nat, o: nat)
    requires r.Supported() && |s.slots| <= MAX_BUCKETS
    requires Initial(s) && Fits(s) && ValidRun(s, run) && PostsAreSourced(r, s, run)
    requires b < |s.slots| && o in After(s, run).slots[b].jobs
    ensures o == 0 || r.tcpStreams <= o < r.PerBucket()
    ensures FromIndex(r, QueueIndexAt(r, b, o)).Some?
  {
    OnlyPostedWork(s, run, b, o);
    var k :| 0 <= k < |run| && run[k].Post? && run[k].b == b && run[k].o == o;
    EveryPostWakesATask(r, s, run, k);
    var io :| IsTask(r, |s.slots|, io) && Wakes(r, run[k], io);
    WakeIsInvertible(r, |s.slots|, run[k], io);
  }

  /** Whenever a worker polls an offset, dispatch succeeds and selects a task that was enqueued or woken
      earlier in the run; the unimplemented and unreachable branches are never taken. */
  lemma PolledTaskWasWoken(r: IoResources, s: State, run: seq<Action>, w: nat)
    requires r.Supported() && |s.slots| <= MAX_BUCKETS
    requires Initial(s) && Fits(s) && ValidRun(s, run) && PostsAreSourced(r, s, run)
    requires w < |s.workers| && After(s, run).workers[w].Polling?
    ensures var Polling(b, o) := After(s, run).workers[w];
            exists io, k :: && 0 <= k < |run| && IsTask(r, |s.slots|, io) && Wakes(r, run[k], io)
                            && FromIndex(r, QueueIndexAt(r, b, o)) == Some(Anonymous(io))
  {
    assert run[..|run|] == run;
    assert PolledBy(s, run, |run|, w);
    var k := FirstPost(s, run, |run|, w);
    EveryPostWakesATask(r, s, run, k);
    var io :| IsTask(r, |s.slots|, io) && Wakes(r, run[k], io);
    WakeIsInvertible(r, |s.slots|, run[k], io);
  }
}

/** The life of a bucket: claimed by the accept loop, given a future, polled by one worker at a time,
    joined by outgoing connections, completed or cleaned up, and claimed again.  A reference count
    decides when the bucket's memory is reset. */
module Lifecycle {
  import opened Counting

  datatype Connection = Empty | Reserved | Occupied

  /** What the worker that owns a bucket is doing in it. */
  datatype Poll =
    | Resting
    | PollingMain
    | Counted                 // polling the main future, inside a handshake that has counted itself
    | PollingConnection(c: nat)
    | Completing              // the task's future is dropped; about to lock the reference count
    | Cleaning(stage: nat)    // empty connections, take future, clear memory, reset count
    | Stuck                   // the worker panicked on a reserved connection

  datatype Bucket = Bucket(refcount: nat, future: bool, connections: seq<Connection>, remaining: nat, poll: Poll)

  /** The accept loop between `try_claim` and `set`; `SetFailed` is its assertion failing. */
  datatype Main = Accepting | Claimed(b: nat) | SetFailed

  datatype State = State(size: nat, buckets: seq<Bucket>, main: Main)

  datatype Action =
    | Claim(b: nat)
    | SetFuture
    | PollMain(b: nat)
    | PollMissing(b: nat)     // offset 0 dequeued with no future: a panic, then cleanup
    | PollOccupied(b: nat, c: nat)
    | PollLate(b: nat, c: nat)      // a wake for a connection that is already done
    | PollReserved(b: nat, c: nat)
    | Allocate(b: nat, bytes: nat)
    | CountHandshake(b: nat)
    | Reserve(b: nat, c: nat)
    | NoFreeConnection(b: nat)
    | Occupy(b: nat, c: nat)
    | Pending(b: nat)
    | Finished(b: nat)
    | Fail(b: nat)            // out of memory or panic
    | Complete(b: nat)
    | CleanStep(b: nat)

  predicate Initial(s: State) {
    && s.main == Accepting
    && forall b :: 0 <= b < |s.buckets| ==>
         var k := s.buckets[b];
         && k.refcount == 0 && !k.future && k.remaining == s.size && k.poll == Resting
         && AllEmpty(k)
  }

  predicate AllEmpty(k: Bucket) {
    forall c :: 0 <= c < |k.connections| ==> k.connections[c] == Empty
  }

  predicate NoneEmpty(k: Bucket) {
    forall c :: 0 <= c < |k.connections| ==> k.connections[c] != Empty
  }

  predicate InMain(p: Poll) {
    p == PollingMain || p == Counted
  }

  predicate OnBucket(a: Action) {
    !a.SetFuture?
  }

  predicate BucketReady(k: Bucket, a: Action)
    requires OnBucket(a)
  {
    match a
    case Claim(_) => k.refcount == 0
    case PollMain(_) => k.poll == Resting && k.future
    case PollMissing(_) => k.poll == Resting && !k.future
    case PollOccupied(_, c) => k.poll == Resting && c < |k.connections| && k.connections[c] == Occupied
    case PollLate(_, c) => k.poll == Resting && c < |k.connections| && k.connections[c] == Empty
    case PollReserved(_, c) => k.poll == Resting && c < |k.connections| && k.connections[c] == Reserved
    case Allocate(_, bytes) => (InMain(k.poll) || k.poll.PollingConnection?) && bytes <= k.remaining
    case CountHandshake(_) => k.poll == PollingMain
    case Reserve(_, c) => k.poll == Counted && c < |k.connections| && k.connections[c] == Empty
    case NoFreeConnection(_) => k.poll == Counted && NoneEmpty(k)
    case Occupy(_, c) => k.poll == PollingMain && c < |k.connections| && k.connections[c] == Reserved
    case Pending(_) => k.poll == PollingMain || k.poll.PollingConnection?
    case Finished(_) => k.poll == PollingMain || (k.poll.PollingConnection? && k.poll.c < |k.connections|)
    case Fail(_) => InMain(k.poll) || k.poll.PollingConnection?
    case Complete(_) => k.poll == Completing
    case CleanStep(_) => k.poll.Cleaning?
  }

  predicate Enabled(s: State, a: Action) {
    if a.SetFuture? then s.main.Claimed? && s.main.b < |s.buckets|
    else a.b < |s.buckets| && BucketReady(s.buckets[a.b], a) && (a.Claim? ==> s.main == Accepting)
  }

  function DoBucket(size: nat, k: Bucket, a: Action): Bucket
    requires OnBucket(a) && BucketReady(k, a)
  {
    match a
    case Claim(_) => k.(refcount := 1)
    case PollMain(_) => k.(poll := PollingMain)
    case PollMissing(_) => k.(poll := Cleaning(0))
    case PollOccupied(_, c) => k.(poll := PollingConnection(c))
    case PollLate(_, c) => k
    case PollReserved(_, c) => k.(poll := Stuck)
    case Allocate(_, bytes) => k.(remaining := k.remaining - bytes)
    case CountHandshake(_) =>
      k.(refcount := if k.refcount == 0 then 0 else k.refcount + 1, poll := Counted)
    case Reserve(_, c) => k.(connections := k.connections[c := Reserved], poll := PollingMain)
    case NoFreeConnection(_) => k.(poll := Cleaning(0))
    case Occupy(_, c) => k.(connections := k.connections[c := Occupied])
    case Pending(_) => k.(poll := Resting)
    case Finished(_) =>
      if k.poll == PollingMain then k.(future := false, poll := Completing)
      else k.(connections := k.connections[k.poll.c := Empty], poll := Completing)
    case Fail(_) => k.(poll := Cleaning(0))
    case Complete(_) =>
      if k.refcount == 1 then k.(remaining := size, refcount := 0, poll := Resting)
      else if k.refcount == 0 then k.(poll := Stuck)   // the subtraction would underflow
      else k.(refcount := k.refcount - 1, poll := Resting)
    case CleanStep(_) =>
      match k.poll.stage {
        case 0 => k.(connections := seq(|k.connections|, c => Empty), poll := Cleaning(1))
        case 1 => k.(future := false, poll := Cleaning(2))
        case 2 => k.(remaining := size, poll := Cleaning(3))
        case _ => k.(refcount := 0, poll := Resting)
      }
  }

  function Do(s: State, a: Action): (t: State)
    requires Enabled(s, a)
    ensures |t.buckets| == |s.buckets| && t.size == s.size
  {
    if a.SetFuture? then
      var b := s.main.b;
      s.(buckets := s.buckets[b := s.buckets[b].(future := true)],
         main := if s.buckets[b].future then SetFailed else Accepting)
    else
      s.(buckets := s.buckets[a.b := DoBucket(s.size, s.buckets[a.b], a)],
         main := if a.Claim? then Claimed(a.b) else s.main)
  }

  predicate ValidRun(s: State, run: seq<Action>)
    decreases |run|, 0
  {
    |run| == 0 ||
    (ValidRun(s, run[..|run| - 1]) && Enabled(After(s, run[..|run| - 1]), run[|run| - 1]))
  }

  function After(s: State, run: seq<Action>): (t: State)
    requires ValidRun(s, run)
    ensures |t.buckets| == |s.buckets| && t.size == s.size
    decreases |run|, 1
  {
    if |run| == 0 then s else Do(After(s, run[..|run| - 1]), run[|run| - 1])
  }

  // ----- Accounting -----

  function ConnectionWeight(c: Connection): nat { if c == Empty then 0 else 1 }
  function One(p: bool): nat { if p then 1 else 0 }

  /** The live tasks of a bucket: its claimed or live main task, its reserved and occupied
      connections, and a task between dropping its future and giving up its count, or between
      taking its count and reserving its connection. */
  function Live(k: Bucket, claimed: bool): nat {
    One(claimed) + One(k.future) + Total(ConnectionWeight, k.connections)
    + One(k.poll == Completing) + One(k.poll == Counted)
  }

  predicate IsClaimed(s: State, b: nat) {
    s.main == Claimed(b)
  }

  /** The reference count is the number of live tasks, whenever no cleanup is under way. */
  predicate Accounted(k: Bucket, claimed: bool) {
    !k.poll.Cleaning? ==> k.refcount == Live(k, claimed)
  }

  predicate AllAccounted(s: State) {
    forall b :: 0 <= b < |s.buckets| ==> Accounted(s.buckets[b], IsClaimed(s, b))
  }

  /** A cleanup resets the count at the right moment: nobody has claimed the bucket or put a new
      future into it. */
  predicate BenignReset(s: State, a: Action) {
    a.CleanStep? && a.b < |s.buckets| && s.buckets[a.b].poll.Cleaning? && s.buckets[a.b].poll.stage >= 3
    ==> !IsClaimed(s, a.b) && !s.buckets[a.b].future
  }

  predicate BucketOk(size: nat, k: Bucket, claimed: bool) {
    && Accounted(k, claimed)
    && (k.refcount == 0 || claimed ==> k.remaining == size && !k.future && AllEmpty(k))
    && (k.refcount == 0 ==> !claimed)
    && (claimed ==> k.refcount == 1)
    && k.remaining <= size && k.refcount <= 3 + |k.connections|
    && (InMain(k.poll) ==> k.future)
    && (k.poll.PollingConnection? ==> k.poll.c < |k.connections| && k.connections[k.poll.c] == Occupied)
    && (k.poll.Cleaning? && k.poll.stage >= 1 ==> AllEmpty(k))
    && (k.poll.Cleaning? && k.poll.stage >= 3 ==> k.remaining == size)
  }

  predicate Inv(s: State) {
    && s.main != SetFailed
    && forall b :: 0 <= b < |s.buckets| ==> BucketOk(s.size, s.buckets[b], IsClaimed(s, b))
  }

  lemma EmptyHasNoWeight(k: Bucket)
    ensures AllEmpty(k) <==> Total(ConnectionWeight, k.connections) == 0
  {
    TotalZero(ConnectionWeight, k.connections);
  }

  lemma ConnectionChanges(k: Bucket, c: nat, x: Connection)
    requires c < |k.connections|
    ensures Total(ConnectionWeight, k.connections[c := x]) + ConnectionWeight(k.connections[c])
         == Total(ConnectionWeight, k.connections) + ConnectionWeight(x)
    ensures ConnectionWeight(k.connections[c]) <= Total(ConnectionWeight, k.connections)
  {
    TotalUpdate(ConnectionWeight, k.connections, c, x);
    TotalAtLeast(ConnectionWeight, k.connections, c);
  }

  /** Handshakes and completions change connections and counts together. */
  lemma ConnectionStep(size: nat, k: Bucket, a: Action, claimed: bool)
    requires BucketOk(size, k, claimed) && OnBucket(a) && BucketReady(k, a)
    requires a.PollOccupied? || a.Reserve? || a.Occupy? || a.Finished?
    ensures BucketOk(size, DoBucket(size, k, a), claimed)
  {
    var j := DoBucket(size, k, a);
    EmptyHasNoWeight(k);
    EmptyHasNoWeight(j);
    match a
    case PollOccupied(_, c) => ConnectionChanges(k, c, Occupied);
    case Reserve(_, c) => ConnectionChanges(k, c, Reserved);
    case Occupy(_, c) => ConnectionChanges(k, c, Occupied);
    case Finished(_) => if k.poll.PollingConnection? { ConnectionChanges(k, k.poll.c, Empty); }
  }

  lemma CountStep(size: nat, k: Bucket, a: Action, claimed: bool)
    requires BucketOk(size, k, claimed) && OnBucket(a) && BucketReady(k, a)
    requires a.CountHandshake? || a.Complete?
    ensures BucketOk(size, DoBucket(size, k, a), claimed)
  {
    EmptyHasNoWeight(k);
    TotalAtMost(ConnectionWeight, k.connections, 1);
  }

  /** A step of a bucket's owner keeps the bucket's books, unless it resets the count at the wrong
      moment. */
  lemma BucketStep(size: nat, k: Bucket, a: Action, claimed: bool)
    requires BucketOk(size, k, claimed) && OnBucket(a) && BucketReady(k, a) && !a.Claim?
    requires a.CleanStep? && k.poll.stage >= 3 ==> !claimed && !k.future
    ensures BucketOk(size, DoBucket(size, k, a), claimed)
  {
    if a.PollOccupied? || a.Reserve? || a.Occupy? || a.Finished? {
      ConnectionStep(size, k, a, claimed);
    } else if a.CountHandshake? || a.Complete? {
      CountStep(size, k, a, claimed);
    } else {
      EmptyHasNoWeight(k);
      EmptyHasNoWeight(DoBucket(size, k, a));
      if k.poll.PollingConnection? { ConnectionChanges(k, k.poll.c, Occupied); }
    }
  }

  lemma ClaimStep(size: nat, k: Bucket, b: nat)
    requires BucketOk(size, k, false) && k.refcount == 0
    ensures BucketOk(size, DoBucket(size, k, Claim(b)), true)
  {
    EmptyHasNoWeight(k);
  }

  lemma StepKeeps(s: State, a: Action)
    requires Inv(s) && Enabled(s, a) && BenignReset(s, a)
    ensures Inv(Do(s, a))
  {
    var t := Do(s, a);
    if a.SetFuture? {
      EmptyHasNoWeight(s.buckets[s.main.b]);
    } else if a.Claim? {
      ClaimStep(s.size, s.buckets[a.b], a.b);
    } else {
      BucketStep(s.size, s.buckets[a.b], a, IsClaimed(s, a.b));
    }
    forall b | 0 <= b < |t.buckets| ensures BucketOk(t.size, t.buckets[b], IsClaimed(t, b)) {
      assert BucketOk(s.size, s.buckets[b], IsClaimed(s, b));
    }
  }

  lemma BadResetBreaks(s: State, a: Action)
    requires Inv(s) && Enabled(s, a) && !BenignReset(s, a)
    ensures !AllAccounted(Do(s, a))
  {
    var t := Do(s, a);
    assert !Accounted(t.buckets[a.b], IsClaimed(t, a.b));
  }

  // ----- Whole runs -----

  function At(s: State, run: seq<Action>, k: nat): State
    requires ValidRun(s, run) && k <= |run|
  {
    PrefixesAreValid(s, run, k);
    After(s, run[..k])
  }

  lemma {:induction false} PrefixesAreValid(s: State, run: seq<Action>, k: nat)
    requires ValidRun(s, run) && k <= |run|
    ensures ValidRun(s, run[..k])
    ensures k < |run| ==> Enabled(After(s, run[..k]), run[k]) && run[..k + 1][..k] == run[..k]
  {
    if k == |run| {
      assert run[..k] == run;
    } else {
      var init := run[..|run| - 1];
      assert init[..k] == run[..k];
      if k < |init| {
        PrefixesAreValid(s, init, k);
      } else {
        assert run[..k] == init;
      }
    }
  }

  lemma AtNext(s: State, run: seq<Action>, k: nat)
    requires ValidRun(s, run) && k < |run|
    ensures Enabled(At(s, run, k), run[k]) && At(s, run, k + 1) == Do(At(s, run, k), run[k])
  {
    PrefixesAreValid(s, run, k);
    PrefixesAreValid(s, run, k + 1);
  }

  lemma InitialInv(s: State)
    requires Initial(s)
    ensures Inv(s)
  {
    forall b | 0 <= b < |s.buckets| ensures BucketOk(s.size, s.buckets[b], IsClaimed(s, b)) {
      EmptyHasNoWeight(s.buckets[b]);
    }
  }

  lemma {:induction false} InvWhileBenign(s: State, run: seq<Action>, k: nat)
    requires Initial(s) && ValidRun(s, run) && k <= |run|
    requires forall j: nat :: j < k ==> BenignReset(At(s, run, j), run[j])
    ensures Inv(At(s, run, k))
  {
    if k == 0 {
      InitialInv(s);
    } else {
      InvWhileBenign(s, run, k - 1);
      AtNext(s, run, k - 1);
      StepKeeps(At(s, run, k - 1), run[k - 1]);
    }
  }

  /** The reference counts are right throughout a run exactly when every cleanup in it resets its
      bucket's count at a moment when the bucket is neither claimed nor given a new future. */
  lemma AccountedIffBenign(s: State, run: seq<Action>)
    requires Initial(s) && ValidRun(s, run)
    ensures (forall k: nat :: k <= |run| ==> AllAccounted(At(s, run, k)))
       <==> (forall k: nat :: k < |run| ==> BenignReset(At(s, run, k), run[k]))
  {
    if forall k: nat :: k < |run| ==> BenignReset(At(s, run, k), run[k]) {
      forall k: nat | k <= |run| ensures AllAccounted(At(s, run, k)) {
        InvWhileBenign(s, run, k);
      }
    } else {
      var k: nat :| k < |run| && !BenignReset(At(s, run, k), run[k]);
      BadResetShows(s, run, k);
    }
  }

  lemma {:induction false} BadResetShows(s: State, run: seq<Action>, k: nat)
    requires Initial(s) && ValidRun(s, run) && k < |run| && !BenignReset(At(s, run, k), run[k])
    ensures exists j: nat :: j <= |run| && !AllAccounted(At(s, run, j))
  {
    if j: nat :| j < k && !BenignReset(At(s, run, j), run[j]) {
      BadResetShows(s, run, j);
    } else {
      InvWhileBenign(s, run, k);
      AtNext(s, run, k);
      BadResetBreaks(At(s, run, k), run[k]);
      assert !AllAccounted(At(s, run, k + 1));
    }
  }

  // ----- Runs in which offset 0 is dequeued only with a future present -----

  predicate NoRace(run: seq<Action>) {
    forall k :: 0 <= k < |run| ==> !run[k].PollMissing?
  }

  /** A cleanup that started from a live task keeps the accept loop out until it is over. */
  predicate CleanupAlone(k: Bucket, claimed: bool) {
    k.poll.Cleaning? ==> k.refcount >= 1 && !claimed && (k.poll.stage >= 2 ==> !k.future)
  }

  predicate Alone(s: State) {
    forall b :: 0 <= b < |s.buckets| ==> CleanupAlone(s.buckets[b], IsClaimed(s, b))
  }

  lemma AloneStep(s: State, a: Action)
    requires Inv(s) && Alone(s) && Enabled(s, a) && !a.PollMissing?
    ensures BenignReset(s, a) && Inv(Do(s, a)) && Alone(Do(s, a))
  {
    if a.CleanStep? { assert CleanupAlone(s.buckets[a.b], IsClaimed(s, a.b)); }
    StepKeeps(s, a);
    var t := Do(s, a);
    forall b | 0 <= b < |t.buckets| ensures CleanupAlone(t.buckets[b], IsClaimed(t, b)) {
      assert CleanupAlone(s.buckets[b], IsClaimed(s, b));
      assert BucketOk(s.size, s.buckets[b], IsClaimed(s, b));
    }
  }

  lemma {:induction false} RaceFreeRunsKeep(s: State, run: seq<Action>)
    requires Initial(s) && ValidRun(s, run) && NoRace(run)
    ensures Inv(After(s, run)) && Alone(After(s, run))
  {
    if |run| == 0 {
      InitialInv(s);
    } else {
      var before, a := run[..|run| - 1], run[|run| - 1];
      assert a == run[|before|];
      RaceFreeRunsKeep(s, before);
      AloneStep(After(s, before), a);
    }
  }

  /** Race-free runs: every count is the number of live tasks, no decrement underflows, the accept
      loop never finds a future in its way, and the count fits in a byte. */
  lemma RefcountsAreExact(s: State, run: seq<Action>, b: nat)
    requires Initial(s) && ValidRun(s, run) && NoRace(run) && b < |s.buckets|
    ensures var t := After(s, run);
            var k := t.buckets[b];
            && Accounted(k, IsClaimed(t, b))
            && t.main != SetFailed
            && (k.poll == Completing ==> k.refcount >= 1)
            && (k.poll == PollingMain ==> k.refcount >= 1)
            && (|k.connections| <= 63 ==> k.refcount <= 0xFF)
  {
    RaceFreeRunsKeep(s, run);
    var t := After(s, run);
    assert BucketOk(t.size, t.buckets[b], IsClaimed(t, b));
  }

  /** The steps that reset a bucket's memory. */
  predicate ResetsMemory(k: Bucket, a: Action)
    requires OnBucket(a) && BucketReady(k, a)
  {
    (a.Complete? && k.refcount == 1) || (a.CleanStep? && k.poll.stage == 2)
  }

  /** Race-free runs: memory is reset only when the bucket has no live task left, and whoever claims a
      bucket finds all of its memory free. */
  lemma MemoryReuseIsSafe(s: State, run: seq<Action>, a: Action)
    requires Initial(s) && ValidRun(s, run) && NoRace(run) && Enabled(After(s, run), a) && OnBucket(a)
    ensures var t := After(s, run);
            var k := t.buckets[a.b];
            && (ResetsMemory(k, a) ==> !k.future && AllEmpty(k) && !IsClaimed(t, a.b))
            && (a.Claim? ==> k.remaining == s.size && !k.future && AllEmpty(k))
  {
    RaceFreeRunsKeep(s, run);
    var t := After(s, run);
    var k := t.buckets[a.b];
    assert BucketOk(t.size, k, IsClaimed(t, a.b));
    assert CleanupAlone(k, IsClaimed(t, a.b));
    EmptyHasNoWeight(k);
  }

  /** A count that has dropped to zero is brought up again by a claim and by nothing else, a handshake that
      comes too late included. */
  lemma OnlyClaimRevives(s: State, a: Action, b: nat)
    requires Enabled(s, a) && b < |s.buckets| && s.buckets[b].refcount == 0
    ensures Do(s, a).buckets[b].refcount == if a == Claim(b) then 1 else 0
  {
  }

  // ----- Every failed poll ends in a full cleanup -----

  /** The four cleanup steps of the lifecycle in a row. */
  function CleanedUp(size: nat, k: Bucket, b: nat): Bucket
    requires k.poll == Cleaning(0)
  {
    var k1 := DoBucket(size, k, CleanStep(b));
    var k2 := DoBucket(size, k1, CleanStep(b));
    var k3 := DoBucket(size, k2, CleanStep(b));
    DoBucket(size, k3, CleanStep(b))
  }

  /** Out of memory, a panic of the application, no free connection, or no future to poll. */
  predicate FailsPoll(a: Action, b: nat) {
    a == Fail(b) || a == NoFreeConnection(b) || a == PollMissing(b)
  }

  predicate CleanBucket(size: nat, k: Bucket) {
    k.refcount == 0 && !k.future && AllEmpty(k) && k.remaining == size && k.poll == Resting
  }

  /** Whatever the bucket held, the four cleanup steps after a failure leave nothing of it. */
  lemma FailureIsCleanedUp(size: nat, k: Bucket, a: Action, b: nat)
    requires FailsPoll(a, b) && BucketReady(k, a)
    ensures DoBucket(size, k, a).poll == Cleaning(0)
    ensures CleanedUp(size, DoBucket(size, k, a), b)
         == Bucket(0, false, seq(|k.connections|, _ => Empty), size, Resting)
  {
    var j := DoBucket(size, k, a);
    assert DoBucket(size, j, CleanStep(b)).connections == seq(|k.connections|, _ => Empty);
  }

  /** A handshake that has counted itself reserves a connection or fails, and fails only when none is empty. */
  lemma HandshakeFindsConnection(k: Bucket, b: nat)
    requires k.poll == Counted
    ensures (exists c: nat :: BucketReady(k, Reserve(b, c))) <==> !BucketReady(k, NoFreeConnection(b))
    ensures forall c: nat :: BucketReady(k, Reserve(b, c)) <==> c < |k.connections| && k.connections[c] == Empty
  {
    if !NoneEmpty(k) {
      var c :| 0 <= c < |k.connections| && k.connections[c] == Empty;
      assert BucketReady(k, Reserve(b, c));
    }
  }

  lemma CleanupStep(s: State, a: Action, b: nat)
    requires Inv(s) && Alone(s) && Enabled(s, a) && b < |s.buckets| && s.buckets[b].poll.Cleaning?
    ensures var k := Do(s, a).buckets[b];
            k.poll.Cleaning? || CleanBucket(s.size, k)
  {
    assert BucketOk(s.size, s.buckets[b], IsClaimed(s, b)) && CleanupAlone(s.buckets[b], IsClaimed(s, b));
  }

  lemma {:induction false} CleanupGoesOn(s: State, run: seq<Action>, b: nat, j: nat, k: nat)
    requires Initial(s) && ValidRun(s, run) && NoRace(run) && b < |s.buckets|
    requires j < k <= |run| && FailsPoll(run[j], b)
    requires forall m: nat :: j < m < k ==> At(s, run, m).buckets[b].poll != Resting
    ensures var x := At(s, run, k).buckets[b];
            x.poll.Cleaning? || CleanBucket(s.size, x)
  {
    if k == j + 1 {
      AtNext(s, run, j);
    } else {
      CleanupGoesOn(s, run, b, j, k - 1);
      RaceFreeAt(s, run, k - 1);
      AtNext(s, run, k - 1);
      CleanupStep(At(s, run, k - 1), run[k - 1], b);
    }
  }

  /** Over race-free runs: when a bucket comes to rest after a failed poll, its connections are empty, its
      future is gone, its memory is free and its count is zero. */
  lemma FailuresEndClean(s: State, run: seq<Action>, b: nat, j: nat, k: nat)
    requires Initial(s) && ValidRun(s, run) && NoRace(run) && b < |s.buckets|
    requires j < k <= |run| && FailsPoll(run[j], b) && At(s, run, k).buckets[b].poll == Resting
    requires forall m: nat :: j < m < k ==> At(s, run, m).buckets[b].poll != Resting
    ensures CleanBucket(s.size, At(s, run, k).buckets[b])
  {
    CleanupGoesOn(s, run, b, j, k);
  }

  // ----- When a worker is lost -----

  predicate PollsReserved(a: Action, b: nat) {
    a.PollReserved? && a.b == b
  }

  lemma StuckStep(s: State, a: Action, b: nat)
    requires Inv(s) && Enabled(s, a) && b < |s.buckets|
    ensures Do(s, a).buckets[b].poll == Stuck <==> s.buckets[b].poll == Stuck || PollsReserved(a, b)
  {
    assert BucketOk(s.size, s.buckets[b], IsClaimed(s, b));
  }

  /** Over a race-free run a bucket's worker is lost to a panic exactly when a wake was dequeued for a
      connection of the bucket that was reserved and not yet occupied: no count ever underflows. */
  lemma {:induction false} WorkerLostIffReservedPolled(s: State, run: seq<Action>, b: nat)
    requires Initial(s) && ValidRun(s, run) && NoRace(run) && b < |s.buckets|
    ensures After(s, run).buckets[b].poll == Stuck <==> exists k :: 0 <= k < |run| && PollsReserved(run[k], b)
  {
    if |run| > 0 {
      var before, a := run[..|run| - 1], run[|run| - 1];
      assert a == run[|before|];
      assert forall k :: 0 <= k < |before| ==> before[k] == run[k];
      WorkerLostIffReservedPolled(s, before, b);
      RaceFreeRunsKeep(s, before);
      StuckStep(After(s, before), a, b);
    }
  }

  // ----- What an abandoned handshake does -----

  /** The main future is gone, but a connection it had reserved was never occupied. */
  predicate Abandoned(s: State, b: nat, c: nat)
    requires b < |s.buckets|
  {
    var k := s.buckets[b];
    && !k.future && !IsClaimed(s, b) && !k.poll.Cleaning?
    && c < |k.connections| && k.connections[c] == Reserved
  }

  predicate NoneAbandoned(s: State) {
    forall b, c :: 0 <= b < |s.buckets| && 0 <= c < |s.buckets[b].connections| ==> !Abandoned(s, b, c)
  }

  predicate SomeReserved(k: Bucket) {
    exists c :: 0 <= c < |k.connections| && k.connections[c] == Reserved
  }

  /** The main task finishes while one of its handshakes still waits. */
  predicate FinishesEarly(s: State, a: Action) {
    && a.Finished? && a.b < |s.buckets|
    && s.buckets[a.b].poll == PollingMain && SomeReserved(s.buckets[a.b])
  }

  lemma AbandonStep(s: State, a: Action)
    requires Inv(s) && Alone(s) && NoneAbandoned(s) && Enabled(s, a) && !a.PollMissing?
    ensures NoneAbandoned(Do(s, a)) <==> !FinishesEarly(s, a)
  {
    AloneStep(s, a);
    var t := Do(s, a);
    if FinishesEarly(s, a) {
      var c :| 0 <= c < |s.buckets[a.b].connections| && s.buckets[a.b].connections[c] == Reserved;
      assert BucketOk(s.size, s.buckets[a.b], IsClaimed(s, a.b));
      assert Abandoned(t, a.b, c);
    } else {
      forall b, c | 0 <= b < |t.buckets| && 0 <= c < |t.buckets[b].connections| ensures !Abandoned(t, b, c) {
        assert BucketOk(s.size, s.buckets[b], IsClaimed(s, b)) && !Abandoned(s, b, c);
      }
    }
  }

  lemma RaceFreeAt(s: State, run: seq<Action>, k: nat)
    requires Initial(s) && ValidRun(s, run) && NoRace(run) && k <= |run|
    ensures Inv(At(s, run, k)) && Alone(At(s, run, k))
  {
    PrefixesAreValid(s, run, k);
    RaceFreeRunsKeep(s, run[..k]);
  }

  lemma AbandonAt(s: State, run: seq<Action>, k: nat)
    requires Initial(s) && ValidRun(s, run) && NoRace(run) && k < |run| && NoneAbandoned(At(s, run, k))
    ensures NoneAbandoned(At(s, run, k + 1)) <==> !FinishesEarly(At(s, run, k), run[k])
  {
    RaceFreeAt(s, run, k);
    AtNext(s, run, k);
    AbandonStep(At(s, run, k), run[k]);
  }

  lemma {:induction false} NoneAbandonedWhile(s: State, run: seq<Action>, k: nat)
    requires Initial(s) && ValidRun(s, run) && NoRace(run) && k <= |run|
    requires forall j: nat :: j < k ==> !FinishesEarly(At(s, run, j), run[j])
    ensures NoneAbandoned(At(s, run, k))
  {
    if k > 0 {
      NoneAbandonedWhile(s, run, k - 1);
      AbandonAt(s, run, k - 1);
    }
  }

  /** Over a race-free run no connection is ever abandoned exactly when no main task finishes while one
      of its connections is reserved. */
  lemma AbandonedIffFinishedEarly(s: State, run: seq<Action>)
    requires Initial(s) && ValidRun(s, run) && NoRace(run)
    ensures (forall k: nat :: k <= |run| ==> NoneAbandoned(At(s, run, k)))
       <==> (forall k: nat :: k < |run| ==> !FinishesEarly(At(s, run, k), run[k]))
  {
    if forall k: nat :: k < |run| ==> !FinishesEarly(At(s, run, k), run[k]) {
      forall k: nat | k <= |run| ensures NoneAbandoned(At(s, run, k)) {
        NoneAbandonedWhile(s, run, k);
      }
    }
    if forall k: nat :: k <= |run| ==> NoneAbandoned(At(s, run, k)) {
      forall k: nat | k < |run| ensures !FinishesEarly(At(s, run, k), run[k]) {
        AbandonAt(s, run, k);
        assert NoneAbandoned(At(s, run, k + 1));
      }
    }
  }

  lemma {:induction false} AbandonedUntilFailure(s: State, run: seq<Action>, b: nat, c: nat, k: nat)
    requires Inv(s) && Alone(s) && b < |s.buckets| && Abandoned(s, b, c) && ValidRun(s, run) && NoRace(run)
    requires k <= |run| && forall j: nat :: j < k ==> run[j] != Fail(b)
    ensures var t := At(s, run, k);
            Inv(t) && Alone(t) && Abandoned(t, b, c)
  {
    if k > 0 {
      AbandonedUntilFailure(s, run, b, c, k - 1);
      AtNext(s, run, k - 1);
      AbandonedStep(At(s, run, k - 1), run[k - 1], b, c);
    }
  }

  /** Such a bucket keeps its reservation for as long as, and no longer than, none of its other tasks
      fails; and with the reservation a positive count, so that it is not claimed again. */
  lemma AbandonedBucketStaysTaken(s: State, run: seq<Action>, b: nat, c: nat)
    requires Inv(s) && Alone(s) && b < |s.buckets| && Abandoned(s, b, c) && ValidRun(s, run) && NoRace(run)
    ensures (forall k: nat :: k <= |run| ==> Abandoned(At(s, run, k), b, c) && At(s, run, k).buckets[b].refcount >= 1)
       <==> (forall k: nat :: k < |run| ==> run[k] != Fail(b))
  {
    if forall k: nat :: k < |run| ==> run[k] != Fail(b) {
      forall k: nat | k <= |run| ensures Abandoned(At(s, run, k), b, c) && At(s, run, k).buckets[b].refcount >= 1 {
        AbandonedUntilFailure(s, run, b, c, k);
        AbandonedIsCounted(At(s, run, k), b, c);
      }
    }
    forall k: nat | k < |run| && run[k] == Fail(b) ensures !Abandoned(At(s, run, k + 1), b, c) {
      AtNext(s, run, k);
    }
  }

  lemma AbandonedIsCounted(s: State, b: nat, c: nat)
    requires Inv(s) && b < |s.buckets| && Abandoned(s, b, c)
    ensures s.buckets[b].refcount >= 1
  {
    assert BucketOk(s.size, s.buckets[b], IsClaimed(s, b));
    TotalAtLeast(ConnectionWeight, s.buckets[b].connections, c);
  }

  lemma AbandonedStep(s: State, a: Action, b: nat, c: nat)
    requires Inv(s) && Alone(s) && b < |s.buckets| && Abandoned(s, b, c)
    requires Enabled(s, a) && !a.PollMissing? && a != Fail(b)
    ensures Inv(Do(s, a)) && Alone(Do(s, a)) && Abandoned(Do(s, a), b, c)
  {
    AloneStep(s, a);
    AbandonedIsCounted(s, b, c);
    assert BucketOk(s.size, s.buckets[b], IsClaimed(s, b));
  }

  lemma Extend(s: State, run: seq<Action>, a: Action) returns (longer: seq<Action>)
    requires ValidRun(s, run) && Enabled(After(s, run), a)
    ensures longer == run + [a] && ValidRun(s, longer) && After(s, longer) == Do(After(s, run), a)
  {
    longer := run + [a];
    assert longer[..|longer| - 1] == run;
  }
}

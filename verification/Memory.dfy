/** The life of a bucket and the bump allocator together: application code allocates step by step while it
    is polled, and the lifecycle's resets clear the bucket's area. */
module Memory {
  import opened Options
  import opened Words
  import opened Counting
  import L = Lifecycle
  import A = Allocator

  datatype State = State(life: L.State, memory: A.State)

  datatype Action =
    | Live(l: L.Action)   // a step of the lifecycle other than an allocation
    | Take(m: A.Action)   // a step of an allocating thread

  predicate InApp(p: L.Poll) {
    L.InMain(p) || p.PollingConnection?
  }

  /** A thread in the middle of an allocation from area b. */
  predicate Busy(t: A.Thread, b: nat) {
    t != A.Ready && t.arena == b
  }

  predicate NobodyBusy(m: A.State, b: nat) {
    forall t :: 0 <= t < |m.threads| ==> !Busy(m.threads[t], b)
  }

  /** An exchange that goes through. */
  predicate Grants(m: A.State, a: A.Action)
    requires A.Enabled(m, a)
  {
    a.Exchange? && !a.spurious && m.arenas[m.threads[a.t].arena].remaining == m.threads[a.t].seen
  }

  /** What a granted block is for the lifecycle. */
  function Allocated(m: A.State, a: A.Action): L.Action
    requires A.Enabled(m, a) && Grants(m, a)
  {
    var t := m.threads[a.t];
    L.Allocate(t.arena, if t.next <= t.seen then t.seen - t.next else 0)
  }

  predicate Resets(s: L.State, a: L.Action)
    requires L.Enabled(s, a)
  {
    L.OnBucket(a) && L.ResetsMemory(s.buckets[a.b], a)
  }

  predicate Initial(s: State) {
    && L.Initial(s.life) && A.Initial(s.memory) && |s.memory.arenas| == |s.life.buckets|
    && forall b :: 0 <= b < |s.memory.arenas| ==> s.memory.arenas[b].size == s.life.size
  }

  predicate Enabled(s: State, a: Action) {
    match a
    case Live(l) =>
      // the worker that takes a step in a bucket is not inside the allocator
      && !l.Allocate? && L.Enabled(s.life, l)
      && (L.OnBucket(l) && !l.Claim? ==> NobodyBusy(s.memory, l.b))
      && (L.OnBucket(l) ==> l.b < |s.memory.arenas|)
    case Take(m) =>
      && A.Enabled(s.memory, m) && !m.ClearBucket?
      && (m.Begin? && m.arena < |s.life.buckets| ==> InApp(s.life.buckets[m.arena].poll))
      && (Grants(s.memory, m) ==> L.Enabled(s.life, Allocated(s.memory, m)))
  }

  function Do(s: State, a: Action): (t: State)
    requires Enabled(s, a)
    ensures |t.life.buckets| == |s.life.buckets| && |t.memory.arenas| == |s.memory.arenas|
    ensures |t.memory.threads| == |s.memory.threads|
  {
    match a
    case Live(l) =>
      State(L.Do(s.life, l), if Resets(s.life, l) then A.Do(s.memory, A.ClearBucket(l.b)) else s.memory)
    case Take(m) =>
      State(if Grants(s.memory, m) then L.Do(s.life, Allocated(s.memory, m)) else s.life, A.Do(s.memory, m))
  }

  predicate ValidRun(s: State, run: seq<Action>)
    decreases |run|, 0
  {
    |run| == 0 ||
    (ValidRun(s, run[..|run| - 1]) && Enabled(After(s, run[..|run| - 1]), run[|run| - 1]))
  }

  function After(s: State, run: seq<Action>): (t: State)
    requires ValidRun(s, run)
    ensures |t.life.buckets| == |s.life.buckets| && |t.memory.arenas| == |s.memory.arenas|
    ensures |t.memory.threads| == |s.memory.threads|
    decreases |run|, 1
  {
    if |run| == 0 then s else Do(After(s, run[..|run| - 1]), run[|run| - 1])
  }

  predicate NoRace(run: seq<Action>) {
    forall k :: 0 <= k < |run| ==> !Races(run[k])
  }

  predicate Races(a: Action) {
    a.Live? && a.l.PollMissing?
  }

  // ----- What every step keeps -----

  /** A bucket and its area agree; a free or just cleared bucket has nothing handed out. */
  predicate Agrees(size: nat, k: L.Bucket, a: A.Arena) {
    && a.size == size && a.remaining == k.remaining
    && (k.refcount == 0 ==> a.blocks == [])
    && (k.poll.Cleaning? && k.poll.stage >= 3 ==> a.blocks == [])
  }

  /** Whoever allocates from a bucket is inside a poll of it. */
  predicate BusyInside(s: State, t: A.Thread) {
    t == A.Ready || (t.arena < |s.life.buckets| && InApp(s.life.buckets[t.arena].poll))
  }

  predicate Coupled(s: State) {
    && |s.memory.arenas| == |s.life.buckets|
    && (forall b :: 0 <= b < |s.life.buckets| ==> Agrees(s.life.size, s.life.buckets[b], s.memory.arenas[b]))
    && (forall t :: 0 <= t < |s.memory.threads| ==> BusyInside(s, s.memory.threads[t]))
  }

  predicate Inv(s: State) {
    && L.Inv(s.life) && L.Alone(s.life) && A.Inv(s.memory) && A.AreasApart(s.memory.arenas)
    && Coupled(s)
  }

  lemma LiveStep(s: State, l: L.Action)
    requires Inv(s) && Enabled(s, Live(l)) && !l.PollMissing?
    ensures Inv(Do(s, Live(l)))
  {
    L.AloneStep(s.life, l);
    var t := Do(s, Live(l));
    if Resets(s.life, l) {
      A.StepKeeps(s.memory, A.ClearBucket(l.b));
      AreasStay(s.memory, A.ClearBucket(l.b));
    }
    forall b | 0 <= b < |t.life.buckets| ensures Agrees(t.life.size, t.life.buckets[b], t.memory.arenas[b]) {
      LiveAgrees(s, l, b);
    }
    forall v | 0 <= v < |t.memory.threads| ensures BusyInside(t, t.memory.threads[v]) {
      LiveBusy(s, l, v);
    }
  }

  lemma LiveAgrees(s: State, l: L.Action, b: nat)
    requires Inv(s) && Enabled(s, Live(l)) && !l.PollMissing? && b < |s.life.buckets|
    ensures var t := Do(s, Live(l));
            Agrees(t.life.size, t.life.buckets[b], t.memory.arenas[b])
  {
    assert Agrees(s.life.size, s.life.buckets[b], s.memory.arenas[b]);
    assert L.BucketOk(s.life.size, s.life.buckets[b], L.IsClaimed(s.life, b));
    assert L.CleanupAlone(s.life.buckets[b], L.IsClaimed(s.life, b));
  }

  lemma LiveBusy(s: State, l: L.Action, v: nat)
    requires Coupled(s) && Enabled(s, Live(l)) && v < |s.memory.threads|
    ensures BusyInside(Do(s, Live(l)), Do(s, Live(l)).memory.threads[v])
  {
    assert BusyInside(s, s.memory.threads[v]);
  }

  lemma AreasStay(m: A.State, a: A.Action)
    requires A.Enabled(m, a) && A.AreasApart(m.arenas)
    ensures A.AreasApart(A.Do(m, a).arenas) && A.SameAreas(m, A.Do(m, a))
  {
  }

  /** A grant is an allocation the lifecycle allows: the guard on it keeps nobody out. */
  lemma GrantIsAllowed(s: State, a: A.Action)
    requires Inv(s) && A.Enabled(s.memory, a) && Grants(s.memory, a)
    ensures L.Enabled(s.life, Allocated(s.memory, a))
    ensures var t := s.memory.threads[a.t];
            && t.next <= t.seen == s.life.buckets[t.arena].remaining
            && s.life.buckets[t.arena].refcount >= 1 && InApp(s.life.buckets[t.arena].poll)
  {
    var t := s.memory.threads[a.t];
    assert A.ThreadOk(s.memory, t) && BusyInside(s, t);
    A.BumpShape(t.seen, t.layout);
    assert Agrees(s.life.size, s.life.buckets[t.arena], s.memory.arenas[t.arena]);
    assert L.BucketOk(s.life.size, s.life.buckets[t.arena], L.IsClaimed(s.life, t.arena));
  }

  lemma TakeStep(s: State, m: A.Action)
    requires Inv(s) && Enabled(s, Take(m))
    ensures Inv(Do(s, Take(m)))
  {
    A.StepKeeps(s.memory, m);
    AreasStay(s.memory, m);
    if Grants(s.memory, m) {
      GrantIsAllowed(s, m);
      L.AloneStep(s.life, Allocated(s.memory, m));
      GrantCouples(s, m);
    } else {
      RetryCouples(s, m);
    }
  }

  /** The lifecycle takes off what the area gives. */
  lemma GrantCouples(s: State, m: A.Action)
    requires Inv(s) && Enabled(s, Take(m)) && Grants(s.memory, m)
    ensures Coupled(Do(s, Take(m)))
  {
    var t := Do(s, Take(m));
    forall b | 0 <= b < |t.life.buckets|
      ensures Agrees(t.life.size, t.life.buckets[b], t.memory.arenas[b])
      ensures t.life.buckets[b].poll == s.life.buckets[b].poll
    {
      GrantAgrees(s, m, b);
    }
    forall v | 0 <= v < |t.memory.threads| ensures BusyInside(t, t.memory.threads[v]) {
      assert BusyInside(s, s.memory.threads[v]);
    }
  }

  lemma GrantAgrees(s: State, m: A.Action, b: nat)
    requires Inv(s) && Enabled(s, Take(m)) && Grants(s.memory, m) && b < |s.life.buckets|
    ensures var t := Do(s, Take(m));
            && Agrees(t.life.size, t.life.buckets[b], t.memory.arenas[b])
            && t.life.buckets[b].poll == s.life.buckets[b].poll
  {
    GrantIsAllowed(s, m);
    assert Agrees(s.life.size, s.life.buckets[b], s.memory.arenas[b]);
  }

  lemma RetryCouples(s: State, m: A.Action)
    requires Inv(s) && Enabled(s, Take(m)) && !Grants(s.memory, m)
    ensures Coupled(Do(s, Take(m)))
  {
    var t := Do(s, Take(m));
    assert t.life == s.life && t.memory.arenas == s.memory.arenas;
    forall v | 0 <= v < |t.memory.threads| ensures BusyInside(t, t.memory.threads[v]) {
      assert BusyInside(s, s.memory.threads[v]);
    }
  }

  lemma StepKeeps(s: State, a: Action)
    requires Inv(s) && Enabled(s, a) && !Races(a)
    ensures Inv(Do(s, a))
  {
    if a.Live? { LiveStep(s, a.l); } else { TakeStep(s, a.m); }
  }

  lemma InitialInv(s: State)
    requires Initial(s)
    ensures Inv(s)
  {
    L.InitialInv(s.life);
    A.RunsKeep(s.memory, []);
  }

  lemma {:induction false} RunsKeep(s: State, run: seq<Action>)
    requires Inv(s) && ValidRun(s, run) && NoRace(run)
    ensures Inv(After(s, run))
  {
    if |run| > 0 {
      var before, a := run[..|run| - 1], run[|run| - 1];
      assert a == run[|before|];
      RunsKeep(s, before);
      StepKeeps(After(s, before), a);
    }
  }

  // ----- Memory in use is not handed out again -----

  /** The bucket has a task: claimed for one, a main future, or a connection. */
  predicate HasTask(s: L.State, b: nat)
    requires b < |s.buckets|
  {
    L.IsClaimed(s, b) || s.buckets[b].future || !L.AllEmpty(s.buckets[b])
  }

  lemma ResetMeansNoTask(s: State, l: L.Action)
    requires Inv(s) && L.Enabled(s.life, l) && Resets(s.life, l)
    ensures !HasTask(s.life, l.b)
  {
    assert L.BucketOk(s.life.size, s.life.buckets[l.b], L.IsClaimed(s.life, l.b));
    assert L.CleanupAlone(s.life.buckets[l.b], L.IsClaimed(s.life, l.b));
    L.EmptyHasNoWeight(s.life.buckets[l.b]);
  }

  lemma BlocksStay(s: State, a: Action, b: nat)
    requires Inv(s) && Enabled(s, a) && b < |s.life.buckets| && HasTask(s.life, b)
    ensures s.memory.arenas[b].blocks <= Do(s, a).memory.arenas[b].blocks
  {
    if a.Live? && Resets(s.life, a.l) { ResetMeansNoTask(s, a.l); }
  }

  /** The bucket has a task in every state of the run. */
  ghost predicate InUse(s: State, run: seq<Action>, b: nat)
    requires ValidRun(s, run) && b < |s.life.buckets|
    decreases |run|
  {
    HasTask(After(s, run).life, b) && (|run| == 0 || InUse(s, run[..|run| - 1], b))
  }

  lemma {:induction false} HeldBlocksStay(s: State, run: seq<Action>, b: nat)
    requires Inv(s) && ValidRun(s, run) && NoRace(run) && b < |s.life.buckets| && InUse(s, run, b)
    ensures s.memory.arenas[b].blocks <= After(s, run).memory.arenas[b].blocks
    decreases |run|
  {
    if |run| > 0 {
      var before, a := run[..|run| - 1], run[|run| - 1];
      assert NoRace(before);
      HeldBlocksStay(s, before, b);
      RunsKeep(s, before);
      BlocksStay(After(s, before), a, b);
    }
  }

  /** Race-free runs: a block handed out in a bucket keeps its place for as long as the bucket has a task,
      and overlaps with no other block that is handed out meanwhile, there or in any other bucket. */
  lemma MemoryInUseIsSafe(s: State, run: seq<Action>, more: seq<Action>, b: nat, x: nat, c: nat, y: nat)
    requires Initial(s) && ValidRun(s, run) && NoRace(run) && b < |s.life.buckets|
    requires ValidRun(After(s, run), more) && NoRace(more) && InUse(After(s, run), more, b)
    requires x < |After(s, run).memory.arenas[b].blocks|
    requires c < |s.memory.arenas| && y < |After(After(s, run), more).memory.arenas[c].blocks|
    ensures var held := After(s, run).memory.arenas[b].blocks[x];
            var now := After(After(s, run), more).memory.arenas;
            && b < |now| && x < |now[b].blocks| && now[b].blocks[x] == held
            && (b != c || x != y ==> A.Disjoint(now[b].start, held, now[c].start, now[c].blocks[y]))
  {
    InitialInv(s);
    RunsKeep(s, run);
    HeldBlocksStay(After(s, run), more, b);
    RunsKeep(After(s, run), more);
    A.BlocksApart(After(After(s, run), more).memory.arenas, b, x, c, y);
  }

  /** Race-free runs: an area is cleared only without a task in its bucket and without an allocation under
      way, and whoever claims a bucket finds all of it free and nothing handed out. */
  lemma CleanSlate(s: State, run: seq<Action>, l: L.Action)
    requires Initial(s) && ValidRun(s, run) && NoRace(run) && Enabled(After(s, run), Live(l)) && L.OnBucket(l)
    ensures var t := After(s, run);
            && (Resets(t.life, l) ==> !HasTask(t.life, l.b) && NobodyBusy(t.memory, l.b))
            && (l.Claim? ==> t.memory.arenas[l.b].blocks == [] && t.memory.arenas[l.b].remaining == s.life.size)
  {
    InitialInv(s);
    RunsKeep(s, run);
    var t := After(s, run);
    SameSize(s, run);
    if Resets(t.life, l) { ResetMeansNoTask(t, l); }
    assert Agrees(t.life.size, t.life.buckets[l.b], t.memory.arenas[l.b]);
    assert L.BucketOk(t.life.size, t.life.buckets[l.b], L.IsClaimed(t.life, l.b));
  }

  lemma {:induction false} SameSize(s: State, run: seq<Action>)
    requires ValidRun(s, run)
    ensures After(s, run).life.size == s.life.size
  {
    if |run| > 0 { SameSize(s, run[..|run| - 1]); }
  }

  /** A task that is being polled gets its block, if it fits, in three steps that nobody interferes with, and
      the lifecycle takes off exactly what the area gives. */
  lemma PolledTaskCanAllocate(s: State, t: nat, b: nat, l: A.Layout)
    requires Inv(s) && t < |s.memory.threads| && s.memory.threads[t] == A.Ready
    requires b < |s.life.buckets| && InApp(s.life.buckets[b].poll)
    requires l.Supported() && l.size <= s.life.buckets[b].remaining
    ensures Enabled(s, Take(A.Begin(t, b, l)))
    ensures var s1 := Do(s, Take(A.Begin(t, b, l)));
            && Enabled(s1, Take(A.Load(t)))
            && var s2 := Do(s1, Take(A.Load(t)));
               && Enabled(s2, Take(A.Exchange(t, false)))
               && var s3 := Do(s2, Take(A.Exchange(t, false)));
                  && A.HandedOut(s.memory.arenas[b], s3.memory.arenas[b], l)
                  && s3.life.buckets[b] == s.life.buckets[b].(remaining := s3.memory.arenas[b].remaining)
  {
    assert Agrees(s.life.size, s.life.buckets[b], s.memory.arenas[b]);
    A.UndisturbedRequest(s.memory, t, b, l);
    TakeStep(s, A.Begin(t, b, l));
    var s1 := Do(s, Take(A.Begin(t, b, l)));
    assert s1 == State(s.life, A.Do(s.memory, A.Begin(t, b, l)));
    TakeStep(s1, A.Load(t));
    var s2 := Do(s1, Take(A.Load(t)));
    assert s2 == State(s.life, A.Do(s1.memory, A.Load(t)));
    ExchangeGives(s2, t, b, l);
  }

  lemma ExchangeGives(s: State, t: nat, b: nat, l: A.Layout)
    requires Inv(s) && b < |s.life.buckets| && A.Enabled(s.memory, A.Exchange(t, false))
    requires A.Requests(s.memory.threads[t], b, l)
    requires A.HandedOut(s.memory.arenas[b], A.Do(s.memory, A.Exchange(t, false)).arenas[b], l)
    ensures Enabled(s, Take(A.Exchange(t, false)))
    ensures var u := Do(s, Take(A.Exchange(t, false)));
            && u.memory == A.Do(s.memory, A.Exchange(t, false))
            && u.life.buckets[b] == s.life.buckets[b].(remaining := u.memory.arenas[b].remaining)
  {
    var a := A.Exchange(t, false);
    assert Grants(s.memory, a);
    GrantIsAllowed(s, a);
    GrantAgrees(s, a, b);
  }
}

/** The bump allocator: every bucket hands out blocks from the top down through a compare-exchange
    retry loop that any number of threads run at once. */
module Allocator {
  import opened Words
  import opened Counting
  import opened Options

  const MAX_SUPPORTED_ALIGN: nat := 4096
  const USIZE_BITS: nat := 64
  const USIZE_LIMIT: nat := 0x1_0000_0000_0000_0000

  /** An allocation request.  A `Layout`'s alignment is a power of two. */
  datatype Layout = Layout(size: nat, align: nat) {
    predicate Supported() { PowerOfTwo(align) && align <= MAX_SUPPORTED_ALIGN }

    /** The most that rounding down can waste. */
    function Waste(): nat { if align > 0 then align - 1 else 0 }
  }

  /** The closure of `fetch_update`: the new value of the counter, or `None` to give up. */
  function Bump(remaining: nat, l: Layout): Option<nat>
    requires remaining < USIZE_LIMIT && l.Supported()
  {
    SupportedMask(l);
    if l.size > remaining then None
    else Some(And(remaining - l.size, Not(l.align - 1, USIZE_BITS)))
  }

  lemma WordLimit()
    ensures Pow2(USIZE_BITS) == USIZE_LIMIT && Pow2(12) == MAX_SUPPORTED_ALIGN
  {
    assert Pow2(4) == 16;
    Pow2Product(4, 4);
    Pow2Product(8, 4);
    Pow2Product(8, 8);
    Pow2Product(16, 16);
    Pow2Product(32, 32);
  }

  lemma SupportedMask(l: Layout)
    requires l.Supported()
    ensures 1 <= l.align <= Pow2(USIZE_BITS)
  {
    WordLimit();
  }

  lemma MaskedWord(x: nat, align: nat)
    requires x < Pow2(USIZE_BITS) && PowerOfTwo(align) && 1 <= align <= Pow2(USIZE_BITS)
    ensures And(x, Not(align - 1, USIZE_BITS)) == x - Remainder(x, align)
  {
    var k := Exponent(align);
    if k > USIZE_BITS { Pow2Increases(USIZE_BITS, k); }
    MaskRoundsDown(x, k, USIZE_BITS);
  }

  lemma BumpValue(remaining: nat, l: Layout)
    requires remaining < USIZE_LIMIT && l.Supported() && l.size <= remaining
    ensures Bump(remaining, l) == Some((remaining - l.size) - Remainder(remaining - l.size, l.align))
  {
    WordLimit();
    SupportedMask(l);
    MaskedWord(remaining - l.size, l.align);
  }

  /** A request is refused only when it does not fit; otherwise the block lies below the counter, is
      aligned, and wastes less than one alignment. */
  lemma BumpShape(remaining: nat, l: Layout)
    requires remaining < USIZE_LIMIT && l.Supported()
    ensures Bump(remaining, l) == None <==> l.size > remaining
    ensures Bump(remaining, l).Some? ==>
              var lo := Bump(remaining, l).value;
              && Remainder(lo, l.align) == 0
              && remaining - l.size - (l.align - 1) <= lo <= remaining - l.size
  {
    if l.size <= remaining {
      GrantShape(remaining, l);
    }
  }

  lemma GrantShape(remaining: nat, l: Layout)
    requires remaining < USIZE_LIMIT && l.Supported() && l.size <= remaining
    ensures Bump(remaining, l).Some?
    ensures var lo := Bump(remaining, l).value;
            && Remainder(lo, l.align) == 0
            && remaining - l.size - (l.align - 1) <= lo <= remaining - l.size
  {
    var x := remaining - l.size;
    var lo := x - Remainder(x, l.align);
    assert Bump(remaining, l) == Some(lo) by { BumpValue(remaining, l); }
    assert Remainder(lo, l.align) == 0 && x - (l.align - 1) <= lo <= x by { RoundedDown(x, l.align); }
  }

  lemma RoundedDown(x: nat, m: nat)
    requires m > 0
    ensures Remainder(x, m) <= x
    ensures var lo := x - Remainder(x, m);
            Remainder(lo, m) == 0 && x - (m - 1) <= lo <= x
  {
    Division(x, m);
    UniqueRemainder(x - x % m, m, x / m, 0);
  }

  // ----- The transition system -----

  datatype Block = Block(lo: nat, layout: Layout)

  /** A memory area, its counter, and the blocks handed out since it was last cleared. */
  datatype Arena = Arena(start: nat, size: nat, remaining: nat, blocks: seq<Block>)

  datatype Thread =
    | Ready
    | Loading(arena: nat, layout: Layout)
    | Exchanging(arena: nat, layout: Layout, seen: nat, next: nat)

  datatype State = State(arenas: seq<Arena>, threads: seq<Thread>)

  datatype Action =
    | Begin(t: nat, arena: nat, layout: Layout)
    | Load(t: nat)
    | Exchange(t: nat, spurious: bool)
    | ClearBucket(arena: nat)

  predicate Enabled(s: State, a: Action) {
    match a
    case Begin(t, arena, l) => t < |s.threads| && s.threads[t] == Ready
    case Load(t) => t < |s.threads| && s.threads[t].Loading? && s.threads[t].arena < |s.arenas|
                    && s.threads[t].layout.Supported() && InRange(s.arenas[s.threads[t].arena])
    case Exchange(t, _) => t < |s.threads| && s.threads[t].Exchanging? && s.threads[t].arena < |s.arenas|
                           && s.threads[t].layout.Supported() && InRange(s.arenas[s.threads[t].arena])
    case ClearBucket(arena) => arena < |s.arenas|
  }

  predicate InRange(a: Arena) {
    a.remaining <= a.size < USIZE_LIMIT
  }

  /** Evaluate the closure on the counter just read: give up, or go on to the exchange. */
  function Attempt(s: State, t: nat, arena: nat, l: Layout): State
    requires t < |s.threads| && arena < |s.arenas| && InRange(s.arenas[arena]) && l.Supported()
  {
    var seen := s.arenas[arena].remaining;
    match Bump(seen, l)
    case None => s.(threads := s.threads[t := Ready])
    case Some(next) => s.(threads := s.threads[t := Exchanging(arena, l, seen, next)])
  }

  function Do(s: State, a: Action): (r: State)
    requires Enabled(s, a)
    ensures |r.arenas| == |s.arenas| && |r.threads| == |s.threads|
  {
    match a
    case Begin(t, arena, l) =>
      // an index out of range or an unsupported alignment is answered with None at once
      if arena < |s.arenas| && l.Supported() then s.(threads := s.threads[t := Loading(arena, l)]) else s
    case Load(t) => Attempt(s, t, s.threads[t].arena, s.threads[t].layout)
    case Exchange(t, spurious) =>
      var Exchanging(k, l, seen, next) := s.threads[t];
      var arena := s.arenas[k];
      if arena.remaining == seen && !spurious then
        s.(threads := s.threads[t := Ready],
           arenas := s.arenas[k := arena.(remaining := next, blocks := arena.blocks + [Block(next, l)])])
      else Attempt(s, t, k, l)
    case ClearBucket(k) =>
      var arena := s.arenas[k];
      s.(arenas := s.arenas[k := arena.(remaining := arena.size, blocks := [])])
  }

  // ----- What every step keeps -----

  function SizeOf(b: Block): nat { b.layout.size }
  function CostOf(b: Block): nat { b.layout.size + b.layout.Waste() }

  predicate BlockOk(a: Arena, b: Block) {
    && a.remaining <= b.lo && b.lo + b.layout.size <= a.size
    && b.layout.align > 0 && Remainder(b.lo, b.layout.align) == 0
  }

  predicate ArenaOk(a: Arena) {
    && InRange(a)
    && (forall i :: 0 <= i < |a.blocks| ==> BlockOk(a, a.blocks[i]))
    && (forall i, j :: 0 <= i < j < |a.blocks| ==> a.blocks[j].lo + a.blocks[j].layout.size <= a.blocks[i].lo)
    && a.remaining + Total(SizeOf, a.blocks) <= a.size <= a.remaining + Total(CostOf, a.blocks)
  }

  predicate ThreadOk(s: State, t: Thread) {
    match t
    case Ready => true
    case Loading(k, l) => k < |s.arenas| && l.Supported()
    case Exchanging(k, l, seen, next) =>
      k < |s.arenas| && l.Supported() && seen <= s.arenas[k].size < USIZE_LIMIT && Bump(seen, l) == Some(next)
  }

  predicate Inv(s: State) {
    && (forall k :: 0 <= k < |s.arenas| ==> ArenaOk(s.arenas[k]))
    && (forall t :: 0 <= t < |s.threads| ==> ThreadOk(s, s.threads[t]))
  }

  lemma GrantKeepsArena(a: Arena, l: Layout, next: nat)
    requires ArenaOk(a) && l.Supported() && Bump(a.remaining, l) == Some(next)
    ensures ArenaOk(a.(remaining := next, blocks := a.blocks + [Block(next, l)]))
  {
    BumpShape(a.remaining, l);
    TotalAppend(SizeOf, a.blocks, Block(next, l));
    TotalAppend(CostOf, a.blocks, Block(next, l));
    GrantKeepsBlocks(a, l, next);
  }

  lemma GrantKeepsBlocks(a: Arena, l: Layout, next: nat)
    requires ArenaOk(a) && next + l.size <= a.remaining && l.align > 0 && Remainder(next, l.align) == 0
    ensures var b := a.(remaining := next, blocks := a.blocks + [Block(next, l)]);
            && (forall i :: 0 <= i < |b.blocks| ==> BlockOk(b, b.blocks[i]))
            && (forall i, j :: 0 <= i < j < |b.blocks| ==> b.blocks[j].lo + b.blocks[j].layout.size <= b.blocks[i].lo)
  {
    var b := a.(remaining := next, blocks := a.blocks + [Block(next, l)]);
    forall i | 0 <= i < |b.blocks| ensures BlockOk(b, b.blocks[i]) {
      if i < |a.blocks| { assert BlockOk(a, a.blocks[i]); }
    }
    forall i, j | 0 <= i < j < |b.blocks|
      ensures b.blocks[j].lo + b.blocks[j].layout.size <= b.blocks[i].lo
    {
      if j == |a.blocks| { assert BlockOk(a, a.blocks[i]); }
    }
  }

  lemma AttemptKeeps(s: State, t: nat, arena: nat, l: Layout)
    requires Inv(s) && t < |s.threads| && arena < |s.arenas| && l.Supported()
    ensures InRange(s.arenas[arena]) && Inv(Attempt(s, t, arena, l))
  {
    assert ArenaOk(s.arenas[arena]);
    var r := Attempt(s, t, arena, l);
    forall v | 0 <= v < |r.threads| ensures ThreadOk(r, r.threads[v]) {
      if v != t { assert ThreadOk(s, s.threads[v]); }
    }
  }

  lemma StepKeeps(s: State, a: Action)
    requires Inv(s) && Enabled(s, a)
    ensures Inv(Do(s, a))
  {
    var r := Do(s, a);
    match a
    case Begin(t, arena, l) =>
      forall v | 0 <= v < |r.threads| ensures ThreadOk(r, r.threads[v]) { assert ThreadOk(s, s.threads[v]); }
    case Load(t) => AttemptKeeps(s, t, s.threads[t].arena, s.threads[t].layout);
    case Exchange(t, spurious) => ExchangeKeeps(s, t, spurious);
    case ClearBucket(k) =>
      assert ArenaOk(s.arenas[k]);
      ArenaChangeKeeps(s, r, k);
  }

  lemma ExchangeKeeps(s: State, t: nat, spurious: bool)
    requires Inv(s) && Enabled(s, Exchange(t, spurious))
    ensures Inv(Do(s, Exchange(t, spurious)))
  {
    var Exchanging(k, l, seen, next) := s.threads[t];
    assert ThreadOk(s, s.threads[t]);
    if s.arenas[k].remaining == seen && !spurious {
      assert ArenaOk(s.arenas[k]);
      GrantKeepsArena(s.arenas[k], l, next);
      ArenaChangeKeeps(s, Do(s, Exchange(t, spurious)), k);
    } else {
      AttemptKeeps(s, t, k, l);
    }
  }

  lemma ArenaChangeKeeps(s: State, r: State, k: nat)
    requires Inv(s) && k < |s.arenas| && |r.arenas| == |s.arenas| && |r.threads| == |s.threads|
    requires r.arenas == s.arenas[k := r.arenas[k]] && ArenaOk(r.arenas[k]) && r.arenas[k].size == s.arenas[k].size
    requires forall t :: 0 <= t < |s.threads| ==> r.threads[t] == s.threads[t] || r.threads[t] == Ready
    ensures Inv(r)
  {
    forall v | 0 <= v < |r.threads| ensures ThreadOk(r, r.threads[v]) { assert ThreadOk(s, s.threads[v]); }
    forall j | 0 <= j < |r.arenas| ensures ArenaOk(r.arenas[j]) { assert ArenaOk(s.arenas[j]); }
  }

  predicate ValidRun(s: State, run: seq<Action>)
    decreases |run|, 0
  {
    |run| == 0 ||
    (ValidRun(s, run[..|run| - 1]) && Enabled(After(s, run[..|run| - 1]), run[|run| - 1]))
  }

  function After(s: State, run: seq<Action>): (r: State)
    requires ValidRun(s, run)
    ensures |r.arenas| == |s.arenas| && |r.threads| == |s.threads|
    decreases |run|, 1
  {
    if |run| == 0 then s else Do(After(s, run[..|run| - 1]), run[|run| - 1])
  }

  /** Areas fixed at start-up, pairwise apart, nothing handed out yet. */
  predicate Initial(s: State) {
    && (forall k :: 0 <= k < |s.arenas| ==>
          s.arenas[k].remaining == s.arenas[k].size < USIZE_LIMIT && s.arenas[k].blocks == [])
    && (forall t :: 0 <= t < |s.threads| ==> s.threads[t] == Ready)
    && AreasApart(s.arenas)
  }

  predicate AreasApart(arenas: seq<Arena>) {
    forall j, k :: 0 <= j < k < |arenas| ==>
      arenas[j].start + arenas[j].size <= arenas[k].start || arenas[k].start + arenas[k].size <= arenas[j].start
  }

  predicate SameAreas(s: State, r: State) {
    |r.arenas| == |s.arenas| &&
    forall k :: 0 <= k < |s.arenas| ==> r.arenas[k].start == s.arenas[k].start && r.arenas[k].size == s.arenas[k].size
  }

  lemma {:induction false} RunsKeep(s: State, run: seq<Action>)
    requires Initial(s) && ValidRun(s, run)
    ensures Inv(After(s, run)) && SameAreas(s, After(s, run))
  {
    if |run| > 0 {
      RunsKeep(s, run[..|run| - 1]);
      StepKeeps(After(s, run[..|run| - 1]), run[|run| - 1]);
    }
  }

  predicate Disjoint(startA: nat, a: Block, startB: nat, b: Block) {
    || startA + a.lo + a.layout.size <= startB + b.lo
    || startB + b.lo + b.layout.size <= startA + a.lo
  }

  /** In every reachable state, any two live blocks, of one area or of two, occupy disjoint
      addresses, and each lies inside its area at a multiple of its alignment. */
  lemma LiveBlocksDisjoint(s: State, run: seq<Action>, j: nat, x: nat, k: nat, y: nat)
    requires Initial(s) && ValidRun(s, run)
    requires j < |s.arenas| && x < |After(s, run).arenas[j].blocks|
    requires k < |s.arenas| && y < |After(s, run).arenas[k].blocks|
    ensures var r := After(s, run).arenas;
            && r[j].blocks[x].lo + r[j].blocks[x].layout.size <= r[j].size
            && r[j].blocks[x].layout.align > 0 && Remainder(r[j].blocks[x].lo, r[j].blocks[x].layout.align) == 0
            && (j != k || x != y ==> Disjoint(r[j].start, r[j].blocks[x], r[k].start, r[k].blocks[y]))
  {
    RunsKeep(s, run);
    BlocksApart(After(s, run).arenas, j, x, k, y);
  }

  lemma BlocksApart(r: seq<Arena>, j: nat, x: nat, k: nat, y: nat)
    requires AreasApart(r) && forall i :: 0 <= i < |r| ==> ArenaOk(r[i])
    requires j < |r| && x < |r[j].blocks| && k < |r| && y < |r[k].blocks|
    ensures r[j].blocks[x].lo + r[j].blocks[x].layout.size <= r[j].size
    ensures r[j].blocks[x].layout.align > 0 && Remainder(r[j].blocks[x].lo, r[j].blocks[x].layout.align) == 0
    ensures j != k || x != y ==> Disjoint(r[j].start, r[j].blocks[x], r[k].start, r[k].blocks[y])
  {
    assert ArenaOk(r[j]) && ArenaOk(r[k]);
    assert BlockOk(r[j], r[j].blocks[x]) && BlockOk(r[k], r[k].blocks[y]);
  }

  /** A request that fits beside what was granted since the last clear is never refused, whatever the
      interleaving. */
  lemma NoEarlyRefusal(s: State, run: seq<Action>, k: nat, l: Layout)
    requires Initial(s) && ValidRun(s, run) && k < |s.arenas| && l.Supported()
    requires Total(CostOf, After(s, run).arenas[k].blocks) + l.size <= s.arenas[k].size
    ensures var a := After(s, run).arenas[k];
            InRange(a) && Bump(a.remaining, l).Some?
  {
    RunsKeep(s, run);
    assert ArenaOk(After(s, run).arenas[k]);
    BumpShape(After(s, run).arenas[k].remaining, l);
  }

  // ----- What a thread gets -----

  /** The request a thread is working on. */
  predicate Requests(t: Thread, k: nat, l: Layout) {
    t != Ready && t.arena == k && t.layout == l
  }

  /** A block for the request has been handed out: the newest of its area, aligned, just below what was free
      before, with less than one alignment wasted. */
  predicate HandedOut(before: Arena, after: Arena, l: Layout) {
    && l.align > 0 && |after.blocks| == |before.blocks| + 1 && after.blocks[..|before.blocks|] == before.blocks
    && var b := after.blocks[|before.blocks|];
       && b.layout == l && b.lo == after.remaining && Remainder(b.lo, l.align) == 0
       && before.remaining - l.size - (l.align - 1) <= b.lo <= before.remaining - l.size
  }

  /** A step of a thread on its request: the block is handed out, or the request is larger than what the
      thread has just found free, or the thread is about to try again with what it has just found. */
  lemma ThreadStep(s: State, a: Action, t: nat, k: nat, l: Layout)
    requires Inv(s) && (a == Load(t) || (a.Exchange? && a.t == t)) && Enabled(s, a) && Requests(s.threads[t], k, l)
    ensures var r := Do(s, a);
            && k < |s.arenas|
            && if r.threads[t] == Ready
               then HandedOut(s.arenas[k], r.arenas[k], l) || (l.size > s.arenas[k].remaining && r.arenas == s.arenas)
               else Requests(r.threads[t], k, l) && r.arenas == s.arenas && l.size <= s.arenas[k].remaining
                    && r.threads[t].Exchanging? && !Stale(r.arenas, r.threads[t])
  {
    assert ThreadOk(s, s.threads[t]) && ArenaOk(s.arenas[k]);
    BumpShape(s.arenas[k].remaining, l);
  }

  /** No thread's request is settled by anybody else. */
  lemma OthersLeaveRequests(s: State, a: Action, t: nat)
    requires Enabled(s, a) && t < |s.threads| && s.threads[t] != Ready
    requires !(a == Load(t) || (a.Exchange? && a.t == t))
    ensures Do(s, a).threads[t] == s.threads[t]
  {
  }

  /** In every run a request is answered by a block of its own, or refused because it is larger than what
      the thread has just found free.  One that fits beside the worst-case cost of what was handed out since
      the last clear is granted, or still being retried. */
  lemma RequestsAreAnswered(s: State, run: seq<Action>, a: Action, t: nat, k: nat, l: Layout)
    requires Initial(s) && ValidRun(s, run) && Enabled(After(s, run), a) && t < |s.threads|
    requires Requests(After(s, run).threads[t], k, l)
    ensures var u := After(s, run);
            var r := Do(u, a);
            && k < |u.arenas| && l.Supported()
            && (r.threads[t] == Ready ==>
                  HandedOut(u.arenas[k], r.arenas[k], l) || (l.size > u.arenas[k].remaining && r.arenas == u.arenas))
            && (r.threads[t] != Ready ==> Requests(r.threads[t], k, l))
            && (Total(CostOf, u.arenas[k].blocks) + l.size <= u.arenas[k].size ==>
                  HandedOut(u.arenas[k], r.arenas[k], l) || Requests(r.threads[t], k, l))
  {
    RunsKeep(s, run);
    var u := After(s, run);
    assert ThreadOk(u, u.threads[t]);
    assert ArenaOk(u.arenas[k]);
    if a == Load(t) || (a.Exchange? && a.t == t) {
      ThreadStep(u, a, t, k, l);
    } else {
      OthersLeaveRequests(u, a, t);
    }
  }

  /** A thread that nobody interferes with has its block after one load and one exchange. */
  lemma UndisturbedRequest(s: State, t: nat, k: nat, l: Layout)
    requires Inv(s) && t < |s.threads| && s.threads[t] == Ready
    requires k < |s.arenas| && l.Supported() && l.size <= s.arenas[k].remaining
    ensures Enabled(s, Begin(t, k, l))
    ensures var s1 := Do(s, Begin(t, k, l));
            && Enabled(s1, Load(t)) && s1.arenas == s.arenas
            && var s2 := Do(s1, Load(t));
               && Enabled(s2, Exchange(t, false)) && s2.arenas == s.arenas
               && var s3 := Do(s2, Exchange(t, false));
                  s3.threads[t] == Ready && HandedOut(s.arenas[k], s3.arenas[k], l)
  {
    var s1 := Do(s, Begin(t, k, l));
    StepKeeps(s, Begin(t, k, l));
    assert ArenaOk(s.arenas[k]);
    ThreadStep(s1, Load(t), t, k, l);
    var s2 := Do(s1, Load(t));
    StepKeeps(s1, Load(t));
    BumpShape(s.arenas[k].remaining, l);
    ThreadStep(s2, Exchange(t, false), t, k, l);
  }

  // ----- Retries are paid for by progress -----

  /** A thread whose exchange is bound to fail. */
  predicate Stale(arenas: seq<Arena>, t: Thread) {
    t.Exchanging? && t.arena < |arenas| && arenas[t.arena].remaining != t.seen
  }

  function StaleWeight(arenas: seq<Arena>): Thread -> nat {
    t => if Stale(arenas, t) then 1 else 0
  }

  function StaleThreads(s: State): nat {
    Total(StaleWeight(s.arenas), s.threads)
  }

  /** An exchange that fails because another thread was faster. */
  predicate Loses(s: State, a: Action)
    requires Enabled(s, a)
  {
    a.Exchange? && !a.spurious && Stale(s.arenas, s.threads[a.t])
  }

  /** A step that moves a counter: a block is handed out or a bucket is cleared. */
  predicate MovesCounter(s: State, a: Action)
    requires Enabled(s, a)
  {
    a.ClearBucket? || (a.Exchange? && !a.spurious && !Stale(s.arenas, s.threads[a.t]))
  }

  ghost function Losses(s: State, run: seq<Action>): nat
    requires ValidRun(s, run)
  {
    if |run| == 0 then 0
    else Losses(s, run[..|run| - 1]) + if Loses(After(s, run[..|run| - 1]), run[|run| - 1]) then 1 else 0
  }

  ghost function Moves(s: State, run: seq<Action>): nat
    requires ValidRun(s, run)
  {
    if |run| == 0 then 0
    else Moves(s, run[..|run| - 1]) + if MovesCounter(After(s, run[..|run| - 1]), run[|run| - 1]) then 1 else 0
  }

  lemma StaleStep(s: State, a: Action)
    requires Enabled(s, a)
    ensures StaleThreads(Do(s, a)) <= |s.threads|
    ensures !MovesCounter(s, a) ==>
              StaleThreads(Do(s, a)) + (if Loses(s, a) then 1 else 0) <= StaleThreads(s)
  {
    var r := Do(s, a);
    TotalAtMost(StaleWeight(r.arenas), r.threads, 1);
    if !MovesCounter(s, a) {
      assert r.arenas == s.arenas && r.threads == s.threads[a.t := r.threads[a.t]];
      TotalUpdate(StaleWeight(s.arenas), s.threads, a.t, r.threads[a.t]);
      TotalAtLeast(StaleWeight(s.arenas), s.threads, a.t);
    }
  }

  /** The allocator is lock-free: however the threads interleave, exchanges are lost to other threads at
      most once per thread for each block handed out and each bucket cleared. */
  lemma {:induction false} RetriesArePaidFor(s: State, run: seq<Action>)
    requires Initial(s) && ValidRun(s, run)
    ensures Losses(s, run) + StaleThreads(After(s, run)) <= |s.threads| * Moves(s, run)
  {
    if |run| == 0 {
      TotalZero(StaleWeight(s.arenas), s.threads);
    } else {
      var before, a := run[..|run| - 1], run[|run| - 1];
      RetriesArePaidFor(s, before);
      StaleStep(After(s, before), a);
      assert |s.threads| * (Moves(s, before) + 1) == |s.threads| * Moves(s, before) + |s.threads|;
    }
  }

  // ----- Sequential use -----

  /** Serve requests one after the other; false as soon as one is refused. */
  function ServeAll(remaining: nat, requests: seq<Layout>): bool
    requires remaining < USIZE_LIMIT && forall i :: 0 <= i < |requests| ==> requests[i].Supported()
    decreases |requests|
  {
    |requests| == 0 ||
    (BumpShape(remaining, requests[0]);
     var next := Bump(remaining, requests[0]);
     next.Some? && ServeAll(next.value, requests[1..]))
  }

  function WorstCase(requests: seq<Layout>): nat {
    if |requests| == 0 then 0 else requests[0].size + requests[0].Waste() + WorstCase(requests[1..])
  }

  /** A cleared bucket serves every sequence of requests whose worst-case total fits in it. */
  lemma {:induction false} CapacityGuarantee(remaining: nat, requests: seq<Layout>)
    requires remaining < USIZE_LIMIT && forall i :: 0 <= i < |requests| ==> requests[i].Supported()
    requires WorstCase(requests) <= remaining
    ensures ServeAll(remaining, requests)
    decreases |requests|
  {
    if |requests| > 0 {
      BumpShape(remaining, requests[0]);
      CapacityGuarantee(Bump(remaining, requests[0]).value, requests[1..]);
    }
  }

  // ----- Where the buckets lie -----

  /** `initialize_buckets`: n areas of equal size, back to back from one mapping. */
  function Buckets(base: nat, n: nat, size: nat): (arenas: seq<Arena>)
    ensures |arenas| == n
    ensures forall i :: 0 <= i < n ==> arenas[i] == Arena(base + i * size, size, size, [])
  {
    seq(n, i requires 0 <= i < n => Arena(base + i * size, size, size, []))
  }

  /** Buckets carved from one mapping do not overlap; they are a state to start from. */
  lemma BucketsApart(base: nat, n: nat, size: nat, threads: seq<Thread>)
    requires size < USIZE_LIMIT && forall t :: 0 <= t < |threads| ==> threads[t] == Ready
    ensures Initial(State(Buckets(base, n, size), threads))
  {
    forall j, k | 0 <= j < k < n ensures base + j * size + size <= base + k * size {
      NextBucketBelow(j, k, size);
    }
  }

  lemma NextBucketBelow(j: nat, k: nat, size: nat)
    requires j < k
    ensures j * size + size <= k * size
  {
    ProductMonotone(j + 1, k, size);
  }

  /** The address handed out honours every supported alignment exactly when the area itself starts on
      a multiple of the largest one. */
  lemma AddressesAligned(a: Arena)
    requires 1 <= a.size < USIZE_LIMIT
    ensures StartAligned(a)
       <==> forall remaining: nat, l: Layout ::
              remaining <= a.size && l.Supported() && l.size >= 1 ==> GrantAligned(a, remaining, l)
  {
    if a.start % MAX_SUPPORTED_ALIGN == 0 {
      forall remaining: nat, l: Layout | remaining <= a.size && l.Supported() && l.size >= 1
        ensures GrantAligned(a, remaining, l)
      {
        AlignedStart(a, remaining, l);
      }
    } else {
      MisalignedStart(a);
    }
  }

  predicate GrantAligned(a: Arena, remaining: nat, l: Layout)
    requires remaining <= a.size < USIZE_LIMIT && l.Supported()
  {
    Bump(remaining, l).Some? ==> AlignedTo(a.start + Bump(remaining, l).value, l)
  }

  lemma AlignedStart(a: Arena, remaining: nat, l: Layout)
    requires remaining <= a.size < USIZE_LIMIT && l.Supported() && StartAligned(a)
    ensures GrantAligned(a, remaining, l)
  {
    BumpShape(remaining, l);
    if Bump(remaining, l).Some? {
      PowersDivide(a.start, l.align);
      SumOfMultiples(a.start, Bump(remaining, l).value, l.align);
    }
  }

  lemma PowersDivide(x: nat, align: nat)
    requires x % MAX_SUPPORTED_ALIGN == 0 && PowerOfTwo(align) && align <= MAX_SUPPORTED_ALIGN
    ensures Remainder(x, align) == 0
  {
    WordLimit();
    var k := Exponent(align);
    if k > 12 { Pow2Increases(12, k); }
    DivisibleByPowers(x, k, 12);
  }

  lemma MisalignedStart(a: Arena)
    requires 1 <= a.size < USIZE_LIMIT && !StartAligned(a)
    ensures LARGEST.Supported() && !GrantAligned(a, a.size, LARGEST)
  {
    BumpShape(a.size, LARGEST);
    KeepRemainder(a.start, Bump(a.size, LARGEST).value);
  }

  const LARGEST := Layout(1, MAX_SUPPORTED_ALIGN)

  lemma KeepRemainder(x: nat, y: nat)
    requires y % MAX_SUPPORTED_ALIGN == 0
    ensures (x + y) % MAX_SUPPORTED_ALIGN == x % MAX_SUPPORTED_ALIGN
  {
  }

  predicate AlignedTo(address: nat, l: Layout) {
    l.align > 0 && Remainder(address, l.align) == 0
  }

  lemma SumOfMultiples(x: nat, y: nat, m: nat)
    requires m > 0 && Remainder(x, m) == 0 && Remainder(y, m) == 0
    ensures Remainder(x + y, m) == 0
  {
    Division(x, m);
    Division(y, m);
    assert x + y == m * (x / m + y / m);
    UniqueRemainder(x + y, m, x / m + y / m, 0);
  }

  lemma {:induction false} DivisibleByPowers(x: nat, j: nat, k: nat)
    requires j <= k && x % Pow2(k) == 0
    ensures x % Pow2(j) == 0
  {
    if j < k {
      var p := Pow2(k - 1);
      Division(x, 2 * p);
      assert x == p * (2 * (x / (2 * p)));
      UniqueRemainder(x, p, 2 * (x / (2 * p)), 0);
      DivisibleByPowers(x, j, k - 1);
    }
  }

  predicate StartAligned(a: Arena) {
    a.start % MAX_SUPPORTED_ALIGN == 0
  }

  /** Every bucket starts aligned exactly when the bucket size is a multiple of the largest alignment
      (or there is at most one bucket). */
  lemma BucketStartsAligned(base: nat, n: nat, size: nat)
    requires base % MAX_SUPPORTED_ALIGN == 0
    ensures (forall i :: 0 <= i < n ==> StartAligned(Buckets(base, n, size)[i]))
       <==> n <= 1 || size % MAX_SUPPORTED_ALIGN == 0
  {
    var buckets := Buckets(base, n, size);
    if n > 1 && size % MAX_SUPPORTED_ALIGN != 0 {
      SecondBucketMisaligned(base, size);
      assert !StartAligned(buckets[1]);
    } else {
      forall i | 0 <= i < n ensures StartAligned(buckets[i]) {
        LaterBucketAligned(base, i, size);
      }
    }
  }

  lemma LaterBucketAligned(base: nat, i: nat, size: nat)
    requires base % MAX_SUPPORTED_ALIGN == 0 && (i == 0 || size % MAX_SUPPORTED_ALIGN == 0)
    ensures (base + i * size) % MAX_SUPPORTED_ALIGN == 0
  {
    if i > 0 {
      MultipleOfMultiple(i, size, MAX_SUPPORTED_ALIGN);
      SumOfMultiples(base, i * size, MAX_SUPPORTED_ALIGN);
    }
  }

  lemma SecondBucketMisaligned(base: nat, size: nat)
    requires base % MAX_SUPPORTED_ALIGN == 0 && size % MAX_SUPPORTED_ALIGN != 0
    ensures (base + 1 * size) % MAX_SUPPORTED_ALIGN != 0
  {
  }

  lemma MultipleOfMultiple(i: nat, x: nat, m: nat)
    requires m > 0 && x % m == 0
    ensures (i * x) % m == 0
  {
    Division(x, m);
    assert i * x == m * (i * (x / m));
    UniqueRemainder(i * x, m, i * (x / m), 0);
  }

  // ----- The retry loop as it runs -----

  datatype Allocation = Granted(address: nat) | Refused | Retrying

  /** The counter as last observed, after a number of failed exchanges. */
  function LastSeen(first: nat, found: seq<Option<nat>>): nat {
    if |found| == 0 then first
    else if found[|found| - 1].Some? then found[|found| - 1].value
    else LastSeen(first, found[..|found| - 1])
  }

  class Bucket {
    const start: nat
    const size: nat
    var remaining: nat

    ghost predicate Valid()
      reads this
    {
      remaining <= size < USIZE_LIMIT
    }

    constructor (start: nat, size: nat)
      requires size < USIZE_LIMIT
      ensures Valid() && this.start == start && this.size == size && remaining == size
    {
      this.start, this.size, this.remaining := start, size, size;
    }

    /** `try_alloc_help`, observed for any number of exchanges.  At the k-th exchange other threads have
        left the counter at `found[k]`, or the weak exchange fails spuriously (`None`).  A grant or a
        refusal is one bump of the counter as last observed; a loop that is still retrying has changed
        nothing, and each of its exchanges failed spuriously or found a counter other than the one it
        had read. */
    method TryAlloc(l: Layout, found: seq<Option<nat>>) returns (r: Allocation, ghost tries: nat)
      requires Valid() && PowerOfTwo(l.align)
      requires forall k :: 0 <= k < |found| && found[k].Some? ==> found[k].value <= size
      modifies this`remaining
      ensures Valid() && tries <= |found| && LastSeen(old(remaining), found[..tries]) <= size
      ensures var seen := LastSeen(old(remaining), found[..tries]);
              match r
              case Refused => remaining == seen && (l.Supported() ==> Bump(seen, l) == None)
              case Granted(address) =>
                l.Supported() && Bump(seen, l) == Some(remaining) && address == start + remaining
              case Retrying => remaining == seen && l.Supported() && tries == |found|
      ensures forall k :: 0 <= k < tries ==> found[k] != Some(LastSeen(old(remaining), found[..k]))
    {
      tries := 0;
      if l.align > MAX_SUPPORTED_ALIGN { return Refused, tries; }
      for k := 0 to |found|
        invariant Valid() && tries == k && remaining == LastSeen(old(remaining), found[..k])
        invariant forall j :: 0 <= j < k ==> found[j] != Some(LastSeen(old(remaining), found[..j]))
      {
        assert found[..k + 1][..k] == found[..k];
        var previous := remaining;
        var next := Attempt(previous, l);
        if next == None { return Refused, tries; }
        if found[k] == Some(previous) {
          remaining := next.value;
          return Granted(start + next.value), tries;
        }
        if found[k].Some? { remaining := found[k].value; }
        tries := k + 1;
      }
      assert found[..|found|] == found;
      r := Retrying;
    }

    /** The closure that the retry loop runs on each value it reads. */
    static method Attempt(previous: nat, l: Layout) returns (next: Option<nat>)
      requires previous < USIZE_LIMIT && l.Supported()
      ensures next == Bump(previous, l) && (next.Some? ==> next.value <= previous)
    {
      SupportedMask(l);
      BumpShape(previous, l);
      var alignMask := Not(l.align - 1, USIZE_BITS);
      if l.size > previous { return None; }
      next := Some(And(previous - l.size, alignMask));
    }

    method Clear()
      modifies this`remaining
      ensures remaining == size
    {
      remaining := size;
    }
  }
}

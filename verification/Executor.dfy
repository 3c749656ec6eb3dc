/** The executor's shared tables and the operations that change them in place.  The connection table
    is one flat array for all buckets; each operation is shown to be the per-bucket step of
    `Lifecycle` on its own bucket and to leave every other bucket alone. */
module Executor {
  import opened Index
  import opened Lifecycle
  import opened Words

  datatype ClaimResult = NoneFree | Took(b: nat)

  /** The bucket is done forever, has other tasks left, or its count would drop below zero. */
  datatype Completion = LastTask | OthersLeft | Underflow

  class Inner {
    const resources: IoResources
    const size: nat
    var refcounts: seq<nat>
    var futures: seq<bool>
    var connections: seq<Connection>
    var remaining: seq<nat>

    ghost predicate Valid()
      reads this
    {
      && |futures| == |refcounts| == |remaining|
      && |connections| == |refcounts| * resources.httpConnections
    }

    /** The connections of bucket b: its range of the flat table. */
    ghost function Connections(b: nat): seq<Connection>
      reads this
      requires Valid() && b < |refcounts|
    {
      RangeOf(connections, resources, |refcounts|, b)
    }

    /** Bucket b as `Lifecycle` sees it, with its worker at the given point. */
    ghost function View(b: nat, poll: Poll): Bucket
      reads this
      requires Valid() && b < |refcounts|
    {
      Bucket(refcounts[b], futures[b], Connections(b), remaining[b], poll)
    }

    /** The first n buckets, with their workers at the given points. */
    ghost function Buckets(polls: seq<Poll>, n: nat): (r: seq<Bucket>)
      reads this
      requires Valid() && n <= |polls| == |refcounts|
      ensures |r| == n && forall b :: 0 <= b < n ==> r[b] == View(b, polls[b])
    {
      if n == 0 then [] else Buckets(polls, n - 1) + [View(n - 1, polls[n - 1])]
    }

    /** The whole state of the lifecycle. */
    ghost function Life(main: Main, polls: seq<Poll>): Lifecycle.State
      reads this
      requires Valid() && |polls| == |refcounts|
    {
      Lifecycle.State(size, Buckets(polls, |polls|), main)
    }

    constructor (resources: IoResources, size: nat, n: nat)
      ensures Valid() && |refcounts| == n && this.resources == resources && this.size == size
      ensures forall b :: 0 <= b < n ==> refcounts[b] == 0 && !futures[b] && remaining[b] == size
      ensures forall c :: 0 <= c < |connections| ==> connections[c] == Empty
    {
      this.resources, this.size := resources, size;
      refcounts := seq(n, _ => 0);
      futures := seq(n, _ => false);
      connections := seq(n * resources.httpConnections, _ => Empty);
      remaining := seq(n, _ => size);
    }

    /** `try_claim`: the first bucket whose count is zero and whose lock is not busy. */
    method TryClaim(busy: set<nat>) returns (r: ClaimResult)
      requires Valid()
      modifies this`refcounts
      ensures Valid() && |refcounts| == |old(refcounts)|
      ensures r == NoneFree <==> forall b :: 0 <= b < |refcounts| ==> b in busy || old(refcounts)[b] != 0
      ensures r == NoneFree ==> refcounts == old(refcounts)
      ensures r != NoneFree ==>
                && r.b < |refcounts| && r.b !in busy
                && (forall b :: 0 <= b < r.b ==> b in busy || old(refcounts)[b] != 0)
                && BucketReady(old(View(r.b, Resting)), Claim(r.b))
                && View(r.b, Resting) == DoBucket(size, old(View(r.b, Resting)), Claim(r.b))
                && (forall b :: 0 <= b < |refcounts| && b != r.b ==> View(b, Resting) == old(View(b, Resting)))
    {
      for b := 0 to |refcounts|
        invariant refcounts == old(refcounts)
        invariant forall c :: 0 <= c < b ==> c in busy || refcounts[c] != 0
      {
        if b !in busy && refcounts[b] == 0 {
          refcounts := refcounts[b := 1];
          return Took(b);
        }
      }
      r := NoneFree;
    }

    /** `set`: the accept loop's step from having claimed a bucket to accepting again, or to its
        assertion failing when a future was there already. */
    method SetFuture(b: nat, ghost polls: seq<Poll>) returns (ok: bool)
      requires Valid() && b < |refcounts| == |polls|
      modifies this`futures
      ensures Valid()
      ensures Enabled(old(Life(Claimed(b), polls)), Action.SetFuture)
      ensures Life(if ok then Accepting else SetFailed, polls) == Do(old(Life(Claimed(b), polls)), Action.SetFuture)
      ensures old(Inv(Life(Claimed(b), polls))) ==> ok && Inv(Life(Accepting, polls))
    {
      ghost var before := Life(Claimed(b), polls);
      ok := !futures[b];
      futures := futures[b := true];
      assert Buckets(polls, |polls|) == before.buckets[b := View(b, polls[b])];
      if Inv(before) { StepKeeps(before, Action.SetFuture); }
    }

    /** The end of a task in `run_bucket`: give up its count, and reset the memory with the last. */
    method CompleteTask(b: nat) returns (r: Completion)
      requires Valid() && b < |refcounts|
      modifies this`refcounts, this`remaining
      ensures Valid() && |refcounts| == |old(refcounts)|
      ensures r == (match old(refcounts)[b] case 0 => Underflow case 1 => LastTask case _ => OthersLeft)
      ensures BucketReady(old(View(b, Completing)), Complete(b))
      ensures View(b, if r == Underflow then Stuck else Resting)
           == DoBucket(size, old(View(b, Completing)), Complete(b))
      ensures forall c :: 0 <= c < |refcounts| && c != b ==> View(c, Resting) == old(View(c, Resting))
    {
      if refcounts[b] == 1 {
        remaining := remaining[b := size];
        refcounts := refcounts[b := 0];
        r := LastTask;
      } else if refcounts[b] == 0 {
        r := Underflow;
      } else {
        refcounts := refcounts[b := refcounts[b] - 1];
        r := OthersLeft;
      }
    }

    /** `handshake` looks for the first empty connection of its bucket whose lock is not busy. */
    method FindFree(b: nat, busy: set<nat>) returns (found: bool, c: nat)
      requires Valid() && b < |refcounts|
      ensures found ==> c < |Connections(b)| && c !in busy && Connections(b)[c] == Empty
      ensures forall k :: 0 <= k < (if found then c else |Connections(b)|) ==> k in busy || Connections(b)[k] != Empty
    {
      c := 0;
      while c < resources.httpConnections
        invariant c <= |Connections(b)|
        invariant forall k :: 0 <= k < c ==> k in busy || Connections(b)[k] != Empty
      {
        RangeAt(connections, resources, |refcounts|, b, c);
        if c !in busy && connections[b * resources.httpConnections + c] == Empty { return true, c; }
        c := c + 1;
      }
      found := false;
    }

    /** ... and reserves it. */
    method ReserveConnection(b: nat, busy: set<nat>) returns (found: bool, c: nat)
      requires Valid() && b < |refcounts|
      modifies this`connections
      ensures Valid()
      ensures !found ==> connections == old(connections)
      ensures !found ==> forall k :: 0 <= k < |Connections(b)| ==> k in busy || Connections(b)[k] != Empty
      ensures found ==>
                && BucketReady(old(View(b, Counted)), Reserve(b, c))
                && View(b, PollingMain) == DoBucket(size, old(View(b, Counted)), Reserve(b, c))
      ensures forall d :: 0 <= d < |refcounts| && d != b ==> View(d, Resting) == old(View(d, Resting))
    {
      found, c := FindFree(b, busy);
      if found {
        RangeAt(connections, resources, |refcounts|, b, c);
        connections := connections[b * resources.httpConnections + c := Reserved];
        RangeUpdate(old(connections), resources, |refcounts|, b, c, Reserved);
        forall d | 0 <= d < |refcounts| && d != b ensures Connections(d) == old(Connections(d)) {
          RangeElsewhere(old(connections), connections, resources, |refcounts|, b, d);
        }
      }
    }

    /** `cleanup_bucket`: empty every connection of the bucket, drop its main future, reset its memory
        and then its count.  No other bucket is touched. */
    method CleanupBucket(b: nat)
      requires Valid() && b < |refcounts|
      modifies this
      ensures Valid() && |refcounts| == |old(refcounts)|
      ensures View(b, Resting) == CleanedUp(size, old(View(b, Cleaning(0))), b)
      ensures var k := View(b, Resting);
              k.refcount == 0 && !k.future && k.remaining == size && AllEmpty(k)
      ensures forall c :: 0 <= c < |refcounts| && c != b ==> View(c, Resting) == old(View(c, Resting))
    {
      EmptyConnections(b);
      ResetBucket(b);
    }

    method ResetBucket(b: nat)
      requires Valid() && b < |refcounts|
      modifies this`futures, this`remaining, this`refcounts
      ensures Valid() && |refcounts| == |old(refcounts)|
      ensures futures == old(futures)[b := false]
      ensures remaining == old(remaining)[b := size]
      ensures refcounts == old(refcounts)[b := 0]
      ensures forall c :: 0 <= c < |refcounts| ==> Connections(c) == old(Connections(c))
    {
      futures := futures[b := false];
      remaining := remaining[b := size];
      refcounts := refcounts[b := 0];
    }

    method EmptyConnections(b: nat)
      requires Valid() && b < |refcounts|
      modifies this`connections
      ensures Valid()
      ensures forall c :: 0 <= c < |Connections(b)| ==> Connections(b)[c] == Empty
      ensures forall d :: 0 <= d < |refcounts| && d != b ==> Connections(d) == old(Connections(d))
    {
      var first := b * resources.httpConnections;
      RangeInTable(resources, b, |refcounts|);
      for i := first to first + resources.httpConnections
        invariant |connections| == |old(connections)|
        invariant forall k :: first <= k < i ==> connections[k] == Empty
        invariant forall k :: 0 <= k < |connections| && !(first <= k < i) ==> connections[k] == old(connections)[k]
      {
        connections := connections[i := Empty];
      }
      forall c | 0 <= c < |Connections(b)| ensures Connections(b)[c] == Empty {
        RangeAt(connections, resources, |refcounts|, b, c);
      }
      forall d | 0 <= d < |refcounts| && d != b ensures Connections(d) == old(Connections(d)) {
        RangeElsewhere(old(connections), connections, resources, |refcounts|, b, d);
      }
    }
  }

  lemma RangeInTable(r: IoResources, b: nat, n: nat)
    requires b < n
    ensures b * r.httpConnections + r.httpConnections <= n * r.httpConnections
  {
    ProductMonotone(b + 1, n, r.httpConnections);
  }

  /** The part of a connection table for n buckets that belongs to bucket b. */
  function RangeOf(table: seq<Connection>, r: IoResources, n: nat, b: nat): (range: seq<Connection>)
    requires b < n && |table| == n * r.httpConnections
    ensures |range| == r.httpConnections
  {
    RangeInTable(r, b, n);
    table[b * r.httpConnections..b * r.httpConnections + r.httpConnections]
  }

  lemma RangeAt(table: seq<Connection>, r: IoResources, n: nat, b: nat, c: nat)
    requires b < n && |table| == n * r.httpConnections && c < r.httpConnections
    ensures b * r.httpConnections + c < |table|
    ensures RangeOf(table, r, n, b)[c] == table[b * r.httpConnections + c]
  {
    RangeInTable(r, b, n);
  }

  lemma RangeUpdate(table: seq<Connection>, r: IoResources, n: nat, b: nat, c: nat, x: Connection)
    requires b < n && |table| == n * r.httpConnections && c < r.httpConnections
    requires b * r.httpConnections + c < |table|
    ensures RangeOf(table[b * r.httpConnections + c := x], r, n, b) == RangeOf(table, r, n, b)[c := x]
  {
    RangeInTable(r, b, n);
    SliceUpdate(table, b * r.httpConnections, b * r.httpConnections + r.httpConnections, c, x);
  }

  lemma SliceUpdate(table: seq<Connection>, lo: nat, hi: nat, c: nat, x: Connection)
    requires lo + c < hi <= |table|
    ensures table[lo + c := x][lo..hi] == table[lo..hi][c := x]
  {
  }

  /** A change within one bucket's range does not show in another's. */
  lemma RangeElsewhere(before: seq<Connection>, after: seq<Connection>, r: IoResources, n: nat, b: nat, d: nat)
    requires b < n && d < n && b != d && |before| == |after| == n * r.httpConnections
    requires forall k :: 0 <= k < |before| && !InHttpConnections(r, b, k) ==> after[k] == before[k]
    ensures RangeOf(after, r, n, d) == RangeOf(before, r, n, d)
  {
    RangesApart(r, b, d);
    RangeInTable(r, d, n);
    forall k | 0 <= k < r.httpConnections ensures RangeOf(after, r, n, d)[k] == RangeOf(before, r, n, d)[k] {
      assert !InHttpConnections(r, b, d * r.httpConnections + k);
    }
  }

  /** The connection ranges of two buckets do not meet. */
  lemma RangesApart(r: IoResources, b: nat, d: nat)
    requires b != d
    ensures b * r.httpConnections + r.httpConnections <= d * r.httpConnections
         || d * r.httpConnections + r.httpConnections <= b * r.httpConnections
  {
    if b < d { RangeInTable(r, b, d); } else { RangeInTable(r, d, b); }
  }
}

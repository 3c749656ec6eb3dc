/** The bit-level queue slot, as an object changed in place by atomic operations.  Each method is
    shown to act on the two flags and the set of waiting offsets as the transition system of
    `BucketQueue` assumes; what other threads do between two atomic operations is a parameter. */
module QueueSlots {
  import opened Words
  import opened BucketQueue
  import opened Index

  const ENQUEUED_BIT: nat := 1
  const IN_PROGRESS_BIT: nat := 2
  const JOBS_WIDTH: nat := 64

  datatype NextStep = Done | GoAgain | AssertionFailed
  datatype Dequeued = Nothing | Offset(o: nat)

  ghost function Jobs(mask: nat): set<nat> {
    set i: nat | i < JOBS_WIDTH && Bit(mask, i)
  }

  ghost function ViewOf(flags: nat, mask: nat): Slot {
    Slot(Bit(flags, 0), Bit(flags, 1), Jobs(mask))
  }

  /** The flag byte is one of four values, told apart by its two bits. */
  lemma FlagValues(flags: nat)
    requires flags < 4
    ensures flags == (if Bit(flags, 0) then ENQUEUED_BIT else 0) + (if Bit(flags, 1) then IN_PROGRESS_BIT else 0)
    ensures Or(flags, ENQUEUED_BIT) == (if Bit(flags, 0) then flags else flags + ENQUEUED_BIT) < 4
    ensures And(flags, ENQUEUED_BIT) != 0 <==> Bit(flags, 0)
    ensures And(flags, IN_PROGRESS_BIT) != 0 <==> Bit(flags, 1)
  {
    assert Bit(flags, 1) == Bit(flags / 2, 0);
    BitOfOr(flags, ENQUEUED_BIT, 0);
    BitOfOr(flags, ENQUEUED_BIT, 1);
    assert flags == 0 || flags == 1 || flags == 2 || flags == 3;
  }

  lemma MaskBounded(offset: nat)
    requires offset < JOBS_WIDTH
    ensures Pow2(offset) < Pow2(JOBS_WIDTH)
  {
    Pow2Increases(offset, JOBS_WIDTH);
  }

  /** `fetch_or` of a one-bit mask adds that offset; the masked old value tells whether it is new. */
  lemma OrAddsJob(mask: nat, offset: nat)
    requires mask < Pow2(JOBS_WIDTH) && offset < JOBS_WIDTH
    ensures Or(mask, Pow2(offset)) < Pow2(JOBS_WIDTH)
    ensures Jobs(Or(mask, Pow2(offset))) == Jobs(mask) + {offset}
    ensures And(mask, Pow2(offset)) == 0 <==> offset !in Jobs(mask)
  {
    MaskBounded(offset);
    Bounded(mask, Pow2(offset), JOBS_WIDTH);
    forall i: nat ensures Bit(Or(mask, Pow2(offset)), i) <==> Bit(mask, i) || i == offset {
      BitOfOr(mask, Pow2(offset), i);
      BitOfPow2(offset, i);
    }
    BitOfAnd(mask, Pow2(offset), offset);
    BitOfPow2(offset, offset);
    if And(mask, Pow2(offset)) == 0 {
      ZeroHasNoBits(offset);
    } else {
      var i := TrailingZeros(And(mask, Pow2(offset)));
      TrailingZerosIsLowest(And(mask, Pow2(offset)));
      BitOfAnd(mask, Pow2(offset), i);
      BitOfPow2(offset, i);
    }
  }

  /** `fetch_and` with the complement of a one-bit mask removes that offset and no other. */
  lemma AndRemovesJob(mask: nat, offset: nat)
    requires mask < Pow2(JOBS_WIDTH) && offset < JOBS_WIDTH
    ensures Pow2(offset) < Pow2(JOBS_WIDTH)
    ensures And(mask, Not(Pow2(offset), JOBS_WIDTH)) < Pow2(JOBS_WIDTH)
    ensures Jobs(And(mask, Not(Pow2(offset), JOBS_WIDTH))) == Jobs(mask) - {offset}
  {
    MaskBounded(offset);
    var keep := Not(Pow2(offset), JOBS_WIDTH);
    Bounded(mask, keep, JOBS_WIDTH);
    forall i: nat | i < JOBS_WIDTH ensures Bit(And(mask, keep), i) <==> Bit(mask, i) && i != offset {
      BitOfAnd(mask, keep, i);
      BitOfNot(Pow2(offset), JOBS_WIDTH, i);
      BitOfPow2(offset, i);
    }
  }

  /** The mask has a bit for each of up to 64 tasks of a bucket. */
  lemma MaskIsWideEnough(r: IoResources, o: nat)
    requires r.Supported() && o < r.PerBucket()
    ensures o < JOBS_WIDTH && JOBS_WIDTH == 64
  {
  }

  /** The lowest set bit of a non-zero mask is the lowest waiting offset. */
  lemma LowestJob(mask: nat)
    requires mask < Pow2(JOBS_WIDTH)
    ensures mask == 0 <==> Jobs(mask) == {}
    ensures mask != 0 ==> Jobs(mask) != {} && TrailingZeros(mask) == Lowest(Jobs(mask))
  {
    if mask == 0 {
      forall i: nat ensures !Bit(mask, i) { ZeroHasNoBits(i); }
    } else {
      TrailingZerosIsLowest(mask);
      BoundedBits(mask, JOBS_WIDTH, TrailingZeros(mask));
      assert TrailingZeros(mask) in Jobs(mask);
    }
  }

  /** The offsets of a union of masks. */
  lemma OrJoinsJobs(mask: nat, more: nat)
    requires mask < Pow2(JOBS_WIDTH) && more < Pow2(JOBS_WIDTH)
    ensures Or(mask, more) < Pow2(JOBS_WIDTH)
    ensures Jobs(Or(mask, more)) == Jobs(mask) + Jobs(more)
  {
    Bounded(mask, more, JOBS_WIDTH);
    forall i: nat ensures Bit(Or(mask, more), i) <==> Bit(mask, i) || Bit(more, i) {
      BitOfOr(mask, more, i);
    }
  }

  class QueueSlot {
    var flags: nat
    var jobs: nat

    ghost predicate Valid()
      reads this
    {
      flags < 4 && jobs < Pow2(JOBS_WIDTH)
    }

    ghost function View(): Slot
      reads this
    {
      ViewOf(flags, jobs)
    }

    constructor ()
      ensures Valid() && View() == Slot(false, false, {})
    {
      flags, jobs := 0, 0;
      new;
      LowestJob(0);
      ZeroHasNoBits(1);
    }

    method CompareExchangeFlags(current: nat, replacement: nat) returns (ok: bool, seen: nat)
      modifies this`flags
      ensures seen == old(flags) && ok == (old(flags) == current)
      ensures flags == if ok then replacement else old(flags)
    {
      seen := flags;
      ok := flags == current;
      if ok { flags := replacement; }
    }

    method TryProcess() returns (ok: bool)
      requires Valid()
      modifies this`flags
      ensures Valid() && ok == (old(View()).enqueued && !old(View()).inProgress)
      ensures View() == if ok then old(View()).(enqueued := false, inProgress := true) else old(View())
    {
      FlagValues(flags);
      var seen;
      ok, seen := CompareExchangeFlags(ENQUEUED_BIT, IN_PROGRESS_BIT);
      FlagValues(IN_PROGRESS_BIT);
    }

    method MarkEnqueued() returns (wasEnqueued: bool, wasInProgress: bool)
      requires Valid()
      modifies this`flags
      ensures Valid() && wasEnqueued == old(View()).enqueued && wasInProgress == old(View()).inProgress
      ensures View() == old(View()).(enqueued := true)
    {
      FlagValues(flags);
      var seen := flags;
      flags := Or(flags, ENQUEUED_BIT);
      FlagValues(flags);
      wasEnqueued := And(seen, ENQUEUED_BIT) != 0;
      wasInProgress := And(seen, IN_PROGRESS_BIT) != 0;
    }

    /** The first operation of `helper`: set the job's bit and learn whether it was clear. */
    method PostJob(offset: nat) returns (isNew: bool)
      requires Valid() && offset < JOBS_WIDTH
      modifies this`jobs
      ensures Valid() && isNew == (offset !in old(View()).jobs)
      ensures View() == old(View()).(jobs := old(View()).jobs + {offset})
    {
      OrAddsJob(jobs, offset);
      var mask := Pow2(offset);
      var oldJobs := jobs;
      jobs := Or(jobs, mask);
      isNew := And(oldJobs, mask) == 0;
    }

    /** Take the lowest job; `others` is what other threads post between the load and the clear. */
    method Dequeue(others: nat) returns (r: Dequeued)
      requires Valid() && others < Pow2(JOBS_WIDTH)
      modifies this`jobs
      ensures Valid()
      ensures r == Nothing <==> old(View()).jobs == {}
      ensures r == Nothing ==> View() == old(View())
      ensures r != Nothing ==> r.o == Lowest(old(View()).jobs)
      ensures r != Nothing ==> View() == old(View()).(jobs := old(View()).jobs + Jobs(others) - {r.o})
    {
      LowestJob(jobs);
      var value := jobs;
      if value == 0 { return Nothing; }
      var index := TrailingZeros(value);
      TrailingZerosIsLowest(value);
      BoundedBits(value, JOBS_WIDTH, index);
      OrJoinsJobs(jobs, others);
      jobs := Or(jobs, others);
      AndRemovesJob(jobs, index);
      jobs := And(jobs, Not(Pow2(index), JOBS_WIDTH));
      r := Offset(index);
    }

    /** Release the slot.  `marks[k]` says whether some enqueuer sets ENQUEUED just before the k-th
        exchange.  Whatever it says, two rounds suffice for a slot in progress, and the slot is left
        free exactly when nobody had marked it by the second exchange.  The assertion fails exactly
        when the slot was not in progress. */
    method DoneWithBucket(marks: seq<bool>) returns (r: NextStep)
      requires Valid() && |marks| == 4
      modifies this`flags
      ensures Valid() && (r == AssertionFailed <==> !old(View()).inProgress)
      ensures r == Done <==> old(View()).inProgress && !old(View()).enqueued && !marks[0] && !marks[1]
      ensures r != AssertionFailed ==> View() == old(View()).(enqueued := false, inProgress := r == GoAgain)
      ensures r == AssertionFailed ==> View() == old(View()).(enqueued := old(View()).enqueued || marks[0])
    {
      for round := 0 to 2
        invariant Valid() && jobs == old(jobs)
        invariant round == 0 ==> View() == old(View())
        invariant round > 0 ==> View().inProgress && View().enqueued && old(View()).inProgress
        invariant round > 0 ==> old(View()).enqueued || marks[0] || marks[1]
        invariant round < 2
      {
        if marks[2 * round] { var _, _ := MarkEnqueued(); }
        FlagValues(flags);
        var again, state := CompareExchangeFlags(ENQUEUED_BIT + IN_PROGRESS_BIT, IN_PROGRESS_BIT);
        FlagValues(flags);
        if again { return GoAgain; }
        if state != IN_PROGRESS_BIT { return AssertionFailed; }
        if marks[2 * round + 1] { var _, _ := MarkEnqueued(); }
        FlagValues(flags);
        var cleared, _ := CompareExchangeFlags(IN_PROGRESS_BIT, 0);
        FlagValues(flags);
        if cleared { return Done; }
      }
      assert false;
      r := Done;
    }
  }
}

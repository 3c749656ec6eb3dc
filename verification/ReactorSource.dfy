/** A source's two trigger flags and two waker slots, changed in place under the source's lock, and
    tied to the steps of the transition system. */
module ReactorSource {
  import opened Options
  import opened Reactor

  function Slot(d: Direction): nat { if d == Read then 0 else 1 }

  /** `Retrying`: the operation blocked in every turn so far and the loop goes on. */
  datatype Polled = Pending | Ready | Retrying

  /** One turn of `poll_io`: the events the reactor handles while the lock is free, and what the I/O
      operation answers if it gets that far. */
  datatype Turn = Turn(events: seq<Event>, result: IoResult)

  class SourceCell {
    var triggered: seq<bool>
    var interest: seq<Option<Waker>>

    ghost predicate Valid()
      reads this
    {
      |triggered| == 2 && |interest| == 2
    }

    /** The cell holds the flags and wakers of the given source of the transition system. */
    ghost predicate Shows(src: Source)
      reads this
      requires Valid()
    {
      forall d :: triggered[Slot(d)] == Chan(src, d).triggered && interest[Slot(d)] == Chan(src, d).interest
    }

    constructor ()
      ensures Valid() && triggered == [false, false] && interest == [None, None]
    {
      triggered, interest := [false, false], [None, None];
    }

    /** `poll_ready`: the task's steps from its first look at the trigger to its first try or to sleep. */
    method PollReady(d: Direction, w: Waker, ghost src: Source) returns (ready: bool)
      requires Valid() && Shows(src) && Chan(src, d).task == Inspecting(w)
      modifies this`interest
      ensures Valid() && Shows(ReadySteps(src, d))
      ensures Chan(ReadySteps(src, d), d).task == if ready then Trying(w) else Parked(w, false)
      ensures ready == triggered[Slot(d)]
      ensures interest == if ready then old(interest) else old(interest)[Slot(d) := Some(w)]
    {
      if triggered[Slot(d)] { return true; }
      if interest[Slot(d)] != Some(w) {
        interest := interest[Slot(d) := Some(w)];
      }
      ready := triggered[Slot(d)];
    }

    /** `clear_trigger`, and with it the end of a turn: the task goes back to asking for the lock. */
    method ClearTrigger(d: Direction, ghost src: Source)
      requires Valid() && Shows(src) && Chan(src, d).task.Clearing?
      modifies this`triggered
      ensures Valid() && Shows(ProceedOn(src, d))
    {
      triggered := triggered[Slot(d) := false];
    }

    /** The event loop's treatment of one event: for each direction it concerns, take the waker and set
        the trigger.  This is what the four stages of the transition system add up to. */
    method HandleEvent(e: Event, ghost src: Source) returns (wakers: seq<Waker>)
      requires Valid() && Shows(src)
      modifies this
      ensures Valid() && Shows(AllStages(src, e).0) && wakers == AllStages(src, e).1
      ensures forall d ::
                if Concerns(e, e.index, d) then triggered[Slot(d)] && interest[Slot(d)] == None
                else triggered[Slot(d)] == old(triggered)[Slot(d)] && interest[Slot(d)] == old(interest)[Slot(d)]
    {
      wakers := [];
      if e.readable {
        if interest[0].Some? { wakers := wakers + [interest[0].value]; }
        interest := interest[0 := None];
        triggered := triggered[0 := true];
      }
      if e.writable {
        if interest[1].Some? { wakers := wakers + [interest[1].value]; }
        interest := interest[1 := None];
        triggered := triggered[1 := true];
      }
    }

    method HandleEvents(events: seq<Event>, ghost src: Source)
      requires Valid() && Shows(src)
      modifies this
      ensures Valid() && Shows(AllHandled(src, events))
    {
      for k := 0 to |events|
        invariant Valid() && Shows(AllHandled(src, events[..k]))
      {
        assert events[..k + 1][..k] == events[..k];
        var _ := HandleEvent(events[k], AllHandled(src, events[..k]));
      }
      assert events[..|events|] == events;
    }

    /** `poll_io`, observed for any number of turns, with interference: each turn starts after the reactor
        has handled some events.  The task has then taken exactly the steps of the transition system.
        When it returns Pending its waker is stored and the trigger is clear, so the next event for this
        direction will find it. */
    method PollIo(d: Direction, w: Waker, turns: seq<Turn>, ghost src: Source) returns (r: Polled)
      requires Valid() && Shows(src) && src.phase != Absent && Chan(src, d).task == Locking(w)
      modifies this
      ensures Valid() && Shows(Turns(src, d, turns))
      ensures Chan(Turns(src, d, turns), d).task ==
              match r case Pending => Parked(w, false) case Ready => Idle case Retrying => Locking(w)
      ensures r == Pending ==> interest[Slot(d)] == Some(w) && !triggered[Slot(d)]
      ensures r == Ready ==> triggered[Slot(d)]
    {
      ghost var now := src;
      for k := 0 to |turns|
        invariant Valid() && Shows(now) && now.phase != Absent && Chan(now, d).task == Locking(w)
        invariant Turns(now, d, turns[k..]) == Turns(src, d, turns)
      {
        assert turns[k..][1..] == turns[k + 1..];
        ghost var asked := AcquireOn(AllHandled(now, turns[k].events), d);
        HandleEvents(turns[k].events, now);
        var ready := PollReady(d, w, asked);
        if !ready { return Pending; }
        now := TryOn(ReadySteps(asked, d), d, turns[k].result);
        if turns[k].result.Completed? { return Ready; }
        ClearTrigger(d, now);
        now := ProceedOn(now, d);
      }
      r := Retrying;
    }
  }

  /** The four stages of handling an event, one after the other. */
  function AllStages(src: Source, e: Event): (r: (Source, seq<Waker>))
    ensures r.0.phase == src.phase && forall d :: Chan(r.0, d).task == Chan(src, d).task
  {
    var (s1, w1) := HandleStage(src, e, 0);
    var (s2, w2) := HandleStage(s1, e, 1);
    var (s3, w3) := HandleStage(s2, e, 2);
    var (s4, w4) := HandleStage(s3, e, 3);
    (s4, w1 + w2 + w3 + w4)
  }

  function AllHandled(src: Source, events: seq<Event>): (t: Source)
    ensures t.phase == src.phase && forall d :: Chan(t, d).task == Chan(src, d).task
  {
    if |events| == 0 then src
    else AllStages(AllHandled(src, events[..|events| - 1]), events[|events| - 1]).0
  }

  /** A task's steps from `Inspecting` on, up to its operation or to sleep. */
  function ReadySteps(src: Source, d: Direction): (t: Source)
    requires Chan(src, d).task.Inspecting?
    ensures t.phase == src.phase
    ensures var c := Chan(t, d);
            if c.triggered then c.task == Trying(Chan(src, d).task.w)
            else c.task == Parked(Chan(src, d).task.w, false) && c.interest == Some(c.task.w) && t.holder == Free
  {
    var looked := ProceedOn(src, d);
    if Chan(looked, d).task.Trying? then looked else ProceedOn(ProceedOn(looked, d), d)
  }

  /** A task's steps through any number of turns of `poll_io`, until it sleeps or its operation does not
      block. */
  function Turns(src: Source, d: Direction, turns: seq<Turn>): Source
    requires src.phase != Absent && Chan(src, d).task.Locking?
    decreases |turns|
  {
    if |turns| == 0 then src
    else
      var looked := ReadySteps(AcquireOn(AllHandled(src, turns[0].events), d), d);
      if Chan(looked, d).task.Parked? then looked
      else
        var tried := TryOn(looked, d, turns[0].result);
        if turns[0].result.Completed? then tried else Turns(ProceedOn(tried, d), d, turns[1..])
  }

  // ----- Turns are paid for by events -----

  /** Some event of a turn concerns the direction. */
  predicate Disturbed(turn: Turn, d: Direction) {
    exists k :: 0 <= k < |turn.events| && Concerns(turn.events[k], turn.events[k].index, d)
  }

  lemma {:induction false} UndisturbedStays(src: Source, events: seq<Event>, d: Direction)
    requires forall k :: 0 <= k < |events| ==> !Concerns(events[k], events[k].index, d)
    ensures Chan(AllHandled(src, events), d) == Chan(src, d)
  {
    if |events| > 0 {
      UndisturbedStays(src, events[..|events| - 1], d);
    }
  }

  /** Without an event for its direction, a poll of a source that is not triggered goes to sleep in its
      first turn, its waker stored and the trigger clear. */
  lemma ClearSourceParks(src: Source, d: Direction, turns: seq<Turn>)
    requires src.phase != Absent && Chan(src, d).task.Locking? && !Chan(src, d).triggered
    requires |turns| >= 1 && !Disturbed(turns[0], d)
    ensures var c := Chan(Turns(src, d, turns), d);
            var w := Chan(src, d).task.w;
            c.task == Parked(w, false) && !c.triggered && c.interest == Some(w) && Turns(src, d, turns).holder == Free
  {
    UndisturbedStays(src, turns[0].events, d);
  }

  /** An operation that would block is followed by sleep, in the next turn at the latest, unless an event
      for its direction comes in between. */
  lemma BlockedOperationParks(src: Source, d: Direction, turns: seq<Turn>)
    requires src.phase != Absent && Chan(src, d).task.Locking?
    requires |turns| >= 2 && turns[0].result.WouldBlock? && !Disturbed(turns[1], d)
    ensures var c := Chan(Turns(src, d, turns), d);
            var w := Chan(src, d).task.w;
            c.task == Parked(w, false) && !c.triggered && c.interest == Some(w) && Turns(src, d, turns).holder == Free
  {
    var looked := ReadySteps(AcquireOn(AllHandled(src, turns[0].events), d), d);
    if !Chan(looked, d).task.Parked? {
      var cleared := ProceedOn(TryOn(looked, d, WouldBlock), d);
      assert !Chan(cleared, d).triggered;
      ClearSourceParks(cleared, d, turns[1..]);
    }
  }

  /** A poll that is still retrying has had an event for its direction in every turn but the first: it never
      spins on its own. */
  lemma {:induction false} RetriesAreCaused(src: Source, d: Direction, turns: seq<Turn>)
    requires src.phase != Absent && Chan(src, d).task.Locking? && Chan(Turns(src, d, turns), d).task.Locking?
    ensures forall k :: 1 <= k < |turns| ==> Disturbed(turns[k], d)
    ensures |turns| >= 1 && !Chan(src, d).triggered ==> Disturbed(turns[0], d)
    decreases |turns|
  {
    if |turns| >= 1 {
      if !Chan(src, d).triggered && !Disturbed(turns[0], d) {
        ClearSourceParks(src, d, turns);
        assert false;
      }
      var looked := ReadySteps(AcquireOn(AllHandled(src, turns[0].events), d), d);
      var cleared := ProceedOn(TryOn(looked, d, turns[0].result), d);
      assert !Chan(cleared, d).triggered;
      RetriesAreCaused(cleared, d, turns[1..]);
      forall k | 1 <= k < |turns| ensures Disturbed(turns[k], d) {
        assert turns[k] == turns[1..][k - 1];
      }
    }
  }

  /** A poll on a triggered source tries its operation at once, and returns when that does not block. */
  lemma TriggeredSourceTries(src: Source, d: Direction, turn: Turn)
    requires src.phase != Absent && Chan(src, d).task.Locking? && Chan(src, d).triggered && turn.events == []
    ensures var c := Chan(Turns(src, d, [turn]), d);
            if turn.result.Completed? then c.task == Idle && c.triggered && c.ready == turn.result.stillReady
            else c.task == Locking(Chan(src, d).task.w) && !c.triggered
  {
  }
}

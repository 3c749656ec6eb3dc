/** No readiness edge is lost. */
module ReactorTheorems {
  import opened Options
  import opened Reactor

  /** The reactor is working on source i. */
  predicate HandlingAt(s: State, i: nat) {
    s.loop.Handling? && |s.batch| > 0 && s.batch[0].index == i
  }

  function TakeStage(d: Direction): nat { if d == Read then 0 else 2 }

  /** An event for (i, d) that is queued, or being handled but not past the given stage. */
  ghost predicate PendingEvent(s: State, i: nat, d: Direction, stage: nat) {
    || (exists k :: 0 <= k < |s.kernel| && Concerns(s.kernel[k], i, d))
    || (exists k :: 0 <= k < |s.batch| && Concerns(s.batch[k], i, d)
                    && (k == 0 && s.loop.Handling? ==> s.loop.stage <= stage))
  }

  /** Some event will still take the stored waker. */
  ghost predicate Untaken(s: State, i: nat, d: Direction) { PendingEvent(s, i, d, TakeStage(d)) }

  /** Some event will still set `triggered`. */
  ghost predicate Unset(s: State, i: nat, d: Direction) { PendingEvent(s, i, d, TakeStage(d) + 1) }

  predicate SourceOk(s: State, i: nat)
    requires i < |s.sources|
  {
    var src := s.sources[i];
    && (src.holder == ByReactor <==> HandlingAt(s, i))
    && (src.holder != Free ==> src.phase != Absent)
  }

  ghost predicate ChannelOk(s: State, i: nat, d: Direction)
    requires i < |s.sources|
  {
    var src := s.sources[i];
    var c := Chan(src, d);
    && SourceOk(s, i)
    && (Inside(c.task) <==> src.holder == ByTask(d))
    && (!c.task.Idle? ==> src.phase == Active)
    // an unseen edge has an event that will still set the trigger, also while it is being cleared
    && (src.phase == Active && c.ready && (!c.triggered || c.task.Clearing?) ==> Unset(s, i, d))
    // a sleeping task's waker is stored or already collected; it is collected once triggered
    && (c.task.Parked? && !c.task.woken ==>
          c.task.w in s.wakers || (c.interest == Some(c.task.w) && !c.triggered))
    && (c.task.Rechecking? ==> c.interest == Some(c.task.w))
    // between taking the waker and setting the trigger no waker is stored
    && (HandlingAt(s, i) && s.loop.stage == TakeStage(d) + 1 && Concerns(s.batch[0], i, d) ==> c.interest == None)
  }

  ghost predicate Inv(s: State) {
    && (s.loop.Handling? ==> |s.batch| > 0 && s.loop.stage < 4)
    && (forall i, d :: 0 <= i < |s.sources| ==> ChannelOk(s, i, d))
  }

  // ----- Steps on one source -----

  /** What a step on source a.i leaves alone. */
  lemma KernelGrows(s: State, t: State, i: nat, d: Direction, stage: nat)
    requires t.batch == s.batch && t.loop == s.loop && s.kernel <= t.kernel
    requires PendingEvent(s, i, d, stage)
    ensures PendingEvent(t, i, d, stage)
  {
    if k :| 0 <= k < |s.kernel| && Concerns(s.kernel[k], i, d) {
      assert Concerns(t.kernel[k], i, d);
    }
  }

  lemma NewEvent(t: State, i: nat, d: Direction, stage: nat)
    requires |t.kernel| > 0 && Concerns(t.kernel[|t.kernel| - 1], i, d)
    ensures PendingEvent(t, i, d, stage)
  {
  }

  lemma OtherSource(s: State, t: State, a: nat, i: nat, d: Direction)
    requires Inv(s) && i < |s.sources| && |t.sources| == |s.sources| && a < |s.sources| && i != a
    requires t.sources[i] == s.sources[i] && t.batch == s.batch && t.loop == s.loop
    requires s.kernel <= t.kernel && s.wakers == t.wakers
    ensures ChannelOk(t, i, d)
  {
    assert ChannelOk(s, i, d);
    if Unset(s, i, d) { KernelGrows(s, t, i, d, TakeStage(d) + 1); }
  }

  lemma SourceStep(s: State, a: Action)
    requires Inv(s) && Enabled(s, a) && (a.Install? || a.Register? || a.Deregister? || a.Remove?)
    ensures Inv(Do(s, a))
  {
    var t := Do(s, a);
    assert ChannelOk(s, a.i, Read);
    forall i, d | 0 <= i < |t.sources| ensures ChannelOk(t, i, d) {
      if i != a.i {
        OtherSource(s, t, a.i, i, d);
      } else {
        assert ChannelOk(s, i, d);
        if a.Register? && Chan(t.sources[i], d).ready {
          NewEvent(t, i, d, TakeStage(d) + 1);
        }
      }
    }
  }

  /** The other direction of a source is touched only through the lock. */
  lemma OtherDirection(s: State, t: State, i: nat, d: Direction, e: Direction)
    requires Inv(s) && i < |s.sources| && |t.sources| == |s.sources| && d != e
    requires t.batch == s.batch && t.loop == s.loop && s.kernel <= t.kernel && t.wakers == s.wakers
    requires t.sources[i].phase == s.sources[i].phase && Chan(t.sources[i], e) == Chan(s.sources[i], e)
    requires SourceOk(t, i)
    requires t.sources[i].holder == ByTask(e) <==> s.sources[i].holder == ByTask(e)
    ensures ChannelOk(t, i, e)
  {
    assert ChannelOk(s, i, e);
    if Unset(s, i, e) { KernelGrows(s, t, i, e, TakeStage(e) + 1); }
  }

  lemma SameChannel(s: State, a: Action)
    requires Inv(s) && Enabled(s, a)
    requires a.Start? || a.Acquire? || a.Proceed? || a.TryIo? || a.BecomeReady? || a.BecomeUnready?
    ensures ChannelOk(Do(s, a), a.i, a.d)
  {
    if a.Proceed? || a.TryIo? { InsideStep(s, a); } else { OutsideStep(s, a); }
  }

  lemma InsideStep(s: State, a: Action)
    requires Inv(s) && Enabled(s, a) && (a.Proceed? || a.TryIo?)
    ensures ChannelOk(Do(s, a), a.i, a.d)
  {
    assert ChannelOk(s, a.i, a.d);
    if Unset(s, a.i, a.d) { KernelGrows(s, Do(s, a), a.i, a.d, TakeStage(a.d) + 1); }
  }

  lemma OutsideStep(s: State, a: Action)
    requires Inv(s) && Enabled(s, a) && (a.Start? || a.Acquire? || a.BecomeReady? || a.BecomeUnready?)
    ensures ChannelOk(Do(s, a), a.i, a.d)
  {
    assert ChannelOk(s, a.i, a.d);
    if Unset(s, a.i, a.d) { KernelGrows(s, Do(s, a), a.i, a.d, TakeStage(a.d) + 1); }
    if a.BecomeReady? && s.sources[a.i].phase == Active { NewEvent(Do(s, a), a.i, a.d, TakeStage(a.d) + 1); }
  }

  lemma TaskStep(s: State, a: Action)
    requires Inv(s) && Enabled(s, a)
    requires a.Start? || a.Acquire? || a.Proceed? || a.TryIo? || a.BecomeReady? || a.BecomeUnready?
    ensures Inv(Do(s, a))
  {
    var t := Do(s, a);
    SameChannel(s, a);
    assert ChannelOk(s, a.i, a.d);
    forall i, d | 0 <= i < |t.sources| ensures ChannelOk(t, i, d) {
      if i != a.i {
        OtherSource(s, t, a.i, i, d);
      } else if d != a.d {
        OtherDirection(s, t, i, a.d, d);
      }
    }
  }

  // ----- Steps of the event loop -----

  lemma FetchStep(s: State, n: nat)
    requires Inv(s) && Enabled(s, Fetch(n))
    ensures Inv(Do(s, Fetch(n)))
  {
    var t := Do(s, Fetch(n));
    forall i, d | 0 <= i < |t.sources| ensures ChannelOk(t, i, d) {
      assert ChannelOk(s, i, d);
      if Unset(s, i, d) {
        if k :| 0 <= k < |s.kernel| && Concerns(s.kernel[k], i, d) {
          if k < n { assert t.batch[|s.batch| + k] == s.kernel[k]; } else { assert t.kernel[k - n] == s.kernel[k]; }
        } else {
          var k :| 0 <= k < |s.batch| && Concerns(s.batch[k], i, d);
          assert t.batch[k] == s.batch[k];
        }
        assert Unset(t, i, d);
      }
    }
  }

  lemma StrayStep(s: State, e: Event)
    requires Inv(s) && Enabled(s, StrayEvent(e))
    ensures Inv(Do(s, StrayEvent(e)))
  {
    var t := Do(s, StrayEvent(e));
    forall i, d | 0 <= i < |t.sources| ensures ChannelOk(t, i, d) {
      assert ChannelOk(s, i, d);
      if Unset(s, i, d) { KernelGrows(s, t, i, d, TakeStage(d) + 1); }
    }
  }

  lemma WakeStep(s: State)
    requires Inv(s) && Enabled(s, Wake)
    ensures Inv(Do(s, Wake))
  {
    var t := Do(s, Wake);
    forall i, d | 0 <= i < |t.sources| ensures ChannelOk(t, i, d) {
      assert ChannelOk(s, i, d);
      if Unset(s, i, d) { StillPending(s, t, i, d, TakeStage(d) + 1); }
      if |s.wakers| > 0 {
        assert forall w :: w in s.wakers ==> w == s.wakers[0] || w in t.wakers;
      }
    }
  }

  /** Dropping the batch's head keeps every other queued event. */
  lemma HeadGone(s: State, t: State, i: nat, d: Direction, stage: nat)
    requires |s.batch| > 0 && t.batch == s.batch[1..] && t.kernel == s.kernel && !t.loop.Handling?
    requires PendingEvent(s, i, d, stage)
    requires Concerns(s.batch[0], i, d) ==> s.loop.Handling? && s.loop.stage > stage
    ensures PendingEvent(t, i, d, stage)
  {
    if k :| 0 <= k < |s.kernel| && Concerns(s.kernel[k], i, d) {
      assert Concerns(t.kernel[k], i, d);
    } else {
      var k :| 0 <= k < |s.batch| && Concerns(s.batch[k], i, d)
               && (k == 0 && s.loop.Handling? ==> s.loop.stage <= stage);
      assert t.batch[k - 1] == s.batch[k];
    }
  }

  lemma EnterStep(s: State)
    requires Inv(s) && Enabled(s, Enter)
    ensures Inv(Do(s, Enter))
  {
    var t := Do(s, Enter);
    forall i, d | 0 <= i < |t.sources| ensures ChannelOk(t, i, d) {
      assert ChannelOk(s, i, d);
      if Unset(s, i, d) && s.sources[i].phase == Active {
        if |s.batch| > 0 && t.loop == Iterating {
          HeadGone(s, t, i, d, TakeStage(d) + 1);
        } else {
          StillPending(s, t, i, d, TakeStage(d) + 1);
        }
      }
    }
  }

  /** Moving the loop on without passing the stage keeps events pending. */
  lemma StillPending(s: State, t: State, i: nat, d: Direction, stage: nat)
    requires t.batch == s.batch && t.kernel == s.kernel && PendingEvent(s, i, d, stage)
    requires |s.batch| > 0 && Concerns(s.batch[0], i, d) && t.loop.Handling?
             ==> t.loop.stage <= stage || (s.loop.Handling? && s.loop.stage > stage)
    ensures PendingEvent(t, i, d, stage)
  {
    if k :| 0 <= k < |s.kernel| && Concerns(s.kernel[k], i, d) {
      assert Concerns(t.kernel[k], i, d);
    } else {
      var k :| 0 <= k < |s.batch| && Concerns(s.batch[k], i, d)
               && (k == 0 && s.loop.Handling? ==> s.loop.stage <= stage);
      assert Concerns(t.batch[k], i, d);
    }
  }

  lemma HandleElsewhere(s: State, i: nat, d: Direction)
    requires Inv(s) && Enabled(s, Handle) && i < |s.sources| && i != s.batch[0].index
    ensures ChannelOk(Do(s, Handle), i, d)
  {
    var t := Do(s, Handle);
    assert ChannelOk(s, i, d);
    if Unset(s, i, d) {
      if s.loop.stage < 3 { StillPending(s, t, i, d, TakeStage(d) + 1); }
      else { HeadGone(s, t, i, d, TakeStage(d) + 1); }
    }
  }

  lemma HandleHere(s: State, d: Direction)
    requires Inv(s) && Enabled(s, Handle)
    ensures ChannelOk(Do(s, Handle), s.batch[0].index, d)
  {
    var t := Do(s, Handle);
    var i := s.batch[0].index;
    assert ChannelOk(s, i, d);
    var c := Chan(t.sources[i], d);
    if t.sources[i].phase == Active && c.ready && !c.triggered {
      if s.loop.stage < 3 { StillPending(s, t, i, d, TakeStage(d) + 1); }
      else { HeadGone(s, t, i, d, TakeStage(d) + 1); }
    }
  }

  lemma HandleStep(s: State)
    requires Inv(s) && Enabled(s, Handle)
    ensures Inv(Do(s, Handle))
  {
    var t := Do(s, Handle);
    forall i, d | 0 <= i < |t.sources| ensures ChannelOk(t, i, d) {
      if i == s.batch[0].index { HandleHere(s, d); } else { HandleElsewhere(s, i, d); }
    }
  }

  lemma StepKeeps(s: State, a: Action)
    requires Inv(s) && Enabled(s, a)
    ensures Inv(Do(s, a))
  {
    match a
    case Fetch(n) => FetchStep(s, n);
    case StrayEvent(e) => StrayStep(s, e);
    case Enter => EnterStep(s);
    case Handle => HandleStep(s);
    case Wake => WakeStep(s);
    case Install(_, _, _) => SourceStep(s, a);
    case Register(_) => SourceStep(s, a);
    case Deregister(_) => SourceStep(s, a);
    case Remove(_) => SourceStep(s, a);
    case _ => TaskStep(s, a);
  }

  lemma {:induction false} RunsKeep(s: State, run: seq<Action>)
    requires Initial(s) && ValidRun(s, run)
    ensures Inv(After(s, run))
  {
    if |run| > 0 {
      RunsKeep(s, run[..|run| - 1]);
      StepKeeps(After(s, run[..|run| - 1]), run[|run| - 1]);
    }
  }

  /** A sleeper on a ready descriptor has its waker collected, or stored with an event to come for it. */
  ghost predicate Noticed(s: State, i: nat, d: Direction)
    requires i < |s.sources|
  {
    var c := Chan(s.sources[i], d);
    c.task.Parked? && !c.task.woken && c.ready
    ==> c.task.w in s.wakers || (c.interest == Some(c.task.w) && Untaken(s, i, d))
  }

  /** In every reachable state: a task whose last poll returned Pending and that has not been woken
      since, on a descriptor that is ready, has its waker collected already or an event on its way
      that will take it. */
  lemma NoEdgeLost(s: State, run: seq<Action>, i: nat, d: Direction)
    requires Initial(s) && ValidRun(s, run) && i < |s.sources|
    ensures Noticed(After(s, run), i, d)
  {
    RunsKeep(s, run);
    InvNotices(After(s, run), i, d);
  }

  lemma InvNotices(t: State, i: nat, d: Direction)
    requires Inv(t) && i < |t.sources|
    ensures Noticed(t, i, d)
  {
    var c := Chan(t.sources[i], d);
    assert ChannelOk(t, i, d);
    if c.task.Parked? && !c.task.woken && c.ready && c.task.w !in t.wakers {
      if k :| 0 <= k < |t.kernel| && Concerns(t.kernel[k], i, d) {
      } else {
        var k :| 0 <= k < |t.batch| && Concerns(t.batch[k], i, d)
                 && (k == 0 && t.loop.Handling? ==> t.loop.stage <= TakeStage(d) + 1);
        assert k == 0 && t.loop.Handling? ==> t.loop.stage <= TakeStage(d);
      }
    }
  }

  /** A poll never finds its source missing, so it never returns Pending without storing its waker. */
  lemma SourceIsPresent(s: State, run: seq<Action>, i: nat, d: Direction)
    requires Initial(s) && ValidRun(s, run) && i < |s.sources|
    ensures Chan(After(s, run).sources[i], d).task.Locking? ==> After(s, run).sources[i].phase == Active
  {
    RunsKeep(s, run);
    assert ChannelOk(After(s, run), i, d);
  }
}

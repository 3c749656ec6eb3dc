/** The readiness protocol between tasks doing non-blocking I/O and the reactor thread, as a
    transition system over any number of sources.  Each source is guarded by its own lock; the
    kernel changes readiness and queues edge events at any moment, lock or no lock. */
module Reactor {
  import opened Options

  type Waker = nat
  datatype Direction = Read | Write

  /** Where a task stands in `poll_io` for one direction of a source. */
  datatype Task =
    | Idle
    | Locking(w: Waker)
    | Inspecting(w: Waker)    // first look at `triggered`
    | Storing(w: Waker)       // about to store its waker
    | Rechecking(w: Waker)    // second look at `triggered`
    | Trying(w: Waker)        // about to do the I/O operation
    | Clearing(w: Waker)      // the operation would block; about to clear `triggered`
    | Parked(w: Waker, woken: bool)  // returned Pending

  datatype Channel = Channel(triggered: bool, interest: Option<Waker>, ready: bool, task: Task)

  /** A stream's source is put into the table, then registered with the kernel; dropping the stream
      deregisters it, then takes it out of the table. */
  datatype Phase = Absent | Installed | Active | Closing
  datatype Holder = Free | ByTask(d: Direction) | ByReactor
  datatype Source = Source(phase: Phase, holder: Holder, read: Channel, write: Channel)

  datatype Event = Event(index: nat, readable: bool, writable: bool)

  /** The event loop: fetch events, handle them one by one in four small stages (take the read waker,
      set the read trigger, and the same for writing), then invoke the collected wakers. */
  datatype Loop = Fetching | Iterating | Handling(stage: nat) | Draining

  datatype State = State(sources: seq<Source>, kernel: seq<Event>, batch: seq<Event>,
                         wakers: seq<Waker>, loop: Loop)

  datatype IoResult = Completed(stillReady: bool) | WouldBlock

  datatype Action =
    | Install(i: nat, readReady: bool, writeReady: bool)
    | Register(i: nat)
    | Deregister(i: nat)
    | Remove(i: nat)
    | Start(i: nat, d: Direction, w: Waker)
    | Acquire(i: nat, d: Direction)
    | Proceed(i: nat, d: Direction)
    | TryIo(i: nat, d: Direction, result: IoResult)
    | BecomeReady(i: nat, d: Direction)
    | BecomeUnready(i: nat, d: Direction)
    | StrayEvent(event: Event)
    | Fetch(n: nat)
    | Enter
    | Handle
    | Wake

  function Chan(src: Source, d: Direction): Channel {
    if d == Read then src.read else src.write
  }

  function SetChan(src: Source, d: Direction, c: Channel): Source {
    if d == Read then src.(read := c) else src.(write := c)
  }

  /** Inside `poll_io` with the source's lock held. */
  predicate Inside(t: Task) {
    t.Inspecting? || t.Storing? || t.Rechecking? || t.Trying? || t.Clearing?
  }

  predicate Resting(t: Task) {
    t.Idle? || t.Parked?
  }

  predicate Concerns(e: Event, i: nat, d: Direction) {
    e.index == i && (if d == Read then e.readable else e.writable)
  }

  /** An operation would block only when the descriptor is not ready, and makes nothing ready. */
  predicate Possible(result: IoResult, ready: bool) {
    match result
    case WouldBlock => !ready
    case Completed(stillReady) => stillReady ==> ready
  }

  const EMPTY_CHANNEL := Channel(false, None, false, Idle)

  predicate Initial(s: State) {
    && (forall i :: 0 <= i < |s.sources| ==> s.sources[i] == Source(Absent, Free, EMPTY_CHANNEL, EMPTY_CHANNEL))
    && s.kernel == [] && s.batch == [] && s.wakers == [] && s.loop == Fetching
  }

  predicate SourceActionEnabled(s: State, a: Action)
    requires a.Install? || a.Register? || a.Deregister? || a.Remove?
  {
    && a.i < |s.sources|
    && var src := s.sources[a.i];
       match a
       case Install(_, _, _) => src.phase == Absent && src.holder == Free
       case Register(_) => src.phase == Installed
       // a stream is not dropped while it is borrowed by a poll
       case Deregister(_) => src.phase == Active && Resting(src.read.task) && Resting(src.write.task)
       case Remove(_) => src.phase == Closing && src.holder == Free
  }

  predicate TaskActionEnabled(s: State, a: Action)
    requires a.Start? || a.Acquire? || a.Proceed? || a.TryIo? || a.BecomeReady? || a.BecomeUnready?
  {
    && a.i < |s.sources|
    && var src := s.sources[a.i];
       var c := Chan(src, a.d);
       match a
       case Start(_, _, _) => src.phase == Active && Resting(c.task)
       case Acquire(_, _) => c.task.Locking? && src.holder == Free
       case Proceed(_, _) => CanProceed(c.task)
       case TryIo(_, _, result) => c.task.Trying? && Possible(result, c.ready)
       case BecomeReady(_, _) => !c.ready
       case BecomeUnready(_, _) => true
  }

  predicate LoopActionEnabled(s: State, a: Action)
    requires a.StrayEvent? || a.Fetch? || a.Enter? || a.Handle? || a.Wake?
  {
    match a
    // tokens are made from queue indices of the table
    case StrayEvent(e) => e.index < |s.sources|
    case Fetch(n) => s.loop == Fetching && n <= |s.kernel|
    case Enter =>
      && s.loop == Iterating
      && (|s.batch| > 0 ==> s.batch[0].index < |s.sources| && s.sources[s.batch[0].index].holder == Free)
    case Handle => s.loop.Handling? && |s.batch| > 0 && s.batch[0].index < |s.sources|
    case Wake => s.loop == Draining
  }

  predicate Enabled(s: State, a: Action) {
    if a.Install? || a.Register? || a.Deregister? || a.Remove? then SourceActionEnabled(s, a)
    else if a.StrayEvent? || a.Fetch? || a.Enter? || a.Handle? || a.Wake? then LoopActionEnabled(s, a)
    else TaskActionEnabled(s, a)
  }

  function SetSource(s: State, i: nat, src: Source): State
    requires i < |s.sources|
  {
    s.(sources := s.sources[i := src])
  }

  /** Invoking a waker wakes every task parked with it. */
  function Woken(t: Task, w: Waker): Task {
    if t.Parked? && t.w == w then Parked(w, true) else t
  }

  function WakeSource(src: Source, w: Waker): Source {
    src.(read := src.read.(task := Woken(src.read.task, w)),
         write := src.write.(task := Woken(src.write.task, w)))
  }

  function WakeAll(sources: seq<Source>, w: Waker): (r: seq<Source>)
    ensures |r| == |sources| && forall i :: 0 <= i < |r| ==> r[i] == WakeSource(sources[i], w)
  {
    seq(|sources|, i requires 0 <= i < |sources| => WakeSource(sources[i], w))
  }

  function DoSource(s: State, a: Action): State
    requires a.Install? || a.Register? || a.Deregister? || a.Remove?
    requires SourceActionEnabled(s, a)
  {
    var src := s.sources[a.i];
    match a
    case Install(i, rr, wr) =>
      SetSource(s, i, Source(Installed, Free, EMPTY_CHANNEL.(ready := rr), EMPTY_CHANNEL.(ready := wr)))
    case Register(i) =>
      // one event at once for whatever is ready already
      SetSource(s, i, src.(phase := Active)).(kernel := s.kernel + [Event(i, src.read.ready, src.write.ready)])
    case Deregister(i) =>
      SetSource(s, i, src.(phase := Closing, read := src.read.(task := Idle), write := src.write.(task := Idle)))
    case Remove(i) =>
      SetSource(s, i, src.(phase := Absent))
  }

  predicate CanProceed(t: Task) {
    t.Inspecting? || t.Storing? || t.Rechecking? || t.Clearing?
  }

  /** What a task does to its source, step by step, in `poll_io`. */
  function AcquireOn(src: Source, d: Direction): Source
    requires Chan(src, d).task.Locking?
  {
    var c := Chan(src, d);
    if src.phase == Absent then SetChan(src, d, c.(task := Parked(c.task.w, false)))
    else SetChan(src, d, c.(task := Inspecting(c.task.w))).(holder := ByTask(d))
  }

  function ProceedOn(src: Source, d: Direction): Source
    requires CanProceed(Chan(src, d).task)
  {
    var c := Chan(src, d);
    match c.task
    case Inspecting(w) => SetChan(src, d, c.(task := if c.triggered then Trying(w) else Storing(w)))
    case Storing(w) => SetChan(src, d, c.(interest := Some(w), task := Rechecking(w)))
    case Rechecking(w) =>
      if c.triggered then SetChan(src, d, c.(task := Trying(w)))
      else SetChan(src, d, c.(task := Parked(w, false))).(holder := Free)
    case Clearing(w) => SetChan(src, d, c.(triggered := false, task := Locking(w))).(holder := Free)
  }

  function TryOn(src: Source, d: Direction, result: IoResult): Source
    requires Chan(src, d).task.Trying?
  {
    var c := Chan(src, d);
    match result
    case Completed(stillReady) => SetChan(src, d, c.(ready := stillReady, task := Idle)).(holder := Free)
    case WouldBlock => SetChan(src, d, c.(task := Clearing(c.task.w)))
  }

  function DoTask(s: State, a: Action): State
    requires a.Start? || a.Acquire? || a.Proceed? || a.TryIo? || a.BecomeReady? || a.BecomeUnready?
    requires TaskActionEnabled(s, a)
  {
    var src := s.sources[a.i];
    var c := Chan(src, a.d);
    match a
    case Start(i, d, w) => SetSource(s, i, SetChan(src, d, c.(task := Locking(w))))
    case Acquire(i, d) => SetSource(s, i, AcquireOn(src, d))
    case Proceed(i, d) => SetSource(s, i, ProceedOn(src, d))
    case TryIo(i, d, result) => SetSource(s, i, TryOn(src, d, result))
    case BecomeReady(i, d) =>
      // the kernel queues one event per edge for a registered descriptor
      SetSource(s, i, SetChan(src, d, c.(ready := true)))
      .(kernel := if src.phase == Active then s.kernel + [Event(i, d == Read, d == Write)] else s.kernel)
    case BecomeUnready(i, d) =>
      SetSource(s, i, SetChan(src, d, c.(ready := false)))
  }

  function StageDirection(stage: nat): Direction {
    if stage < 2 then Read else Write
  }

  /** One stage of handling event e on the locked source. */
  function HandleStage(src: Source, e: Event, stage: nat): (Source, seq<Waker>) {
    var d := StageDirection(stage);
    var c := Chan(src, d);
    if !Concerns(e, e.index, d) then (src, [])
    else if stage % 2 == 0 then
      (SetChan(src, d, c.(interest := None)), if c.interest.Some? then [c.interest.value] else [])
    else (SetChan(src, d, c.(triggered := true)), [])
  }

  function DoLoop(s: State, a: Action): State
    requires a.StrayEvent? || a.Fetch? || a.Enter? || a.Handle? || a.Wake?
    requires LoopActionEnabled(s, a)
  {
    match a
    case StrayEvent(e) => s.(kernel := s.kernel + [e])
    case Fetch(n) => s.(kernel := s.kernel[n..], batch := s.batch + s.kernel[..n], loop := Iterating)
    case Enter =>
      if |s.batch| == 0 then s.(loop := Draining)
      else
        var i := s.batch[0].index;
        if s.sources[i].phase == Absent then s.(batch := s.batch[1..])
        else SetSource(s, i, s.sources[i].(holder := ByReactor)).(loop := Handling(0))
    case Handle =>
      var e := s.batch[0];
      var (src, taken) := HandleStage(s.sources[e.index], e, s.loop.stage);
      if s.loop.stage < 3
      then SetSource(s, e.index, src).(wakers := s.wakers + taken, loop := Handling(s.loop.stage + 1))
      else SetSource(s, e.index, src.(holder := Free))
           .(wakers := s.wakers + taken, batch := s.batch[1..], loop := Iterating)
    case Wake =>
      if |s.wakers| == 0 then s.(loop := Fetching)
      else s.(sources := WakeAll(s.sources, s.wakers[0]), wakers := s.wakers[1..])
  }

  function Do(s: State, a: Action): (t: State)
    requires Enabled(s, a)
    ensures |t.sources| == |s.sources|
  {
    if a.Install? || a.Register? || a.Deregister? || a.Remove? then DoSource(s, a)
    else if a.StrayEvent? || a.Fetch? || a.Enter? || a.Handle? || a.Wake? then DoLoop(s, a)
    else DoTask(s, a)
  }

  predicate ValidRun(s: State, run: seq<Action>)
    decreases |run|, 0
  {
    |run| == 0 ||
    (ValidRun(s, run[..|run| - 1]) && Enabled(After(s, run[..|run| - 1]), run[|run| - 1]))
  }

  function After(s: State, run: seq<Action>): (t: State)
    requires ValidRun(s, run)
    ensures |t.sources| == |s.sources|
    decreases |run|, 1
  {
    if |run| == 0 then s else Do(After(s, run[..|run| - 1]), run[|run| - 1])
  }
}

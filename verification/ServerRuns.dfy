/** The server has the runs of its parts: whatever queue and lifecycle can do, and whatever the reactor can
    do for a task that is being polled, the server can do. */
module ServerRuns {
  import opened Options
  import opened Words
  import opened Index
  import Q = BucketQueue
  import L = Lifecycle
  import R = Runtime
  import X = Reactor
  import XP = ReactorProgress
  import XK = ReactorTasks
  import RT = RuntimeWitnesses
  import opened Server

  /** Start-up, with any number of buckets, connections, calls, workers and sources. */
  function StartUp(r: IoResources, size: nat, buckets: nat, calls: nat, workers: nat, sources: nat): State {
    var channel := X.Channel(false, None, false, X.Idle);
    var bucket := L.Bucket(0, false, seq(r.httpConnections, _ => L.Empty), size, L.Resting);
    var queue := Q.State(seq(buckets, _ => Q.Slot(false, false, {})), 0,
                         seq(calls, _ => Q.Idle), seq(workers, _ => Q.Waiting));
    State(X.State(seq(sources, _ => X.Source(X.Absent, X.Free, channel, channel)), [], [], [], X.Fetching),
          R.State(queue, L.State(size, seq(buckets, _ => bucket), L.Accepting), {}),
          {})
  }

  lemma StartUpIsInitial(r: IoResources, size: nat, buckets: nat, calls: nat, workers: nat, sources: nat)
    requires r.Supported() && buckets <= 1000 && workers >= 1 && buckets + calls + workers <= 4294967295
    ensures var s := StartUp(r, size, buckets, calls, workers, sources);
            Initial(s) && R.Sized(r, s.runtime)
  {
  }

  lemma Append(r: IoResources, s: State, run: seq<Action>, a: Action)
    requires ValidRun(r, s, run) && Enabled(r, After(r, s, run), a)
    ensures ValidRun(r, s, run + [a]) && After(r, s, run + [a]) == Do(r, After(r, s, run), a)
  {
    var longer := run + [a];
    assert longer[..|longer| - 1] == run && longer[|longer| - 1] == a;
  }

  /** A run of queue and lifecycle is one of the server, which leaves the reactor alone. */
  lemma {:induction false} LiftRuntime(r: IoResources, s: State, run: seq<Action>, steps: seq<R.Action>)
    returns (longer: seq<Action>)
    requires ValidRun(r, s, run) && r.PerBucket() > 0 && R.ValidRun(r, After(r, s, run).runtime, steps)
    ensures run <= longer && ValidRun(r, s, longer)
    ensures After(r, s, longer).reactor == After(r, s, run).reactor
    ensures After(r, s, longer).runtime == R.After(r, After(r, s, run).runtime, steps)
    decreases |steps|
  {
    longer := run;
    if |steps| > 0 {
      var before, b := steps[..|steps| - 1], steps[|steps| - 1];
      longer := LiftRuntime(r, s, run, before);
      Append(r, s, longer, Run(b));
      longer := longer + [Run(b)];
    }
  }

  /** What the reactor does for the task that worker v polls: operations start with that task's waker, and
      no waker is invoked. */
  predicate ForTask(r: IoResources, s: State, v: nat, x: X.Action)
    requires v < |s.runtime.queue.workers| && s.runtime.queue.workers[v].Polling?
  {
    !x.Wake? && (x.Start? ==> x.w == WakerOf(r, s, v))
  }

  function ByServer(x: X.Action, v: nat): Action {
    if x.Start? then StartIo(v, x.i, x.d) else React(x)
  }

  lemma {:induction false} LiftReactor(r: IoResources, s: State, run: seq<Action>, steps: seq<X.Action>, v: nat)
    returns (longer: seq<Action>)
    requires ValidRun(r, s, run) && r.PerBucket() > 0 && X.ValidRun(After(r, s, run).reactor, steps)
    requires var t := After(r, s, run);
             && v < |t.runtime.queue.workers| && t.runtime.queue.workers[v].Polling?
             && forall k :: 0 <= k < |steps| ==> ForTask(r, t, v, steps[k])
    ensures run <= longer && ValidRun(r, s, longer)
    ensures After(r, s, longer).runtime == After(r, s, run).runtime
    ensures After(r, s, longer).reactor == X.After(After(r, s, run).reactor, steps)
    decreases |steps|
  {
    longer := run;
    if |steps| > 0 {
      var before, x := steps[..|steps| - 1], steps[|steps| - 1];
      longer := LiftReactor(r, s, run, before, v);
      assert ForTask(r, After(r, s, run), v, x);
      Append(r, s, longer, ByServer(x, v));
      longer := longer + [ByServer(x, v)];
    }
  }

  /** A task that is being polled can open a stream on any free index, find it not ready, and go to sleep on
      it with the waker of its own poll; the descriptor can then become ready. */
  lemma PolledTaskCanSleep(r: IoResources, s: State, run: seq<Action>, v: nat, i: nat, d: X.Direction)
    returns (longer: seq<Action>)
    requires ValidRun(r, s, run) && r.PerBucket() > 0
    requires var t := After(r, s, run);
             && v < |t.runtime.queue.workers| && t.runtime.queue.workers[v].Polling?
             && X.Enabled(t.reactor, X.Install(i, false, false))
    ensures run <= longer && ValidRun(r, s, longer) && After(r, s, longer).runtime == After(r, s, run).runtime
    ensures var w := WakerOf(r, After(r, s, run), v);
            && XP.Sleeps(After(r, s, longer).reactor, i, d, w)
            && X.Chan(After(r, s, longer).reactor.sources[i], d).task == X.Parked(w, false)
  {
    var t := After(r, s, run);
    var w := WakerOf(r, t, v);
    var steps := XK.FirstPollParks(t.reactor, i, false, false, d, w);
    XP.AppendStep(t.reactor, steps, X.BecomeReady(i, d));
    longer := LiftReactor(r, s, run, steps + [X.BecomeReady(i, d)], v);
  }

  /** A server with one bucket: a request is accepted and polled, and its task sleeps on a stream that has
      become ready, with the waker that leads back to the request. */
  lemma RequestCanSleep() returns (run: seq<Action>)
    ensures var s := StartUp(RT.ONE_EACH, 1, 1, 1, 1, 1);
            && Initial(s) && ValidRun(RT.ONE_EACH, s, run)
            && var t := After(RT.ONE_EACH, s, run);
               && XP.Sleeps(t.reactor, 0, X.Read, WakerOf(RT.ONE_EACH, Accepted(), 0))
               && Target(RT.ONE_EACH, WakerOf(RT.ONE_EACH, Accepted(), 0)) == (0, 0)
  {
    var s := StartUp(RT.ONE_EACH, 1, 1, 1, 1, 1);
    StartUpIsInitial(RT.ONE_EACH, 1, 1, 1, 1, 1);
    var steps := RT.PollRequest();
    StartsAlike();
    run := LiftRuntime(RT.ONE_EACH, s, [], steps);
    run := PolledTaskCanSleep(RT.ONE_EACH, s, run, 0, 0, X.Read);
    TargetOfWord(RT.ONE_EACH, 0, 0);
  }

  /** The same server while the request's main task is being polled. */
  function Accepted(): State {
    StartUp(RT.ONE_EACH, 1, 1, 1, 1, 1).(runtime := RT.POLLED)
  }

  lemma StartsAlike()
    ensures StartUp(RT.ONE_EACH, 1, 1, 1, 1, 1).runtime == RT.START
  {
    var u := StartUp(RT.ONE_EACH, 1, 1, 1, 1, 1).runtime;
    assert u.life.buckets[0].connections == [L.Empty];
    assert u.life.buckets == RT.START.life.buckets;
    assert u.queue == RT.START.queue;
  }
}

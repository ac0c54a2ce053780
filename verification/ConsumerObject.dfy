/**
 The consumer's code: Start with its fetch loop, the worker loop and Stop, each written in
 sequence, with every other goroutine free to take any number of steps between two of its
 statements. A goroutine's flow depends only on the shared memory and its own variables; the
 positions of the goroutines are recorded for the others' sake, and the wait group is read
 off them. A method that stops before its end has been observed up to a point where it loops
 or waits.
 */
module ConsumerObject {
  import opened Prelude
  import opened Consumer
  import ConsumerShutdown

  datatype Goroutine = Main | WorkerAt(w: nat) | StopCaller

  /** Start and the fetch loop it calls are one goroutine. */
  predicate Mine(g: Goroutine, a: Action) {
    match a
    case Fetcher(_) => g.Main?
    case Starter(_) => g.Main?
    case Worker(w, _) => g == WorkerAt(w)
    case Stopper(_) => g.StopCaller?
  }

  /** What a goroutine can count on while the others run. */
  predicate Stable(g: Goroutine, s: State, t: State) {
    match g
    case Main =>
      && t.starter == s.starter && t.fetcher == s.fetcher && t.closed == s.closed && t.doneClosed == s.doneClosed
      && t.log.fetched == s.log.fetched && |t.workers| == |s.workers| && (s.stopping ==> t.stopping)
    case WorkerAt(w) =>
      && |t.workers| == |s.workers|
      && (w < |s.workers| && s.workers[w] != NotSpawned ==> t.workers[w] == s.workers[w])
    case StopCaller => t.stopper == s.stopper && t.stopping == s.stopping && t.cancelled == s.cancelled
  }

  lemma FetchLeaves(c: Config, s: State, a: FetchAction)
    requires FetchStep(c, s, a).Some?
    ensures var t := FetchStep(c, s, a).value;
      && t.workers == s.workers && t.stopper == s.stopper && t.stopping == s.stopping && t.cancelled == s.cancelled
  {
    match a
    case CheckStopping =>
    case Deliver =>
    case FetchError =>
    case ErrorStopping =>
    case ErrorContext =>
    case Parse(_) =>
    case CommitSkipped(_) =>
    case Send =>
    case Drop =>
  }

  lemma WorkerLeaves(s: State, w: nat, x: WorkAction)
    requires WorkerStep(s, w, x).Some?
    ensures var t := WorkerStep(s, w, x).value;
      && t.starter == s.starter && t.fetcher == s.fetcher && t.stopper == s.stopper && t.stopping == s.stopping
      && t.closed == s.closed && t.doneClosed == s.doneClosed && t.log.fetched == s.log.fetched
      && t.cancelled == s.cancelled && |t.workers| == |s.workers|
      && forall v :: 0 <= v < |s.workers| && v != w ==> t.workers[v] == s.workers[v]
  {
    match x
    case Receive =>
    case Process(_) =>
    case Commit(_) =>
    case Exit =>
  }

  lemma FetchStable(c: Config, s: State, a: FetchAction, g: Goroutine)
    requires FetchStep(c, s, a).Some? && !g.Main?
    ensures Stable(g, s, FetchStep(c, s, a).value)
  {
    hide FetchStep;
    FetchLeaves(c, s, a);
  }

  lemma WorkerStable(s: State, w: nat, x: WorkAction, g: Goroutine)
    requires WorkerStep(s, w, x).Some? && g != WorkerAt(w)
    ensures Stable(g, s, WorkerStep(s, w, x).value)
  {
    hide WorkerStep;
    WorkerLeaves(s, w, x);
  }

  lemma StartStable(c: Config, s: State, a: StartAction, g: Goroutine)
    requires Inv(c, s) && StartStep(s, a).Some? && !g.Main?
    ensures Stable(g, s, StartStep(s, a).value)
  {
    hide ChannelsSafe, StopSeen, OrderSafe, MessageSafe, WorkersSafe;
    if a.Spawn? {
      ConsumerShutdown.SpawnsUnspawned(c, s);
    }
  }

  lemma StopStable(s: State, a: StopAction, g: Goroutine)
    requires StopStep(s, a).Some? && !g.StopCaller?
    ensures Stable(g, s, StopStep(s, a).value)
  {}

  lemma OthersStable(c: Config, s: State, a: Action, g: Goroutine)
    requires Inv(c, s) && Do(c, s, a).Some? && !Mine(g, a)
    ensures Stable(g, s, Do(c, s, a).value)
  {
    hide FetchStep, WorkerStep, StartStep, StopStep, Stable, Inv;
    match a
    case Fetcher(f) => FetchStable(c, s, f, g);
    case Worker(w, x) => WorkerStable(s, w, x, g);
    case Starter(b) => StartStable(c, s, b, g);
    case Stopper(e) => StopStable(s, e, g);
  }

  lemma StableTransitive(g: Goroutine, s: State, t: State, u: State)
    requires Stable(g, s, t) && Stable(g, t, u)
    ensures Stable(g, s, u)
  {}

  /** Past its cancel step, Stop has cancelled the fetch context or nothing is fetched yet. */
  ghost predicate StopArrived(s: State) {
    s.stopping && (s.cancelled || (s.log.fetched == 0 && (s.fetcher.AtTop? || s.fetcher.Returned?)))
  }

  /** Everything put on the channel went through Process exactly once, and what succeeded or
      was skipped has been committed unless its commit failed. */
  ghost predicate Drained(s: State) {
    && s.queue == [] && s.log.started == s.log.sent
    && forall m: Msg ::
         && Count(s.log.ok, m) + Count(s.log.failed, m) == Count(s.log.sent, m)
         && Count(s.log.committed, m) + Count(s.log.refused, m) == Count(s.log.ok, m) + Count(s.log.skipped, m)
  }

  lemma StableItself(g: Goroutine, s: State)
    ensures Stable(g, s, s)
  {}

  lemma NoPanic(c: Config, s: State, a: Action)
    requires Inv(c, s) && Do(c, s, a).Some?
    ensures !Do(c, s, a).value.panicked
  {
    hide Do;
    StepKeeps(c, s, a);
  }

  lemma OpenWhileFetching(c: Config, s: State)
    requires Inv(c, s) && s.starter.InFetchLoop?
    ensures !s.closed
  {}

  lemma NothingFetchedYet(c: Config, s: State)
    requires Inv(c, s) && s.starter.HasContext?
    ensures s.fetcher.AtTop?
  {}

  lemma OpenUntilFinished(c: Config, s: State)
    requires Inv(c, s) && s.starter.Closing?
    ensures !s.doneClosed
  {}

  lemma CancelledMeansStopping(c: Config, s: State)
    requires Inv(c, s)
    ensures s.cancelled ==> s.stopping
  {}

  lemma DoneMeansFinished(c: Config, s: State)
    requires Inv(c, s) && s.doneClosed
    ensures s.starter.Finished?
  {}

  lemma Arrived(c: Config, s: State)
    requires Inv(c, s) && (s.stopper.Waiting? || s.stopper.StopReturned?)
    ensures StopArrived(s)
  {}

  lemma ObservesDone(c: Config, s: State)
    requires s.stopper.Waiting? && s.doneClosed
    ensures Do(c, s, Stopper(ObserveDone)) == Some(s.(stopper := StopReturned))
  {}

  lemma DrainedTrace(c: Config, trace: seq<Action>, s: State)
    requires Run(c, Init(c), trace) == Some(s) && s.starter == Finished(true)
    ensures Drained(s)
  {
    hide Run;
    ConsumerShutdown.DrainedMeansProcessed(c, trace);
  }

  class Pool {
    const config: Config
    var stopping: bool          // atomic.Bool
    var cancelFetch: bool       // cancelFetch != nil
    var ctxDone: bool
    var eventCh: seq<Msg>
    var eventChClosed: bool
    var doneChClosed: bool
    var log: Log
    var starter: StartPc        // the positions
    var fetcher: FetchPc
    var stopper: StopPc
    var workers: seq<WorkerPc>
    ghost var trace: seq<Action>

    function View(): State
      reads this
    {
      State(stopping, cancelFetch, ctxDone, eventCh, eventChClosed, doneChClosed, false,
            starter, fetcher, stopper, workers, log)
    }

    /** The steps taken so far are a run of the transition system, so everything proved of
        its runs holds here; and the invariants do. */
    ghost predicate Valid()
      reads this
    {
      Inv(config, View()) && Run(config, Init(config), trace) == Some(View())
    }

    constructor (config: Config)
      ensures this.config == config && View() == Init(config) && Valid()
    {
      this.config := config;
      stopping, cancelFetch, ctxDone := false, false, false;
      eventCh, eventChClosed, doneChClosed := [], false, false;
      starter, fetcher, stopper := NotStarted, AtTop, NotStopped;
      workers := seq(config.numWorkers, i => NotSpawned);
      log := Log(0, [], [], [], [], [], [], [], []);
      trace := [];
      new;
      InitInv(config);
    }

    /** A statement was a step of the transition system. */
    ghost method Took(before: State, a: Action)
      requires Inv(config, before) && Run(config, Init(config), trace) == Some(before)
      requires Do(config, before, a) == Some(View())
      modifies this`trace
      ensures Valid()
    {
      hide Inv, Do, Run;
      StepKeeps(config, before, a);
      RunSnoc(config, Init(config), trace, a);
      trace := trace + [a];
    }

    method Set(t: State)
      requires !t.panicked
      modifies this
      ensures View() == t && trace == old(trace)
    {
      stopping, cancelFetch, ctxDone := t.stopping, t.cancelSet, t.cancelled;
      eventCh, eventChClosed, doneChClosed := t.queue, t.closed, t.doneClosed;
      starter, fetcher, stopper, workers, log := t.starter, t.fetcher, t.stopper, t.workers, t.log;
    }

    method Become(t: State, ghost a: Action)
      requires Valid() && Do(config, View(), a) == Some(t)
      modifies this
      ensures Valid() && View() == t
    {
      hide Inv, Do, Run;
      ghost var before := View();
      NoPanic(config, before, a);
      Set(t);
      Took(before, a);
    }

    /** Interference: any number of steps of the other goroutines. */
    method Others(g: Goroutine)
      requires Valid()
      modifies this
      ensures Valid() && Stable(g, old(View()), View())
    {
      hide Inv, Do, Run, Stable;
      StableItself(g, View());
      var steps: seq<Action> := *;
      for i := 0 to |steps|
        invariant Valid() && Stable(g, old(View()), View())
      {
        var a := steps[i];
        if !Mine(g, a) {
          var next := Do(config, View(), a);
          if next.Some? {
            ghost var before := View();
            OthersStable(config, before, a, g);
            StableTransitive(g, old(View()), before, next.value);
            Become(next.value, a);
          }
        }
      }
    }

    // -------------------------------------------------------------- the fetch loop

    /** The check of the stop flag at the top of the loop. */
    method LoadStopping() returns (stop: bool)
      requires Valid() && starter.InFetchLoop? && fetcher.AtTop?
      modifies this
      ensures Valid() && starter.InFetchLoop? && |workers| == |old(workers)|
      ensures if stop then fetcher.Returned? && stopping else fetcher.Fetching?
    {
      hide Inv, Run, WorkerStep, StartStep, StopStep;
      Others(Main);
      ghost var before := View();
      stop := stopping;
      fetcher := if stop then Returned else Fetching;
      Took(before, Fetcher(CheckStopping));
    }

    /** Waits for Kafka: a message or an error, whichever it decides. */
    method FetchMessage() returns (got: bool, m: Msg)
      requires Valid() && starter.InFetchLoop? && fetcher.Fetching?
      modifies this
      ensures Valid() && starter.InFetchLoop? && |workers| == |old(workers)|
      ensures fetcher == if got then Parsing(m) else OnError
    {
      hide Inv, Run, WorkerStep, StartStep, StopStep;
      Others(Main);
      ghost var before := View();
      got := *;
      m := log.fetched;
      if got {
        fetcher := Parsing(m);
        log := log.(fetched := log.fetched + 1);
        Took(before, Fetcher(Deliver));
      } else {
        fetcher := OnError;
        Took(before, Fetcher(FetchError));
      }
    }

    /** After an error: the loop ends when the stop flag is set or the context is done. */
    method FetchFailed() returns (done: bool)
      requires Valid() && starter.InFetchLoop? && fetcher.OnError?
      modifies this
      ensures Valid() && starter.InFetchLoop? && |workers| == |old(workers)|
      ensures if done then fetcher.Returned? && stopping else fetcher.AtTop?
    {
      hide Inv, Run, WorkerStep, StartStep, StopStep;
      Others(Main);
      ghost var before := View();
      var stop := stopping;
      fetcher := if stop then Returned else OnErrorCtx;
      Took(before, Fetcher(ErrorStopping));
      if stop { return true; }
      Others(Main);
      before := View();
      done := ctxDone;
      fetcher := if done then Returned else AtTop;
      Took(before, Fetcher(ErrorContext));
      CancelledMeansStopping(config, View());
    }

    /** Whether the message is an event depends on its bytes. */
    method Parses(m: Msg) returns (good: bool)
      requires Valid() && starter.InFetchLoop? && fetcher == Parsing(m)
      modifies this
      ensures Valid() && starter.InFetchLoop? && |workers| == |old(workers)|
      ensures fetcher == if good then Sending(m) else Skipping(m)
    {
      hide Inv, Run, WorkerStep, StartStep, StopStep;
      Others(Main);
      ghost var before := View();
      good := *;
      if good {
        fetcher := Sending(m);
      } else {
        fetcher := Skipping(m);
        log := log.(skipped := log.skipped + [m]);
      }
      Took(before, Fetcher(Parse(good)));
    }

    /** Commits a message that is no event; a failure to commit is ignored. */
    method SkipMessage(m: Msg)
      requires Valid() && starter.InFetchLoop? && fetcher == Skipping(m)
      modifies this
      ensures Valid() && starter.InFetchLoop? && |workers| == |old(workers)| && fetcher.AtTop?
    {
      hide Inv, Run, WorkerStep, StartStep, StopStep;
      Others(Main);
      ghost var before := View();
      var committed: bool := *;
      log := if committed then log.(committed := log.committed + [m]) else log.(refused := log.refused + [m]);
      fetcher := AtTop;
      Took(before, Fetcher(CommitSkipped(committed)));
    }

    /** The select: send to the channel, unless it is full, or see the context done. A send on
        a closed channel would panic, so the channel must still be open. `again` when the loop
        goes on; neither when it was left waiting. */
    method SendToWorkers(m: Msg) returns (again: bool, done: bool)
      requires Valid() && starter.InFetchLoop? && fetcher == Sending(m)
      modifies this
      ensures Valid() && starter.InFetchLoop? && |workers| == |old(workers)|
      ensures again ==> fetcher.AtTop?
      ensures done ==> !again && fetcher.Returned? && stopping
      ensures !again && !done ==> fetcher == Sending(m) && |eventCh| >= config.queueSize && !ctxDone
    {
      hide Inv, Run, WorkerStep, StartStep, StopStep;
      Others(Main);
      ghost var before := View();
      OpenWhileFetching(config, before);
      var first: bool := *;
      if |eventCh| < config.queueSize && (first || !ctxDone) {
        assert !eventChClosed;
        eventCh := eventCh + [m];
        log := log.(sent := log.sent + [m]);
        fetcher := AtTop;
        Took(before, Fetcher(Send));
        return true, false;
      }
      if !ctxDone { return false, false; }
      log := log.(dropped := log.dropped + [m]);
      fetcher := Returned;
      Took(before, Fetcher(Drop));
      CancelledMeansStopping(config, View());
      return false, true;
    }

    /** Until `stopping` is seen or the context is done: fetch a message, parse it, and send
        it to the workers. `returned` is false when the loop was left running or waiting. */
    method FetchLoop() returns (returned: bool)
      requires Valid() && starter.InFetchLoop? && fetcher.AtTop?
      modifies this
      ensures Valid() && starter.InFetchLoop? && |workers| == |old(workers)|
      ensures returned ==> fetcher.Returned? && stopping
      ensures !returned ==> fetcher.AtTop? || (fetcher.Sending? && |eventCh| >= config.queueSize && !ctxDone)
    {
      hide Inv, Do, Run, FetchStep, WorkerStep, StartStep, StopStep;
      var rounds: nat :| true;  // the loop is seen up to any round
      for i := 0 to rounds
        invariant Valid() && starter.InFetchLoop? && fetcher.AtTop? && |workers| == |old(workers)|
      {
        var stop := LoadStopping();
        if stop { return true; }
        var got, m := FetchMessage();
        if !got {
          var done := FetchFailed();
          if done { return true; }
          continue;
        }
        var good := Parses(m);
        if !good {
          SkipMessage(m);
          continue;
        }
        var again, done := SendToWorkers(m);
        if !again { return done; }
      }
      return false;
    }

    // -------------------------------------------------------------- a worker

    /** The next event from the channel; none when it is empty and closed, or still open. */
    method ReceiveEvent(w: nat) returns (got: bool, m: Msg, closed: bool)
      requires Valid() && w < |workers| && workers[w].Receiving?
      modifies this
      ensures Valid() && w < |workers| && (got ==> workers[w] == Processing(m))
      ensures closed ==> !got && workers[w].Exited? && eventChClosed && eventCh == []
      ensures !got && !closed ==> workers[w].Receiving? && !eventChClosed && eventCh == []
    {
      hide Inv, Run, FetchStep, StartStep, StopStep;
      Others(WorkerAt(w));
      ghost var before := View();
      if eventCh != [] {
        m := eventCh[0];
        eventCh := eventCh[1..];
        log := log.(started := log.started + [m]);
        workers := workers[w := Processing(m)];
        Took(before, Worker(w, Receive));
        return true, m, false;
      }
      if !eventChClosed { return false, 0, false; }
      workers := workers[w := Exited];
      Took(before, Worker(w, Exit));
      return false, 0, true;
    }

    /** Hands the event to the processor, which always returns, with an error or without. */
    method ProcessEvent(w: nat, m: Msg) returns (processed: bool)
      requires Valid() && w < |workers| && workers[w] == Processing(m)
      modifies this
      ensures Valid() && w < |workers|
      ensures workers[w] == if processed then Committing(m) else Receiving
    {
      hide Inv, Run, FetchStep, StartStep, StopStep;
      Others(WorkerAt(w));
      ghost var before := View();
      processed := *;
      if processed {
        log := log.(ok := log.ok + [m]);
        workers := workers[w := Committing(m)];
      } else {
        log := log.(failed := log.failed + [m]);
        workers := workers[w := Receiving];
      }
      Took(before, Worker(w, Process(processed)));
    }

    /** Commits a processed event; a failure to commit is only logged. */
    method CommitEvent(w: nat, m: Msg)
      requires Valid() && w < |workers| && workers[w] == Committing(m)
      modifies this
      ensures Valid() && w < |workers| && workers[w].Receiving?
    {
      hide Inv, Run, FetchStep, StartStep, StopStep;
      Others(WorkerAt(w));
      ghost var before := View();
      var committed: bool := *;
      log := if committed then log.(committed := log.committed + [m]) else log.(refused := log.refused + [m]);
      workers := workers[w := Receiving];
      Took(before, Worker(w, Commit(committed)));
    }

    /** Takes events until the channel is closed and empty, and commits those processed without
        error. `exited` is false when the worker was left waiting or at work. */
    method WorkerLoop(w: nat) returns (exited: bool)
      requires Valid() && w < |workers| && workers[w].Receiving?
      modifies this
      ensures Valid() && w < |workers|
      ensures exited ==> workers[w].Exited? && eventChClosed && eventCh == []
      ensures !exited ==> workers[w].Receiving?
    {
      hide Inv, Do, Run, FetchStep, WorkerStep, StartStep, StopStep;
      var rounds: nat :| true;  // the loop is seen up to any round
      for i := 0 to rounds
        invariant Valid() && w < |workers| && workers[w].Receiving?
      {
        var got, m, closed := ReceiveEvent(w);
        if !got { return closed; }
        var processed := ProcessEvent(w, m);
        if processed {
          CommitEvent(w, m);
        }
      }
      return false;
    }

    // -------------------------------------------------------------- Start

    /** Starts one more worker. */
    method Spawn(i: nat)
      requires Valid() && starter == HasContext(i) && i < |workers|
      modifies this
      ensures Valid() && starter == HasContext(i + 1) && |workers| == |old(workers)|
    {
      hide Inv, Run, FetchStep, WorkerStep, StopStep;
      Others(Main);
      ghost var before := View();
      workers := workers[i := Receiving];
      starter := HasContext(i + 1);
      Took(before, Starter(Consumer.Spawn));
    }

    /** Publishes the cancel function of the fetch context, then starts the workers. */
    method Launch()
      requires Valid() && starter.NotStarted?
      modifies this
      ensures Valid() && starter.InFetchLoop? && fetcher.AtTop?
    {
      hide Inv, Run, FetchStep, WorkerStep, StopStep;
      Others(Main);
      ghost var before := View();
      cancelFetch := true;
      starter := HasContext(0);
      Took(before, Starter(CreateContext));
      var n := |workers|;
      for i := 0 to n
        invariant Valid() && starter == HasContext(i) && |workers| == n
      {
        Spawn(i);
      }
      Others(Main);
      before := View();
      NothingFetchedYet(config, before);
      starter := InFetchLoop;
      Took(before, Starter(EnterLoop));
    }

    /** Closes the event channel; closing it twice would panic. */
    method CloseEvents()
      requires Valid() && starter.InFetchLoop? && fetcher.Returned?
      modifies this
      ensures Valid() && starter.Draining?
    {
      hide Inv, Run, FetchStep, WorkerStep, StopStep;
      Others(Main);
      ghost var before := View();
      OpenWhileFetching(config, before);
      assert !eventChClosed;
      eventChClosed := true;
      starter := Draining;
      Took(before, Starter(CloseChannel));
    }

    /** Waits until all workers are done or the drain time is over. */
    method WaitForWorkers() returns (over: bool, drained: bool)
      requires Valid() && starter.Draining?
      modifies this
      ensures Valid() && (over ==> starter == Closing(drained))
      ensures !over ==> !drained && starter.Draining? && !AllExited(workers)
    {
      hide Inv, Run, FetchStep, WorkerStep, StopStep;
      Others(Main);
      ghost var before := View();
      var timeout: bool := *;
      if timeout {
        starter := Closing(false);
        Took(before, Starter(Timeout));
        return true, false;
      }
      if !AllExited(workers) { return false, false; }
      starter := Closing(true);
      Took(before, Starter(AllDone));
      return true, true;
    }

    /** The last thing Start does: closes the done channel; closing it twice would panic. */
    method CloseDone(drained: bool)
      requires Valid() && starter == Closing(drained)
      modifies this
      ensures Valid() && starter == Finished(drained) && doneChClosed
    {
      hide Inv, Run, FetchStep, WorkerStep, StopStep;
      Others(Main);
      ghost var before := View();
      OpenUntilFinished(config, before);
      assert !doneChClosed;
      doneChClosed := true;
      starter := Finished(drained);
      Took(before, Starter(Return));
    }

    /** Creates the context, spawns the workers, fetches until stopped, closes the channel,
        waits for the workers or the timeout, and closes doneCh. When it returns because all
        workers are done, everything put on the channel was processed exactly once. */
    method Start() returns (returned: bool, drained: bool)
      requires Valid() && starter.NotStarted?
      modifies this
      ensures Valid() && (returned ==> starter == Finished(drained) && doneChClosed)
      ensures !returned ==> !drained && (starter.InFetchLoop? || (starter.Draining? && !AllExited(workers)))
      ensures returned && drained ==> Drained(View())
    {
      hide Inv, Do, Run, FetchStep, WorkerStep, StartStep, StopStep, Drained;
      Launch();
      returned := FetchLoop();
      if !returned { return false, false; }
      CloseEvents();
      returned, drained := WaitForWorkers();
      if !returned { return false, false; }
      CloseDone(drained);
      if drained { DrainedTrace(config, trace, View()); }
    }

    // -------------------------------------------------------------- Stop

    /** Sets the stop flag. */
    method StoreStopping()
      requires Valid() && stopper.NotStopped?
      modifies this
      ensures Valid() && stopper.Signalled?
    {
      hide Inv, Run, FetchStep, WorkerStep, StartStep;
      Others(StopCaller);
      ghost var before := View();
      stopping := true;
      stopper := Signalled;
      Took(before, Stopper(Consumer.StoreStopping));
    }

    /** Whether Start has published its cancel function. */
    method LoadCancel() returns (saw: bool)
      requires Valid() && stopper.Signalled?
      modifies this
      ensures Valid() && stopper == if saw then SawCancel else Waiting
    {
      hide Inv, Run, FetchStep, WorkerStep, StartStep;
      Others(StopCaller);
      ghost var before := View();
      saw := cancelFetch;
      stopper := if saw then SawCancel else Waiting;
      Took(before, Stopper(Consumer.LoadCancel));
    }

    /** Cancels the fetch context. */
    method CallCancel()
      requires Valid() && stopper.SawCancel?
      modifies this
      ensures Valid() && stopper.Waiting?
    {
      hide Inv, Run, FetchStep, WorkerStep, StartStep;
      Others(StopCaller);
      ghost var before := View();
      ctxDone := true;
      stopper := Waiting;
      Took(before, Stopper(Consumer.CallCancel));
    }

    /** Sets `stopping`, cancels the fetch context if there is one, and waits for doneCh. While
        it waits the stop cannot be lost, and when it returns Start has finished. */
    method Stop() returns (returned: bool)
      requires Valid() && stopper.NotStopped?
      modifies this
      ensures Valid() && StopArrived(View())
      ensures returned ==> doneChClosed && starter.Finished? && stopper.StopReturned?
      ensures !returned ==> !doneChClosed && stopper.Waiting?
    {
      hide Inv, Do, Run, FetchStep, WorkerStep, StartStep, StopArrived;
      StoreStopping();
      var saw := LoadCancel();
      if saw { CallCancel(); }
      Others(StopCaller);
      Arrived(config, View());
      if !doneChClosed { return false; }
      ghost var before := View();
      stopper := StopReturned;
      ObservesDone(config, before);
      Took(before, Stopper(ObserveDone));
      Arrived(config, View());
      DoneMeansFinished(config, View());
      return true;
    }
  }
}

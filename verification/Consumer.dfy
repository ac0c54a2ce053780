/**
 The Kafka worker pool: one fetch loop, a bounded channel, N workers, and a `Stop` that
 races with `Start`. Every shared-memory access is one step; steps of the goroutines
 interleave freely. A message is named by the number of messages fetched before it.
 */
module Consumer {
  import opened Prelude
  import opened Tally

  type Msg = nat

  /** Where the fetch loop stands; the numbers are lines of consumer.go. */
  datatype FetchPc =
    | AtTop                   // 175: about to load `stopping`
    | Fetching                // 180: inside FetchMessage
    | OnError                 // 182: about to load `stopping`
    | OnErrorCtx              // 182: about to look at ctx.Err()
    | Parsing(msg: Msg)       // 192
    | Skipping(msg: Msg)      // 194: unparseable, about to commit
    | Sending(msg: Msg)       // 199: in the select
    | Returned

  datatype WorkerPc =
    | NotSpawned
    | Receiving               // 217
    | Processing(msg: Msg)    // 224
    | Committing(msg: Msg)    // 231
    | Exited

  datatype StartPc =
    | NotStarted
    | HasContext(spawned: nat)  // 125-140: cancelFetch is set, workers are being spawned
    | InFetchLoop               // 143
    | Draining                  // 155: channel closed, waiting for workers or the timeout
    | Closing(drained: bool)    // 163
    | Finished(drained: bool)   // doneCh closed

  datatype StopPc =
    | NotStopped
    | Signalled               // 251: `stopping` stored
    | SawCancel               // 254: cancelFetch was not nil
    | Waiting                 // 259
    | StopReturned

  /** The history of every message; `refused` are those whose commit failed. */
  datatype Log = Log(
    fetched: nat, sent: seq<Msg>, started: seq<Msg>,
    ok: seq<Msg>, failed: seq<Msg>, skipped: seq<Msg>, dropped: seq<Msg>,
    committed: seq<Msg>, refused: seq<Msg>)

  /** Shared memory and program counters. */
  datatype State = State(
    stopping: bool, cancelSet: bool, cancelled: bool,
    queue: seq<Msg>, closed: bool, doneClosed: bool, panicked: bool,
    starter: StartPc, fetcher: FetchPc, stopper: StopPc, workers: seq<WorkerPc>, log: Log)

  datatype Settings = Settings(numWorkers: int, queueSize: int)

  /** Settings after NewConsumer has put in its defaults. */
  type Config = s: Settings | s.numWorkers > 0 && s.queueSize > 0 witness Settings(10, 100)

  function NewConsumer(s: Settings): (c: Config)
    ensures c.numWorkers == if s.numWorkers > 0 then s.numWorkers else 10
    ensures c.queueSize == if s.queueSize > 0 then s.queueSize else 100
  {
    Settings(if s.numWorkers <= 0 then 10 else s.numWorkers, if s.queueSize <= 0 then 100 else s.queueSize)
  }

  datatype FetchAction =
    | CheckStopping | Deliver | FetchError | ErrorStopping | ErrorContext
    | Parse(good: bool) | CommitSkipped(done: bool) | Send | Drop

  datatype WorkAction = Receive | Process(good: bool) | Commit(done: bool) | Exit

  datatype StartAction = CreateContext | Spawn | EnterLoop | CloseChannel | AllDone | Timeout | Return

  datatype StopAction = StoreStopping | LoadCancel | CallCancel | ObserveDone

  /** A step of one of the goroutines. */
  datatype Action =
    | Fetcher(f: FetchAction)
    | Worker(w: nat, x: WorkAction)
    | Starter(b: StartAction)
    | Stopper(e: StopAction)

  function Init(c: Config): State {
    State(false, false, false, [], false, false, false,
          NotStarted, AtTop, NotStopped, seq(c.numWorkers, i => NotSpawned),
          Log(0, [], [], [], [], [], [], [], []))
  }

  // ---------------------------------------------------------------- steps

  function FetchStep(c: Config, s: State, a: FetchAction): Option<State> {
    match a
    case CheckStopping =>
      if !s.fetcher.AtTop? then None
      else Some(s.(fetcher := if s.stopping then Returned else Fetching))
    case Deliver =>
      if !s.fetcher.Fetching? then None
      else Some(s.(fetcher := Parsing(s.log.fetched), log := s.log.(fetched := s.log.fetched + 1)))
    case FetchError =>
      if !s.fetcher.Fetching? then None else Some(s.(fetcher := OnError))
    case ErrorStopping =>
      if !s.fetcher.OnError? then None
      else Some(s.(fetcher := if s.stopping then Returned else OnErrorCtx))
    case ErrorContext =>
      if !s.fetcher.OnErrorCtx? then None
      else Some(s.(fetcher := if s.cancelled then Returned else AtTop))
    case Parse(good) =>
      if !s.fetcher.Parsing? then None
      else if good then Some(s.(fetcher := Sending(s.fetcher.msg)))
      else Some(s.(fetcher := Skipping(s.fetcher.msg), log := s.log.(skipped := s.log.skipped + [s.fetcher.msg])))
    case CommitSkipped(done) =>
      if !s.fetcher.Skipping? then None
      else if done then Some(s.(fetcher := AtTop, log := s.log.(committed := s.log.committed + [s.fetcher.msg])))
      else Some(s.(fetcher := AtTop, log := s.log.(refused := s.log.refused + [s.fetcher.msg])))
    case Send =>
      // a send on a closed channel panics, on a full buffer it blocks
      if !s.fetcher.Sending? then None
      else if s.closed then Some(s.(panicked := true))
      else if |s.queue| >= c.queueSize then None
      else Some(s.(fetcher := AtTop, queue := s.queue + [s.fetcher.msg],
                   log := s.log.(sent := s.log.sent + [s.fetcher.msg])))
    case Drop =>
      if !s.fetcher.Sending? || !s.cancelled then None
      else Some(s.(fetcher := Returned, log := s.log.(dropped := s.log.dropped + [s.fetcher.msg])))
  }

  function WorkerStep(s: State, w: nat, x: WorkAction): Option<State> {
    if w >= |s.workers| then None
    else match x
      case Receive =>
        if !s.workers[w].Receiving? || |s.queue| == 0 then None
        else Some(s.(workers := s.workers[w := Processing(s.queue[0])], queue := s.queue[1..],
                     log := s.log.(started := s.log.started + [s.queue[0]])))
      case Process(good) =>
        if !s.workers[w].Processing? then None
        else
          var m := s.workers[w].msg;
          if good then Some(s.(workers := s.workers[w := Committing(m)], log := s.log.(ok := s.log.ok + [m])))
          else Some(s.(workers := s.workers[w := Receiving], log := s.log.(failed := s.log.failed + [m])))
      case Commit(done) =>
        if !s.workers[w].Committing? then None
        else
          var m := s.workers[w].msg;
          Some(s.(workers := s.workers[w := Receiving],
                  log := if done then s.log.(committed := s.log.committed + [m])
                         else s.log.(refused := s.log.refused + [m])))
      case Exit =>
        if !s.workers[w].Receiving? || |s.queue| > 0 || !s.closed then None
        else Some(s.(workers := s.workers[w := Exited]))
  }

  predicate AllExited(workers: seq<WorkerPc>) {
    forall i :: 0 <= i < |workers| ==> workers[i] == Exited
  }

  function StartStep(s: State, a: StartAction): Option<State> {
    match a
    case CreateContext =>
      if !s.starter.NotStarted? then None else Some(s.(starter := HasContext(0), cancelSet := true))
    case Spawn =>
      if !s.starter.HasContext? || s.starter.spawned >= |s.workers| then None
      else Some(s.(starter := HasContext(s.starter.spawned + 1),
                   workers := s.workers[s.starter.spawned := Receiving]))
    case EnterLoop =>
      if !s.starter.HasContext? || s.starter.spawned != |s.workers| then None else Some(s.(starter := InFetchLoop))
    case CloseChannel =>
      // closing a closed channel panics
      if !s.starter.InFetchLoop? || !s.fetcher.Returned? then None
      else if s.closed then Some(s.(panicked := true))
      else Some(s.(starter := Draining, closed := true))
    case AllDone =>
      if !s.starter.Draining? || !AllExited(s.workers) then None else Some(s.(starter := Closing(true)))
    case Timeout =>
      if !s.starter.Draining? then None else Some(s.(starter := Closing(false)))
    case Return =>
      if !s.starter.Closing? then None
      else if s.doneClosed then Some(s.(panicked := true))
      else Some(s.(starter := Finished(s.starter.drained), doneClosed := true))
  }

  function StopStep(s: State, a: StopAction): Option<State> {
    match a
    case StoreStopping =>
      if !s.stopper.NotStopped? then None else Some(s.(stopper := Signalled, stopping := true))
    case LoadCancel =>
      if !s.stopper.Signalled? then None
      else Some(s.(stopper := if s.cancelSet then SawCancel else Waiting))
    case CallCancel =>
      if !s.stopper.SawCancel? then None else Some(s.(stopper := Waiting, cancelled := true))
    case ObserveDone =>
      if !s.stopper.Waiting? || !s.doneClosed then None else Some(s.(stopper := StopReturned))
  }

  /** One step of the system; None when the action is not possible now. */
  function Do(c: Config, s: State, a: Action): Option<State> {
    match a
    case Fetcher(f) => if s.starter.InFetchLoop? then FetchStep(c, s, f) else None
    case Worker(w, x) => WorkerStep(s, w, x)
    case Starter(b) => StartStep(s, b)
    case Stopper(e) => StopStep(s, e)
  }

  /** Running a schedule; None when it asks for an impossible step. */
  function Run(c: Config, s: State, schedule: seq<Action>): Option<State>
    decreases |schedule|
  {
    if schedule == [] then Some(s)
    else
      var next := Do(c, s, schedule[0]);
      if next == None then None else Run(c, next.value, schedule[1..])
  }

  // ---------------------------------------------------------------- where messages are

  function One(b: bool): nat { if b then 1 else 0 }

  function Count(ms: seq<Msg>, m: Msg): nat {
    if ms == [] then 0 else One(ms[0] == m) + Count(ms[1..], m)
  }

  /** Count is the multiplicity of a message in a list. */
  lemma {:induction false} CountIsNumber(ms: seq<Msg>, m: Msg)
    ensures Count(ms, m) == Number(ms, x => x == m)
  {
    if ms != [] {
      CountIsNumber(ms[1..], m);
      NumberCons(ms[0], ms[1..], x => x == m);
      assert ms == [ms[0]] + ms[1..];
    }
  }

  function FetcherHolds(f: FetchPc, m: Msg): nat { One(f == Parsing(m) || f == Sending(m)) }

  function InProcess(w: WorkerPc, m: Msg): nat { One(w == Processing(m)) }

  function InCommit(w: WorkerPc, m: Msg): nat { One(w == Committing(m)) }

  function WorkersHold(workers: seq<WorkerPc>, m: Msg): nat {
    if workers == [] then 0 else InProcess(workers[0], m) + WorkersHold(workers[1..], m)
  }

  function ToCommit(workers: seq<WorkerPc>, m: Msg): nat {
    if workers == [] then 0 else InCommit(workers[0], m) + ToCommit(workers[1..], m)
  }

  /** How often a message occurs over all the places it can be. */
  function Places(f: FetchPc, queue: seq<Msg>, workers: seq<WorkerPc>, log: Log, m: Msg): nat {
    FetcherHolds(f, m) + Count(queue, m) + WorkersHold(workers, m)
    + Count(log.ok, m) + Count(log.failed, m) + Count(log.skipped, m) + Count(log.dropped, m)
  }

  lemma {:induction false} CountAppend(ms: seq<Msg>, x: Msg, m: Msg)
    ensures Count(ms + [x], m) == Count(ms, m) + One(x == m)
  {
    if ms == [] {
      assert ms + [x] == [x];
    } else {
      assert (ms + [x])[1..] == ms[1..] + [x];
      CountAppend(ms[1..], x, m);
    }
  }

  lemma CountHead(ms: seq<Msg>, m: Msg)
    requires ms != []
    ensures Count(ms, m) == One(ms[0] == m) + Count(ms[1..], m)
  {
  }

  lemma {:induction false} HoldUpdate(workers: seq<WorkerPc>, w: nat, x: WorkerPc, m: Msg)
    requires w < |workers|
    ensures WorkersHold(workers[w := x], m) + InProcess(workers[w], m) == WorkersHold(workers, m) + InProcess(x, m)
    ensures ToCommit(workers[w := x], m) + InCommit(workers[w], m) == ToCommit(workers, m) + InCommit(x, m)
  {
    if w == 0 {
      assert workers[0 := x][1..] == workers[1..];
    } else {
      assert workers[w := x][1..] == workers[1..][w - 1 := x];
      HoldUpdate(workers[1..], w - 1, x, m);
    }
  }

  lemma {:induction false} HoldNothing(n: nat, m: Msg)
    ensures WorkersHold(seq(n, i => NotSpawned), m) == 0 && ToCommit(seq(n, i => NotSpawned), m) == 0
  {
    if n > 0 {
      HoldNothing(n - 1, m);
      assert seq(n, i => NotSpawned)[1..] == seq(n - 1, i => NotSpawned);
    }
  }

  // ---------------------------------------------------------------- invariants

  /** The channels: bounded, closed once and only after the last send, never a panic. */
  ghost predicate ChannelsSafe(c: Config, s: State) {
    && !s.panicked
    && |s.queue| <= c.queueSize
    && (s.closed <==> s.starter.Draining? || s.starter.Closing? || s.starter.Finished?)
    && (s.doneClosed <==> s.starter.Finished?)
    && (s.closed ==> s.fetcher == Returned)
  }

  predicate Spawning(starter: StartPc) {
    starter == NotStarted || starter.HasContext?
  }

  function Spawned(starter: StartPc): nat
    requires Spawning(starter)
  {
    if starter.HasContext? then starter.spawned else 0
  }

  ghost predicate WorkerSafe(s: State, i: nat, w: WorkerPc) {
    && (w == NotSpawned <==> Spawning(s.starter) && Spawned(s.starter) <= i)
    && (w == Exited ==> s.closed && s.queue == [])
  }

  /** Workers exist once spawned, exit only from an empty closed channel, and have all
      exited when Start returns through its all-done branch. */
  ghost predicate WorkersSafe(c: Config, s: State) {
    && |s.workers| == c.numWorkers
    && (Spawning(s.starter) ==> Spawned(s.starter) <= |s.workers|)
    && (forall i :: 0 <= i < |s.workers| ==> WorkerSafe(s, i, s.workers[i]))
    && (s.starter == Closing(true) || s.starter == Finished(true) ==> AllExited(s.workers))
  }

  ghost predicate Untouched(s: State) {
    s.log.fetched == 0 && (s.fetcher == AtTop || s.fetcher == Returned)
  }

  /** No lost stop: past its cancel step, `Stop` has cancelled the fetch context, or the
      fetch loop has not got past its first look at `stopping`, which is set. */
  ghost predicate StopSeen(s: State) {
    && (s.stopping <==> s.stopper != NotStopped)
    && (s.cancelSet <==> s.starter != NotStarted)
    && (s.starter == NotStarted || s.starter.HasContext? ==> s.fetcher == AtTop && Untouched(s))
    && (s.stopper == Waiting || s.stopper == StopReturned ==> s.cancelled || Untouched(s))
    && (s.cancelled ==> s.cancelSet && (s.stopper == Waiting || s.stopper == StopReturned))
    && (s.stopper == SawCancel ==> s.cancelSet)
    && (s.stopper == StopReturned ==> s.doneClosed)
  }

  /** Process gets messages in the order they were sent; at most one message is dropped. */
  ghost predicate OrderSafe(s: State) {
    && s.log.sent == s.log.started + s.queue
    && |s.log.dropped| <= 1
    && (s.log.dropped != [] ==> s.fetcher == Returned && s.cancelled)
  }

  /** A fetched message is in exactly one place; it reaches Process only on its way to one
      of its outcomes; and every message that succeeded or could not be parsed, and no other,
      is committed, has had its commit fail, or is about to be committed. */
  ghost predicate Balanced(f: FetchPc, queue: seq<Msg>, workers: seq<WorkerPc>, log: Log, m: Msg) {
    && Places(f, queue, workers, log, m) == One(m < log.fetched)
    && Count(log.started, m) == WorkersHold(workers, m) + Count(log.ok, m) + Count(log.failed, m)
    && Count(log.committed, m) + Count(log.refused, m) + ToCommit(workers, m) + One(f == Skipping(m))
       == Count(log.ok, m) + Count(log.skipped, m)
  }

  ghost predicate MessageSafe(s: State, m: Msg) {
    Balanced(s.fetcher, s.queue, s.workers, s.log, m)
  }

  ghost predicate Inv(c: Config, s: State) {
    && ChannelsSafe(c, s) && WorkersSafe(c, s) && StopSeen(s) && OrderSafe(s)
    && forall m: Msg :: MessageSafe(s, m)
  }

  lemma InitInv(c: Config)
    ensures Inv(c, Init(c))
  {
    forall m: Msg ensures MessageSafe(Init(c), m) {
      HoldNothing(c.numWorkers, m);
    }
  }

  lemma FetchKeepsControl(c: Config, s: State, a: FetchAction)
    requires ChannelsSafe(c, s) && WorkersSafe(c, s) && StopSeen(s) && OrderSafe(s)
    requires s.starter == InFetchLoop && FetchStep(c, s, a).Some?
    ensures var t := FetchStep(c, s, a).value;
      ChannelsSafe(c, t) && WorkersSafe(c, t) && StopSeen(t) && OrderSafe(t)
  {
    if a == Send && s.fetcher.Sending? {
      assert s.log.sent + [s.fetcher.msg] == s.log.started + (s.queue + [s.fetcher.msg]);
    }
  }

  predicate EmptyHanded(f: FetchPc) {
    !f.Parsing? && !f.Skipping? && !f.Sending?
  }

  lemma FetchBalanced(f: FetchPc, g: FetchPc, queue: seq<Msg>, workers: seq<WorkerPc>, log: Log, x: Msg, m: Msg)
    requires Balanced(f, queue, workers, log, m)
    ensures EmptyHanded(f) && EmptyHanded(g) ==> Balanced(g, queue, workers, log, m)
    ensures f == Fetching ==>
      Balanced(Parsing(log.fetched), queue, workers, log.(fetched := log.fetched + 1), m)
    ensures f == Parsing(x) ==>
      && Balanced(Sending(x), queue, workers, log, m)
      && Balanced(Skipping(x), queue, workers, log.(skipped := log.skipped + [x]), m)
    ensures f == Skipping(x) ==>
      && Balanced(AtTop, queue, workers, log.(refused := log.refused + [x]), m)
      && Balanced(AtTop, queue, workers, log.(committed := log.committed + [x]), m)
    ensures f == Sending(x) ==>
      && Balanced(AtTop, queue + [x], workers, log.(sent := log.sent + [x]), m)
      && Balanced(Returned, queue, workers, log.(dropped := log.dropped + [x]), m)
  {
    hide Count, WorkersHold, ToCommit;
    CountAppend(log.skipped, x, m);
    CountAppend(log.committed, x, m);
    CountAppend(log.refused, x, m);
    CountAppend(log.dropped, x, m);
    CountAppend(queue, x, m);
  }

  lemma FetchKeepsMessage(c: Config, s: State, a: FetchAction, m: Msg)
    requires MessageSafe(s, m) && FetchStep(c, s, a).Some?
    ensures MessageSafe(FetchStep(c, s, a).value, m)
  {
    hide Balanced;
    var t := FetchStep(c, s, a).value;
    var x := if EmptyHanded(s.fetcher) then 0 else s.fetcher.msg;
    FetchBalanced(s.fetcher, t.fetcher, s.queue, s.workers, s.log, x, m);
    match a
    case CheckStopping =>
    case Deliver =>
    case FetchError =>
    case ErrorStopping =>
    case ErrorContext =>
    case Parse(_) =>
    case CommitSkipped(_) =>
    case Send =>
    case Drop =>
  }

  lemma WorkerStepShape(s: State, w: nat, x: WorkAction)
    requires WorkerStep(s, w, x).Some?
    ensures w < |s.workers|
    ensures var t := WorkerStep(s, w, x).value;
      && t.starter == s.starter && t.closed == s.closed && |t.workers| == |s.workers|
      && t.workers == s.workers[w := t.workers[w]]
      && s.workers[w] != NotSpawned && s.workers[w] != Exited && t.workers[w] != NotSpawned
      && (s.queue == [] ==> t.queue == [])
      && (t.workers[w] == Exited ==> t.closed && t.queue == [])
  {
    match x
    case Receive =>
    case Process(_) =>
    case Commit(_) =>
    case Exit =>
  }

  lemma WorkerKeepsWorkers(c: Config, s: State, w: nat, x: WorkAction)
    requires WorkersSafe(c, s) && WorkerStep(s, w, x).Some?
    ensures WorkersSafe(c, WorkerStep(s, w, x).value)
  {
    hide WorkerStep;
    WorkerStepShape(s, w, x);
    var t := WorkerStep(s, w, x).value;
    assert WorkerSafe(s, w, s.workers[w]);
    forall i | 0 <= i < |t.workers| ensures WorkerSafe(t, i, t.workers[i]) {
      assert WorkerSafe(s, i, s.workers[i]);
    }
  }

  lemma WorkerKeepsControl(c: Config, s: State, w: nat, x: WorkAction)
    requires ChannelsSafe(c, s) && WorkersSafe(c, s) && StopSeen(s) && OrderSafe(s)
    requires WorkerStep(s, w, x).Some?
    ensures var t := WorkerStep(s, w, x).value;
      ChannelsSafe(c, t) && WorkersSafe(c, t) && StopSeen(t) && OrderSafe(t)
  {
    hide WorkersSafe;
    WorkerKeepsWorkers(c, s, w, x);
    if x.Receive? {
      assert s.log.started + s.queue == s.log.started + [s.queue[0]] + s.queue[1..];
    }
  }

  lemma ReceiveBalanced(f: FetchPc, queue: seq<Msg>, workers: seq<WorkerPc>, log: Log, w: nat, m: Msg)
    requires w < |workers| && Balanced(f, queue, workers, log, m)
    requires workers[w] == Receiving && queue != []
    ensures Balanced(f, queue[1..], workers[w := Processing(queue[0])], log.(started := log.started + [queue[0]]), m)
  {
    hide Count, WorkersHold, ToCommit;
    HoldUpdate(workers, w, Processing(queue[0]), m);
    CountAppend(log.started, queue[0], m);
    CountHead(queue, m);
  }

  lemma ProcessBalanced(f: FetchPc, queue: seq<Msg>, workers: seq<WorkerPc>, log: Log, w: nat, x: Msg, m: Msg)
    requires w < |workers| && Balanced(f, queue, workers, log, m) && workers[w] == Processing(x)
    ensures Balanced(f, queue, workers[w := Committing(x)], log.(ok := log.ok + [x]), m)
    ensures Balanced(f, queue, workers[w := Receiving], log.(failed := log.failed + [x]), m)
  {
    hide Count, WorkersHold, ToCommit;
    HoldUpdate(workers, w, Committing(x), m);
    HoldUpdate(workers, w, Receiving, m);
    CountAppend(log.ok, x, m);
    CountAppend(log.failed, x, m);
  }

  lemma CommitBalanced(f: FetchPc, queue: seq<Msg>, workers: seq<WorkerPc>, log: Log, w: nat, x: Msg, m: Msg)
    requires w < |workers| && Balanced(f, queue, workers, log, m) && workers[w] == Committing(x)
    ensures Balanced(f, queue, workers[w := Receiving], log.(refused := log.refused + [x]), m)
    ensures Balanced(f, queue, workers[w := Receiving], log.(committed := log.committed + [x]), m)
  {
    hide Count, WorkersHold, ToCommit;
    HoldUpdate(workers, w, Receiving, m);
    CountAppend(log.committed, x, m);
    CountAppend(log.refused, x, m);
  }

  lemma IdleBalanced(f: FetchPc, queue: seq<Msg>, workers: seq<WorkerPc>, log: Log, w: nat, x: WorkerPc, m: Msg)
    requires w < |workers| && Balanced(f, queue, workers, log, m)
    requires !workers[w].Processing? && !workers[w].Committing? && !x.Processing? && !x.Committing?
    ensures Balanced(f, queue, workers[w := x], log, m)
  {
    hide Count, WorkersHold, ToCommit;
    HoldUpdate(workers, w, x, m);
  }

  lemma WorkerKeepsMessage(s: State, w: nat, x: WorkAction, m: Msg)
    requires MessageSafe(s, m) && WorkerStep(s, w, x).Some?
    ensures MessageSafe(WorkerStep(s, w, x).value, m)
  {
    hide Balanced;
    match x
    case Receive => ReceiveBalanced(s.fetcher, s.queue, s.workers, s.log, w, m);
    case Process(_) => ProcessBalanced(s.fetcher, s.queue, s.workers, s.log, w, s.workers[w].msg, m);
    case Commit(_) => CommitBalanced(s.fetcher, s.queue, s.workers, s.log, w, s.workers[w].msg, m);
    case Exit => IdleBalanced(s.fetcher, s.queue, s.workers, s.log, w, Exited, m);
  }

  lemma StartKeepsControl(c: Config, s: State, a: StartAction)
    requires ChannelsSafe(c, s) && WorkersSafe(c, s) && StopSeen(s) && OrderSafe(s)
    requires StartStep(s, a).Some?
    ensures var t := StartStep(s, a).value;
      ChannelsSafe(c, t) && WorkersSafe(c, t) && StopSeen(t) && OrderSafe(t)
  {
  }

  lemma StartKeepsMessage(c: Config, s: State, a: StartAction, m: Msg)
    requires WorkersSafe(c, s) && MessageSafe(s, m) && StartStep(s, a).Some?
    ensures MessageSafe(StartStep(s, a).value, m)
  {
    hide Balanced;
    if a == Spawn {
      IdleBalanced(s.fetcher, s.queue, s.workers, s.log, s.starter.spawned, Receiving, m);
    }
  }

  lemma StopKeepsControl(c: Config, s: State, a: StopAction)
    requires ChannelsSafe(c, s) && WorkersSafe(c, s) && StopSeen(s) && OrderSafe(s)
    requires StopStep(s, a).Some?
    ensures var t := StopStep(s, a).value;
      ChannelsSafe(c, t) && WorkersSafe(c, t) && StopSeen(t) && OrderSafe(t)
  {
  }

  lemma StopKeepsMessage(s: State, a: StopAction, m: Msg)
    requires MessageSafe(s, m) && StopStep(s, a).Some?
    ensures MessageSafe(StopStep(s, a).value, m)
  {
  }

  /** Every step of every goroutine keeps the invariants. */
  lemma StepKeeps(c: Config, s: State, a: Action)
    requires Inv(c, s) && Do(c, s, a).Some?
    ensures Inv(c, Do(c, s, a).value)
  {
    hide ChannelsSafe, WorkersSafe, StopSeen, OrderSafe, MessageSafe;
    hide FetchStep, WorkerStep, StartStep, StopStep;
    var t := Do(c, s, a).value;
    match a
    case Fetcher(f) =>
      FetchKeepsControl(c, s, f);
      forall m: Msg ensures MessageSafe(t, m) { FetchKeepsMessage(c, s, f, m); }
    case Worker(w, x) =>
      WorkerKeepsControl(c, s, w, x);
      forall m: Msg ensures MessageSafe(t, m) { WorkerKeepsMessage(s, w, x, m); }
    case Starter(b) =>
      StartKeepsControl(c, s, b);
      forall m: Msg ensures MessageSafe(t, m) { StartKeepsMessage(c, s, b, m); }
    case Stopper(e) =>
      StopKeepsControl(c, s, e);
      forall m: Msg ensures MessageSafe(t, m) { StopKeepsMessage(s, e, m); }
  }

  lemma {:induction false} RunKeeps(c: Config, s: State, schedule: seq<Action>)
    requires Inv(c, s) && Run(c, s, schedule).Some?
    ensures Inv(c, Run(c, s, schedule).value)
    decreases |schedule|
  {
    hide Inv, Do;
    if schedule != [] {
      StepKeeps(c, s, schedule[0]);
      RunKeeps(c, Do(c, s, schedule[0]).value, schedule[1..]);
    }
  }

  /** A run goes on with one more step. */
  lemma {:induction false} RunSnoc(c: Config, s: State, schedule: seq<Action>, a: Action)
    requires Run(c, s, schedule).Some? && Do(c, Run(c, s, schedule).value, a).Some?
    ensures Run(c, s, schedule + [a]) == Do(c, Run(c, s, schedule).value, a)
    decreases |schedule|
  {
    hide Do;
    if schedule == [] {
      assert [a][1..] == [];
      assert Run(c, s, [] + [a]) == Run(c, Do(c, s, a).value, []);
    } else {
      assert (schedule + [a])[1..] == schedule[1..] + [a];
      RunSnoc(c, Do(c, s, schedule[0]).value, schedule[1..], a);
    }
  }
}

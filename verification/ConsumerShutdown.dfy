/** What every run of the consumer guarantees: safety, no lost stop, and a shutdown that ends. */
module ConsumerShutdown {
  import opened Prelude
  import opened Consumer
  import opened Tally

  // ---------------------------------------------------------------- safety of every run

  lemma PlacesBound(f: FetchPc, queue: seq<Msg>, workers: seq<WorkerPc>, log: Log, m: Msg)
    ensures WorkersHold(workers, m) + Count(log.ok, m) + Count(log.failed, m) + Count(log.skipped, m)
            <= Places(f, queue, workers, log, m)
  {
  }

  /** Main result: whatever the interleaving, the channels never panic or overflow, every
      fetched message is in exactly one place, none enters Process twice, at most one is
      dropped, and every unparseable or succeeded message, and no other, is committed, has had
      its commit fail, or is about to be committed, once each. */
  lemma Safety(c: Config, schedule: seq<Action>)
    requires Run(c, Init(c), schedule).Some?
    ensures var s := Run(c, Init(c), schedule).value;
      && !s.panicked && |s.queue| <= c.queueSize && |s.log.dropped| <= 1
      && (s.closed ==> s.fetcher.Returned? && !s.starter.InFetchLoop?) && (s.doneClosed ==> !s.starter.Closing?)
      && s.log.sent == s.log.started + s.queue
      && forall m: Msg ::
           && Places(s.fetcher, s.queue, s.workers, s.log, m) == One(m < s.log.fetched)
           && Count(s.log.started, m) <= 1 && Count(s.log.committed, m) <= 1
           && (Count(s.log.committed, m) == 1 ==> Count(s.log.ok, m) + Count(s.log.skipped, m) == 1)
           && Count(s.log.committed, m) + Count(s.log.refused, m)
              + ToCommit(s.workers, m) + One(s.fetcher == Skipping(m))
              == Count(s.log.ok, m) + Count(s.log.skipped, m)
  {
    hide Places, Run;
    InitInv(c);
    RunKeeps(c, Init(c), schedule);
    var s := Run(c, Init(c), schedule).value;
    forall m: Msg ensures
      && Places(s.fetcher, s.queue, s.workers, s.log, m) == One(m < s.log.fetched)
      && Count(s.log.started, m) <= 1 && Count(s.log.committed, m) <= 1
      && (Count(s.log.committed, m) == 1 ==> Count(s.log.ok, m) + Count(s.log.skipped, m) == 1)
      && Count(s.log.committed, m) + Count(s.log.refused, m) + ToCommit(s.workers, m) + One(s.fetcher == Skipping(m))
         == Count(s.log.ok, m) + Count(s.log.skipped, m)
    {
      assert MessageSafe(s, m);
      PlacesBound(s.fetcher, s.queue, s.workers, s.log, m);
    }
  }

  lemma {:induction false} ExitedHoldNothing(workers: seq<WorkerPc>, m: Msg)
    requires AllExited(workers)
    ensures WorkersHold(workers, m) == 0 && ToCommit(workers, m) == 0
  {
    if workers != [] {
      assert AllExited(workers[1..]);
      ExitedHoldNothing(workers[1..], m);
    }
  }

  /** When Start returns because all workers finished, nothing is left queued, every message
      put on the channel went through Process exactly once, every fetched message was
      processed, skipped as unparseable, or dropped at the cancel, and every message that
      succeeded or was skipped has been committed unless its commit failed. */
  lemma DrainedMeansProcessed(c: Config, schedule: seq<Action>)
    requires Run(c, Init(c), schedule).Some?
    requires Run(c, Init(c), schedule).value.starter == Finished(true)
    ensures var s := Run(c, Init(c), schedule).value;
      && s.queue == [] && s.log.started == s.log.sent
      && forall m: Msg ::
           && Count(s.log.ok, m) + Count(s.log.failed, m) == Count(s.log.sent, m)
           && Count(s.log.sent, m) + Count(s.log.skipped, m) + Count(s.log.dropped, m) == One(m < s.log.fetched)
           && Count(s.log.committed, m) + Count(s.log.refused, m) == Count(s.log.ok, m) + Count(s.log.skipped, m)
  {
    hide Run;
    InitInv(c);
    RunKeeps(c, Init(c), schedule);
    var s := Run(c, Init(c), schedule).value;
    assert WorkerSafe(s, 0, s.workers[0]);
    forall m: Msg ensures
      && Count(s.log.ok, m) + Count(s.log.failed, m) == Count(s.log.sent, m)
      && Count(s.log.sent, m) + Count(s.log.skipped, m) + Count(s.log.dropped, m) == One(m < s.log.fetched)
      && Count(s.log.committed, m) + Count(s.log.refused, m) == Count(s.log.ok, m) + Count(s.log.skipped, m)
    {
      ExitedHoldNothing(s.workers, m);
      assert s.log.started == s.log.sent;
      assert MessageSafe(s, m);
    }
  }

  // ---------------------------------------------------------------- the log tells the schedule

  /** A call that commits a message, and whether it succeeds. */
  predicate Commits(a: Action, done: bool) {
    a == Fetcher(CommitSkipped(done)) || (a.Worker? && a.x == Commit(done))
  }

  /** Between two logs every delivery, send, receive, outcome and commit of the schedule was
      recorded once, and nothing else. */
  ghost predicate Tells(before: Log, after: Log, schedule: seq<Action>) {
    && after.fetched == before.fetched + Number(schedule, a => a == Fetcher(Deliver))
    && |after.sent| == |before.sent| + Number(schedule, a => a == Fetcher(Send))
    && |after.dropped| == |before.dropped| + Number(schedule, a => a == Fetcher(Drop))
    && |after.skipped| == |before.skipped| + Number(schedule, a => a == Fetcher(Parse(false)))
    && |after.started| == |before.started| + Number(schedule, (a: Action) => a.Worker? && a.x == Receive)
    && |after.ok| == |before.ok| + Number(schedule, (a: Action) => a.Worker? && a.x == Process(true))
    && |after.failed| == |before.failed| + Number(schedule, (a: Action) => a.Worker? && a.x == Process(false))
    && |after.committed| == |before.committed| + Number(schedule, a => Commits(a, true))
    && |after.refused| == |before.refused| + Number(schedule, a => Commits(a, false))
  }

  /** How much longer one action makes the logs. */
  ghost predicate Records(before: Log, after: Log, a: Action) {
    && after.fetched == before.fetched + One(a == Fetcher(Deliver))
    && |after.sent| == |before.sent| + One(a == Fetcher(Send))
    && |after.dropped| == |before.dropped| + One(a == Fetcher(Drop))
    && |after.skipped| == |before.skipped| + One(a == Fetcher(Parse(false)))
    && |after.started| == |before.started| + One(a.Worker? && a.x == Receive)
    && |after.ok| == |before.ok| + One(a.Worker? && a.x == Process(true))
    && |after.failed| == |before.failed| + One(a.Worker? && a.x == Process(false))
    && |after.committed| == |before.committed| + One(Commits(a, true))
    && |after.refused| == |before.refused| + One(Commits(a, false))
  }

  /** An action that leaves the logs alone. */
  predicate Silent(a: Action) {
    match a
    case Fetcher(f) => !(f.Deliver? || f.Send? || f.Drop? || f == Parse(false) || f.CommitSkipped?)
    case Worker(_, x) => x.Exit?
    case _ => true
  }

  lemma Same(log: Log, a: Action)
    requires Silent(a)
    ensures Records(log, log, a)
  {}

  /** The log with m recorded by the action. */
  function After(log: Log, m: Msg, a: Action): Log {
    match a
    case Fetcher(Deliver) => log.(fetched := log.fetched + 1)
    case Fetcher(Send) => log.(sent := log.sent + [m])
    case Fetcher(Drop) => log.(dropped := log.dropped + [m])
    case Fetcher(Parse(good)) => log.(skipped := log.skipped + [m])
    case Worker(_, Receive) => log.(started := log.started + [m])
    case Worker(_, Process(good)) =>
      if good then log.(ok := log.ok + [m]) else log.(failed := log.failed + [m])
    case _ =>
      if Commits(a, true) then log.(committed := log.committed + [m]) else log.(refused := log.refused + [m])
  }

  lemma Grown(log: Log, m: Msg, a: Action)
    requires !Silent(a)
    ensures Records(log, After(log, m, a), a)
  {}

  lemma FetchRecords(c: Config, s: State, f: FetchAction)
    requires !s.closed && FetchStep(c, s, f).Some?
    ensures Records(s.log, FetchStep(c, s, f).value.log, Fetcher(f))
  {
    hide Records;
    match f
    case Deliver => Grown(s.log, 0, Fetcher(f));
    case Parse(good) => if good { Same(s.log, Fetcher(f)); } else { Grown(s.log, s.fetcher.msg, Fetcher(f)); }
    case CommitSkipped(_) => Grown(s.log, s.fetcher.msg, Fetcher(f));
    case Send => Grown(s.log, s.fetcher.msg, Fetcher(f));
    case Drop => Grown(s.log, s.fetcher.msg, Fetcher(f));
    case _ => Same(s.log, Fetcher(f));
  }

  lemma WorkerRecords(s: State, w: nat, x: WorkAction)
    requires WorkerStep(s, w, x).Some?
    ensures Records(s.log, WorkerStep(s, w, x).value.log, Worker(w, x))
  {
    hide Records;
    match x
    case Receive => Grown(s.log, s.queue[0], Worker(w, x));
    case Process(_) => Grown(s.log, s.workers[w].msg, Worker(w, x));
    case Commit(_) => Grown(s.log, s.workers[w].msg, Worker(w, x));
    case Exit => Same(s.log, Worker(w, x));
  }

  lemma StartRecords(s: State, b: StartAction)
    requires StartStep(s, b).Some?
    ensures Records(s.log, StartStep(s, b).value.log, Starter(b))
  {
    hide Records;
    Same(s.log, Starter(b));
  }

  lemma StopRecords(s: State, e: StopAction)
    requires StopStep(s, e).Some?
    ensures Records(s.log, StopStep(s, e).value.log, Stopper(e))
  {
    hide Records;
    Same(s.log, Stopper(e));
  }

  lemma ActionRecords(c: Config, s: State, a: Action)
    requires Inv(c, s) && Do(c, s, a).Some?
    ensures Records(s.log, Do(c, s, a).value.log, a)
  {
    hide WorkersSafe, StopSeen, OrderSafe, MessageSafe, FetchStep, WorkerStep, StartStep, StopStep, Records;
    match a
    case Fetcher(f) => FetchRecords(c, s, f);
    case Worker(w, x) => WorkerRecords(s, w, x);
    case Starter(b) => StartRecords(s, b);
    case Stopper(e) => StopRecords(s, e);
  }

  lemma TellsCons(c: Config, s: State, a: Action, after: Log, rest: seq<Action>)
    requires Inv(c, s) && Do(c, s, a).Some? && Tells(Do(c, s, a).value.log, after, rest)
    ensures Tells(s.log, after, [a] + rest)
  {
    hide Do, Inv, Number;
    ActionRecords(c, s, a);
    NumberCons(a, rest, a => a == Fetcher(Deliver));
    NumberCons(a, rest, a => a == Fetcher(Send));
    NumberCons(a, rest, a => a == Fetcher(Drop));
    NumberCons(a, rest, a => a == Fetcher(Parse(false)));
    NumberCons(a, rest, (a: Action) => a.Worker? && a.x == Receive);
    NumberCons(a, rest, (a: Action) => a.Worker? && a.x == Process(true));
    NumberCons(a, rest, (a: Action) => a.Worker? && a.x == Process(false));
    NumberCons(a, rest, a => Commits(a, true));
    NumberCons(a, rest, a => Commits(a, false));
  }

  lemma {:induction false} LogTellsSchedule(c: Config, s: State, schedule: seq<Action>)
    requires Inv(c, s) && Run(c, s, schedule).Some?
    ensures Tells(s.log, Run(c, s, schedule).value.log, schedule)
    decreases |schedule|
  {
    hide Inv, Do;
    if schedule != [] {
      hide Tells;
      StepKeeps(c, s, schedule[0]);
      var t := Do(c, s, schedule[0]).value;
      LogTellsSchedule(c, t, schedule[1..]);
      TellsCons(c, s, schedule[0], Run(c, s, schedule).value.log, schedule[1..]);
      assert schedule == [schedule[0]] + schedule[1..];
    }
  }

  lemma NoneSuch(schedule: seq<Action>, p: Action -> bool)
    requires forall a :: a in schedule ==> !p(a)
    ensures Number(schedule, p) == 0
  {
    assert (set i: nat | i < |schedule| && p(schedule[i])) == {};
  }

  /** Main result: when no commit fails and the workers are done, every message that succeeded
      and every message that could not be parsed has been committed exactly once, and no other. */
  lemma EverythingCommitted(c: Config, schedule: seq<Action>)
    requires Run(c, Init(c), schedule).Some? && Run(c, Init(c), schedule).value.starter == Finished(true)
    requires forall a :: a in schedule ==> !Commits(a, false)
    ensures var log := Run(c, Init(c), schedule).value.log;
      forall m: Msg :: Count(log.committed, m) == Count(log.ok, m) + Count(log.skipped, m) <= 1
  {
    hide Run, Number;
    InitInv(c);
    LogTellsSchedule(c, Init(c), schedule);
    NoneSuch(schedule, a => Commits(a, false));
    Safety(c, schedule);
    DrainedMeansProcessed(c, schedule);
    assert Run(c, Init(c), schedule).value.log.refused == [];
  }

  // ---------------------------------------------------------------- messages get through

  lemma RunFirst(c: Config, s: State, schedule: seq<Action>, t: State)
    requires schedule != [] && Do(c, s, schedule[0]) == Some(t)
    ensures Run(c, s, schedule) == Run(c, t, schedule[1..])
  {
    hide Do;
  }

  lemma NoActions(c: Config, s: State)
    ensures Run(c, s, []) == Some(s)
  {}

  /** A consumer that is not stopping, with nothing queued and a worker waiting. */
  ghost predicate Idle(s: State, w: nat) {
    && s.starter.InFetchLoop? && s.fetcher.AtTop? && !s.stopping && !s.closed && s.queue == []
    && w < |s.workers| && s.workers[w].Receiving?
  }

  /** The fetch loop takes a message from Kafka and puts it on the channel. */
  lemma Fetches(c: Config, s: State, w: nat, schedule: seq<Action>)
    requires Idle(s, w)
    requires |schedule| >= 4
    requires schedule[..4] == [Fetcher(CheckStopping), Fetcher(Deliver), Fetcher(Parse(true)), Fetcher(Send)]
    ensures var m := s.log.fetched;
      Run(c, s, schedule)
      == Run(c, s.(queue := [m], log := s.log.(fetched := m + 1, sent := s.log.sent + [m])), schedule[4..])
  {
    hide Run;
    var m := s.log.fetched;
    var s1 := s.(fetcher := Fetching);
    var s2 := s.(fetcher := Parsing(m), log := s.log.(fetched := m + 1));
    var s3 := s2.(fetcher := Sending(m));
    assert s3.queue + [m] == [m];
    var s4 := s.(queue := [m], log := s.log.(fetched := m + 1, sent := s.log.sent + [m]));
    assert forall i :: 0 <= i < 4 ==> schedule[i] == schedule[..4][i];
    RunFirst(c, s, schedule, s1);
    RunFirst(c, s1, schedule[1..], s2);
    RunFirst(c, s2, schedule[1..][1..], s3);
    RunFirst(c, s3, schedule[1..][1..][1..], s4);
    assert schedule[1..][1..][1..][1..] == schedule[4..];
  }

  function Received(s: State, w: nat, m: Msg): State
    requires w < |s.workers|
  {
    s.(queue := [], workers := s.workers[w := Processing(m)], log := s.log.(started := s.log.started + [m]))
  }

  lemma Takes(c: Config, s: State, w: nat, m: Msg, schedule: seq<Action>)
    requires w < |s.workers| && s.workers[w].Receiving? && s.queue == [m]
    requires schedule != [] && schedule[0] == Worker(w, Receive)
    ensures Run(c, s, schedule) == Run(c, Received(s, w, m), schedule[1..])
  {
    assert s.queue[1..] == [];
    RunFirst(c, s, schedule, Received(s, w, m));
  }

  /** The log of a commit call. */
  function Called(log: Log, m: Msg, done: bool): Log {
    if done then log.(committed := log.committed + [m]) else log.(refused := log.refused + [m])
  }

  /** A waiting worker takes the queued message, processes it and makes its commit call. */
  lemma Succeeds(c: Config, s: State, w: nat, m: Msg, done: bool)
    requires w < |s.workers| && s.workers[w].Receiving? && s.queue == [m]
    ensures Run(c, s, [Worker(w, Receive), Worker(w, Process(true)), Worker(w, Commit(done))])
         == Some(s.(queue := [], log := Called(s.log.(started := s.log.started + [m], ok := s.log.ok + [m]), m, done)))
  {
    hide Run;
    var schedule := [Worker(w, Receive), Worker(w, Process(true)), Worker(w, Commit(done))];
    var s1 := Received(s, w, m);
    var s2 := s1.(workers := s.workers[w := Committing(m)], log := s1.log.(ok := s.log.ok + [m]));
    var s3 := s2.(workers := s.workers, log := Called(s2.log, m, done));
    assert s1.workers[w := Committing(m)] == s2.workers && s2.workers[w := Receiving] == s.workers;
    Takes(c, s, w, m, schedule);
    RunFirst(c, s1, schedule[1..], s2);
    RunFirst(c, s2, schedule[1..][1..], s3);
    assert schedule[1..][1..][1..] == [];
    NoActions(c, s3);
  }

  /** A message whose processing fails is not committed. */
  lemma FailsToProcess(c: Config, s: State, w: nat, m: Msg)
    requires w < |s.workers| && s.workers[w].Receiving? && s.queue == [m]
    ensures Run(c, s, [Worker(w, Receive), Worker(w, Process(false))])
         == Some(s.(queue := [], log := s.log.(started := s.log.started + [m], failed := s.log.failed + [m])))
  {
    hide Run;
    var schedule := [Worker(w, Receive), Worker(w, Process(false))];
    var s1 := Received(s, w, m);
    var s2 := s1.(workers := s.workers, log := s1.log.(failed := s.log.failed + [m]));
    assert s1.workers[w := Receiving] == s.workers;
    Takes(c, s, w, m, schedule);
    RunFirst(c, s1, schedule[1..], s2);
    assert schedule[1..][1..] == [];
    NoActions(c, s2);
  }

  /** Main result: an idle consumer can always take the next message from Kafka to its end,
      and nothing else changes: it is processed and its commit call made, or its processing
      fails and it is not committed. */
  lemma MessagesPass(c: Config, s: State, w: nat, done: bool)
    requires Idle(s, w)
    ensures var m := s.log.fetched;
      var fetch := [Fetcher(CheckStopping), Fetcher(Deliver), Fetcher(Parse(true)), Fetcher(Send)];
      var log := s.log.(fetched := m + 1, sent := s.log.sent + [m], started := s.log.started + [m]);
      && Run(c, s, fetch + [Worker(w, Receive), Worker(w, Process(true)), Worker(w, Commit(done))])
         == Some(s.(log := Called(log.(ok := s.log.ok + [m]), m, done)))
      && Run(c, s, fetch + [Worker(w, Receive), Worker(w, Process(false))])
         == Some(s.(log := log.(failed := s.log.failed + [m])))
  {
    hide Run;
    var m := s.log.fetched;
    var queued := s.(queue := [m], log := s.log.(fetched := m + 1, sent := s.log.sent + [m]));
    var fetch := [Fetcher(CheckStopping), Fetcher(Deliver), Fetcher(Parse(true)), Fetcher(Send)];
    var work := [Worker(w, Receive), Worker(w, Process(true)), Worker(w, Commit(done))];
    var fail := [Worker(w, Receive), Worker(w, Process(false))];
    assert (fetch + work)[..4] == fetch && (fetch + work)[4..] == work;
    assert (fetch + fail)[..4] == fetch && (fetch + fail)[4..] == fail;
    Fetches(c, s, w, fetch + work);
    Fetches(c, s, w, fetch + fail);
    Succeeds(c, queued, w, m, done);
    FailsToProcess(c, queued, w, m);
  }

  /** A message that is no event has its commit call made, and the loop goes on. */
  lemma SkippedPass(c: Config, s: State, w: nat, done: bool)
    requires Idle(s, w)
    ensures var m := s.log.fetched;
      Run(c, s, [Fetcher(CheckStopping), Fetcher(Deliver), Fetcher(Parse(false)), Fetcher(CommitSkipped(done))])
      == Some(s.(log := Called(s.log.(fetched := m + 1, skipped := s.log.skipped + [m]), m, done)))
  {
    hide Run;
    var m := s.log.fetched;
    var schedule := [Fetcher(CheckStopping), Fetcher(Deliver), Fetcher(Parse(false)), Fetcher(CommitSkipped(done))];
    var s1 := s.(fetcher := Fetching);
    var s2 := s.(fetcher := Parsing(m), log := s.log.(fetched := m + 1));
    var s3 := s.(fetcher := Skipping(m), log := s2.log.(skipped := s.log.skipped + [m]));
    var s4 := s.(log := Called(s3.log, m, done));
    RunFirst(c, s, schedule, s1);
    RunFirst(c, s1, schedule[1..], s2);
    RunFirst(c, s2, schedule[1..][1..], s3);
    RunFirst(c, s3, schedule[1..][1..][1..], s4);
    assert schedule[1..][1..][1..][1..] == [];
    NoActions(c, s4);
  }

  /** A failed fetch ends the loop of a consumer that is stopping or cancelled, and of no other. */
  lemma ErrorsPass(c: Config, s: State)
    requires s.starter.InFetchLoop? && s.fetcher.Fetching?
    ensures Run(c, s, if s.stopping then [Fetcher(FetchError), Fetcher(ErrorStopping)]
                      else [Fetcher(FetchError), Fetcher(ErrorStopping), Fetcher(ErrorContext)])
         == Some(s.(fetcher := if s.stopping || s.cancelled then Returned else AtTop))
  {
    hide Run;
    var schedule := if s.stopping then [Fetcher(FetchError), Fetcher(ErrorStopping)]
                    else [Fetcher(FetchError), Fetcher(ErrorStopping), Fetcher(ErrorContext)];
    var s1, s2 := s.(fetcher := OnError), s.(fetcher := if s.stopping then Returned else OnErrorCtx);
    var s3 := s.(fetcher := if s.stopping || s.cancelled then Returned else AtTop);
    RunFirst(c, s, schedule, s1);
    RunFirst(c, s1, schedule[1..], s2);
    if s.stopping {
      assert schedule[1..][1..] == [];
    } else {
      RunFirst(c, s2, schedule[1..][1..], s3);
      assert schedule[1..][1..][1..] == [];
    }
    NoActions(c, s3);
  }

  /** Start ends drained when all workers have exited, and at the drain timeout whatever they do. */
  lemma DrainEnds(c: Config, s: State, drained: bool)
    requires s.starter.Draining? && !s.doneClosed && (drained ==> AllExited(s.workers))
    ensures Run(c, s, [Starter(if drained then AllDone else Timeout), Starter(Return)])
         == Some(s.(starter := Finished(drained), doneClosed := true))
  {
    hide Run;
    var schedule := [Starter(if drained then AllDone else Timeout), Starter(Return)];
    var s1, s2 := s.(starter := Closing(drained)), s.(starter := Finished(drained), doneClosed := true);
    RunFirst(c, s, schedule, s1);
    RunFirst(c, s1, schedule[1..], s2);
    assert schedule[1..][1..] == [];
    NoActions(c, s2);
  }

  // ---------------------------------------------------------------- no lost stop

  /** Main result: once `Stop` is past its cancel step, `stopping` is set and either the
      fetch context is cancelled or the fetch loop has fetched nothing and stands before
      its first look at `stopping`, at which it returns. This covers a Stop that saw a nil
      cancelFetch. */
  lemma NoLostStop(c: Config, schedule: seq<Action>)
    requires Run(c, Init(c), schedule).Some?
    requires var s := Run(c, Init(c), schedule).value; s.stopper == Waiting || s.stopper == StopReturned
    ensures var s := Run(c, Init(c), schedule).value;
      && s.stopping
      && (s.cancelled || (s.log.fetched == 0 && (s.fetcher == AtTop || s.fetcher == Returned)))
      && (s.fetcher == AtTop && s.starter == InFetchLoop ==>
            Do(c, s, Fetcher(CheckStopping)) == Some(s.(fetcher := Returned)))
  {
    hide Run;
    InitInv(c);
    RunKeeps(c, Init(c), schedule);
  }

  /** A fetch that has begun may still deliver one message after `stopping` is set. */
  function FetchBudget(f: FetchPc): nat { One(f == Fetching) }

  lemma FetchStays(c: Config, s: State, a: FetchAction)
    requires FetchStep(c, s, a).Some?
    ensures var t := FetchStep(c, s, a).value;
      && t.stopping == s.stopping
      && (s.stopping ==> t.log.fetched + FetchBudget(t.fetcher) <= s.log.fetched + FetchBudget(s.fetcher))
  {
    match a
    case CheckStopping =>
    case Deliver =>
    case FetchError =>
    case ErrorStopping =>
    case ErrorContext =>
    case Parse(_) =>
    case CommitSkipped(_) =>
    case Send =>
    case Drop =>
  }

  lemma WorkerStays(s: State, w: nat, x: WorkAction)
    requires WorkerStep(s, w, x).Some?
    ensures var t := WorkerStep(s, w, x).value;
      t.stopping == s.stopping && t.log.fetched == s.log.fetched && t.fetcher == s.fetcher
  {
    match x
    case Receive =>
    case Process(_) =>
    case Commit(_) =>
    case Exit =>
  }

  lemma StartStays(s: State, a: StartAction)
    requires StartStep(s, a).Some?
    ensures var t := StartStep(s, a).value;
      t.stopping == s.stopping && t.log.fetched == s.log.fetched && t.fetcher == s.fetcher
  {
    match a
    case CreateContext =>
    case Spawn =>
    case EnterLoop =>
    case CloseChannel =>
    case AllDone =>
    case Timeout =>
    case Return =>
  }

  lemma StopStays(s: State, a: StopAction)
    requires StopStep(s, a).Some?
    ensures var t := StopStep(s, a).value;
      (s.stopping ==> t.stopping) && t.log.fetched == s.log.fetched && t.fetcher == s.fetcher
  {
  }

  lemma StoppingStays(c: Config, s: State, a: Action)
    requires s.stopping && Do(c, s, a).Some?
    ensures var t := Do(c, s, a).value;
      t.stopping && t.log.fetched + FetchBudget(t.fetcher) <= s.log.fetched + FetchBudget(s.fetcher)
  {
    hide FetchStep, WorkerStep, StartStep, StopStep;
    match a
    case Fetcher(f) => FetchStays(c, s, f);
    case Worker(w, x) => WorkerStays(s, w, x);
    case Starter(b) => StartStays(s, b);
    case Stopper(e) => StopStays(s, e);
  }

  lemma {:induction false} AtMostOneMoreFetch(c: Config, s: State, schedule: seq<Action>)
    requires s.stopping && Run(c, s, schedule).Some?
    ensures var t := Run(c, s, schedule).value;
      && t.stopping
      && t.log.fetched + FetchBudget(t.fetcher) <= s.log.fetched + FetchBudget(s.fetcher) <= s.log.fetched + 1
    decreases |schedule|
  {
    hide Do;
    if schedule != [] {
      StoppingStays(c, s, schedule[0]);
      AtMostOneMoreFetch(c, Do(c, s, schedule[0]).value, schedule[1..]);
    }
  }

  // ---------------------------------------------------------------- shutdown ends

  function FetchRank(f: FetchPc): nat {
    match f
    case Returned => 0
    case AtTop => 1
    case OnErrorCtx => 2
    case Skipping(_) => 2
    case OnError => 3
    case Sending(_) => 6
    case Parsing(_) => 7
    case Fetching => 8
  }

  function WorkerRank(w: WorkerPc): nat {
    match w
    case Exited => 0
    case Receiving => 1
    case NotSpawned => 2
    case Committing(_) => 2
    case Processing(_) => 3
  }

  function WorkersRank(workers: seq<WorkerPc>): nat {
    if workers == [] then 0 else WorkerRank(workers[0]) + WorkersRank(workers[1..])
  }

  function StartRank(x: StartPc): nat {
    match x
    case Finished(_) => 0
    case Closing(_) => 1
    case Draining => 2
    case InFetchLoop => 3
    case HasContext(_) => 4
    case NotStarted => 5
  }

  function StopRank(x: StopPc): nat {
    match x
    case StopReturned => 0
    case Waiting => 1
    case SawCancel => 2
    case Signalled => 3
    case NotStopped => 4
  }

  /** The work left: positions of the goroutines plus four steps for each queued message. */
  function Measure(s: State): nat {
    FetchRank(s.fetcher) + 4 * |s.queue| + WorkersRank(s.workers) + StartRank(s.starter) + StopRank(s.stopper)
  }

  lemma {:induction false} RankUpdate(workers: seq<WorkerPc>, w: nat, x: WorkerPc)
    requires w < |workers|
    ensures WorkersRank(workers[w := x]) + WorkerRank(workers[w]) == WorkersRank(workers) + WorkerRank(x)
  {
    if w == 0 {
      assert workers[0 := x][1..] == workers[1..];
    } else {
      assert workers[w := x][1..] == workers[1..][w - 1 := x];
      RankUpdate(workers[1..], w - 1, x);
    }
  }

  lemma FetchDecreases(c: Config, s: State, a: FetchAction)
    requires ChannelsSafe(c, s) && s.starter == InFetchLoop && s.stopping && FetchStep(c, s, a).Some?
    ensures Measure(FetchStep(c, s, a).value) < Measure(s)
  {
    hide WorkersRank;
  }

  lemma WorkerStepRank(s: State, w: nat, x: WorkAction)
    requires WorkerStep(s, w, x).Some?
    ensures var t := WorkerStep(s, w, x).value;
      && w < |s.workers| == |t.workers|
      && t.fetcher == s.fetcher && t.starter == s.starter && t.stopper == s.stopper
      && 4 * |t.queue| + WorkerRank(t.workers[w]) < 4 * |s.queue| + WorkerRank(s.workers[w])
  {
    match x
    case Receive =>
    case Process(_) =>
    case Commit(_) =>
    case Exit =>
  }

  lemma WorkerDecreases(s: State, w: nat, x: WorkAction)
    requires WorkerStep(s, w, x).Some?
    ensures Measure(WorkerStep(s, w, x).value) < Measure(s)
  {
    hide WorkersRank, WorkerStep, WorkerRank, FetchRank, StartRank, StopRank;
    var t := WorkerStep(s, w, x).value;
    WorkerStepShape(s, w, x);
    WorkerStepRank(s, w, x);
    RankUpdate(s.workers, w, t.workers[w]);
  }

  lemma SpawnsUnspawned(c: Config, s: State)
    requires Inv(c, s) && s.starter.HasContext? && s.starter.spawned < |s.workers|
    ensures s.workers[s.starter.spawned] == NotSpawned
  {
    assert WorkerSafe(s, s.starter.spawned, s.workers[s.starter.spawned]);
  }

  lemma StartDecreases(c: Config, s: State, a: StartAction)
    requires Inv(c, s) && StartStep(s, a).Some?
    ensures Measure(StartStep(s, a).value) < Measure(s)
  {
    hide WorkersSafe, MessageSafe, WorkersRank, OrderSafe, StopSeen;
    if a == Spawn {
      SpawnsUnspawned(c, s);
      RankUpdate(s.workers, s.starter.spawned, Receiving);
    }
  }

  lemma StopDecreases(s: State, a: StopAction)
    requires StopStep(s, a).Some?
    ensures Measure(StopStep(s, a).value) < Measure(s)
  {
    hide WorkersRank;
  }

  /** After `stopping` is set every step of every goroutine uses up some of the work. */
  lemma StepDecreases(c: Config, s: State, a: Action)
    requires Inv(c, s) && s.stopping && Do(c, s, a).Some?
    ensures Measure(Do(c, s, a).value) < Measure(s)
  {
    hide FetchStep, WorkerStep, StartStep, StopStep, Measure, WorkersSafe, MessageSafe, OrderSafe, StopSeen;
    match a
    case Fetcher(f) => FetchDecreases(c, s, f);
    case Worker(w, x) => WorkerDecreases(s, w, x);
    case Starter(b) => StartDecreases(c, s, b);
    case Stopper(e) => StopDecreases(s, e);
  }

  /** Main result: after `stopping` is set no run is longer than the work left. */
  lemma {:induction false} ShutdownIsBounded(c: Config, s: State, schedule: seq<Action>)
    requires Inv(c, s) && s.stopping && Run(c, s, schedule).Some?
    ensures |schedule| + Measure(Run(c, s, schedule).value) <= Measure(s)
    decreases |schedule|
  {
    hide Inv, Do, Measure;
    if schedule != [] {
      StepKeeps(c, s, schedule[0]);
      StepDecreases(c, s, schedule[0]);
      StoppingStays(c, s, schedule[0]);
      ShutdownIsBounded(c, Do(c, s, schedule[0]).value, schedule[1..]);
    }
  }

  // ---------------------------------------------------------------- shutdown cannot get stuck

  function NextFetch(f: FetchPc): FetchAction
    requires f != Returned
  {
    match f
    case AtTop => CheckStopping
    case Fetching => FetchError
    case OnError => ErrorStopping
    case OnErrorCtx => ErrorContext
    case Parsing(_) => Parse(true)
    case Skipping(_) => CommitSkipped(true)
    case Sending(_) => Drop
  }

  function NextWorker(s: State, w: nat): Action
    decreases |s.workers| - w
  {
    if w >= |s.workers| then Starter(AllDone)
    else match s.workers[w]
      case Exited => NextWorker(s, w + 1)
      case Processing(_) => Worker(w, Process(true))
      case Committing(_) => Worker(w, Commit(true))
      case _ => Worker(w, if s.queue == [] then Exit else Receive)
  }

  /** A step the consumer can take by itself while shutting down: it needs no message from
      Kafka, no timeout, and only that Process returns. */
  function NextAction(s: State): Action
    requires s.stopping
  {
    match s.stopper
    case NotStopped => Stopper(StoreStopping)
    case Signalled => Stopper(LoadCancel)
    case SawCancel => Stopper(CallCancel)
    case _ =>
      match s.starter
      case NotStarted => Starter(CreateContext)
      case HasContext(n) => Starter(if n < |s.workers| then Spawn else EnterLoop)
      case InFetchLoop => if s.fetcher == Returned then Starter(CloseChannel) else Fetcher(NextFetch(s.fetcher))
      case Draining => NextWorker(s, 0)
      case Closing(_) => Starter(Return)
      case Finished(_) => Stopper(ObserveDone)
  }

  lemma {:induction false} NextWorkerEnabled(c: Config, s: State, w: nat)
    requires s.starter == Draining && s.closed && w <= |s.workers|
    requires forall i :: 0 <= i < |s.workers| ==> s.workers[i] != NotSpawned
    requires forall i :: 0 <= i < w ==> s.workers[i] == Exited
    ensures Do(c, s, NextWorker(s, w)).Some?
    decreases |s.workers| - w
  {
    if w < |s.workers| && s.workers[w] == Exited {
      NextWorkerEnabled(c, s, w + 1);
    }
  }

  /** Main result: until both Start and Stop have returned, a stopping consumer always has
      such a step; a fetch in progress is only ever left waiting with its context cancelled. */
  lemma ShutdownProgresses(c: Config, s: State)
    requires Inv(c, s) && s.stopping && !(s.starter.Finished? && s.stopper == StopReturned)
    ensures Do(c, s, NextAction(s)).Some?
    ensures NextAction(s) == Fetcher(FetchError) || NextAction(s) == Fetcher(Drop) ==> s.cancelled
  {
    hide MessageSafe, OrderSafe;
    if s.starter == Draining {
      forall i | 0 <= i < |s.workers| ensures s.workers[i] != NotSpawned {
        assert WorkerSafe(s, i, s.workers[i]);
      }
      NextWorkerEnabled(c, s, 0);
    }
  }

  /** Hence a run that cannot be extended has finished: Start and Stop have both returned. */
  lemma StuckMeansStopped(c: Config, schedule: seq<Action>)
    requires Run(c, Init(c), schedule).Some?
    requires Run(c, Init(c), schedule).value.stopping
    requires forall a :: Do(c, Run(c, Init(c), schedule).value, a) == None
    ensures var s := Run(c, Init(c), schedule).value; s.starter.Finished? && s.stopper == StopReturned
  {
    hide Run, Inv, Do;
    InitInv(c);
    RunKeeps(c, Init(c), schedule);
    var s := Run(c, Init(c), schedule).value;
    if !(s.starter.Finished? && s.stopper == StopReturned) {
      ShutdownProgresses(c, s);
    }
  }

  /** Without a Start, Stop waits on doneCh for ever. */
  lemma StopAloneBlocks(c: Config)
    ensures var s := Run(c, Init(c), [Stopper(StoreStopping), Stopper(LoadCancel)]);
      s.Some? && s.value.stopper == Waiting && forall a :: a != Starter(CreateContext) ==> Do(c, s.value, a) == None
  {
    var s1 := Do(c, Init(c), Stopper(StoreStopping)).value;
    var s2 := Do(c, s1, Stopper(LoadCancel)).value;
    assert Run(c, s1, [Stopper(LoadCancel)]) == Run(c, s2, []);
    assert [Stopper(StoreStopping), Stopper(LoadCancel)][1..] == [Stopper(LoadCancel)];
  }
}

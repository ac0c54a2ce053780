/**
 The status machine of an email blast. API operations, the scheduler and the event worker
 each read the row in one statement and write it in later ones; some statements carry their
 guard in SQL, UpdateEmailBlastStatus does not. A state holds one row and every call in
 flight; a run is any interleaving of their statements.
 */
module BlastLifecycle {
  import opened Prelude
  import opened BlastStatus

  datatype Row = Row(account: int, name: string, batchSize: int, status: Status, scheduledAt: Option<int>,
                     startedAt: Option<int>, completedAt: Option<int>, deletedAt: Option<int>,
                     total: int, sent: int, batch: int)

  // ---------------------------------------------------------------- statements

  datatype Write =
    | Edit(name: Option<string>, batchSize: Option<int>)
    | SoftDelete
    | ScheduleAt(at: int)
    | SetStatus(status: Status)
    | SetTotal(total: int)
    | SetProgress(sent: int, batch: int)

  /** INSERT: a blast is born scheduled exactly when it is given a time. */
  function Create(account: int, name: string, batchSize: int, scheduledAt: Option<int>): Row {
    var status := if scheduledAt.Some? then Scheduled else Draft;
    Row(account, name, batchSize, status, scheduledAt, None, None, None, 0, 0, 0)
  }

  /** The WHERE clause of each update. */
  predicate Hits(r: Row, w: Write) {
    r.deletedAt.None? &&
    match w
    case Edit(_, _) => r.status.Draft?
    case ScheduleAt(_) => r.status.Draft?
    case SoftDelete => !Active(r.status)
    case _ => true
  }

  function Default<T>(o: Option<T>, old_: T): T {
    if o.Some? then o.value else old_
  }

  /** The SET clause of each update. */
  function Put(r: Row, w: Write, now: int): Row {
    match w
    case Edit(name, size) => r.(name := Default(name, r.name), batchSize := Default(size, r.batchSize))
    case SoftDelete => r.(deletedAt := Some(now))
    case ScheduleAt(at) => r.(status := Scheduled, scheduledAt := Some(at))
    case SetStatus(st) =>
      r.(status := st,
         startedAt := if (st.Processing? || st.Sending?) && r.startedAt.None? then Some(now) else r.startedAt,
         completedAt := if Terminal(st) then Some(now) else r.completedAt)
    case SetTotal(n) => r.(total := n)
    case SetProgress(n, b) => r.(sent := n, batch := b)
  }

  function Apply(r: Row, w: Write, now: int): Row {
    if Hits(r, w) then Put(r, w, now) else r
  }

  // ---------------------------------------------------------------- calls in flight

  datatype Call =
    | UpdateEmailBlast(account: int, name: Option<string>, batchSize: Option<int>)
    | DeleteEmailBlast(account: int)
    | ScheduleBlast(account: int, at: int)
    | SendBlastNow(account: int)
    | PauseBlast(account: int)
    | ResumeBlast(account: int)
    | CancelBlast(account: int)
    | CheckScheduled
    | HandleStarted
    | HandleBatch(number: int)
    | HandleCompleted

  datatype Pc = Reading | Writing(w: Write) | Finished

  datatype Task = Task(call: Call, pc: Pc)

  /** How the work between two statements went: as hoped, with an error, or leaving nothing
      more to write (a batch that found no recipients or was stopped). */
  datatype Course = Fine | Broken | Nothing

  /** What the surroundings decide at one step: the clock, whether the database refuses the
      statement, how the work after it goes, and a number of recipients or emails. */
  datatype Outcome = Outcome(now: int, fault: bool, course: Course, count: nat)

  /** The check each call makes on the row it reads. */
  predicate Admits(call: Call, r: Row, now: int) {
    match call
    case UpdateEmailBlast(a, _, _) => r.account == a && r.status.Draft?
    case DeleteEmailBlast(a) => r.account == a
    case ScheduleBlast(a, at) => at >= now && r.account == a && r.status.Draft?
    case SendBlastNow(a) => r.account == a && (r.status.Draft? || r.status.Scheduled?)
    case PauseBlast(a) => r.account == a && (r.status.Sending? || r.status.Processing?)
    case ResumeBlast(a) => r.account == a && r.status.Paused?
    case CancelBlast(a) => r.account == a && !Terminal(r.status)
    case CheckScheduled => r.status.Scheduled? && r.scheduledAt.Some? && r.scheduledAt.value <= now
    case HandleStarted => r.status.Processing?
    case HandleBatch(_) => r.status.Sending?
    case HandleCompleted => r.status.Sending?
  }

  /** The first statement after an accepted read. */
  function FirstWrite(call: Call, o: Outcome): Pc {
    match call
    case UpdateEmailBlast(_, name, size) => Writing(Edit(name, size))
    case DeleteEmailBlast(_) => Writing(SoftDelete)
    case ScheduleBlast(_, at) => Writing(ScheduleAt(at))
    case SendBlastNow(_) => Writing(SetStatus(Processing))
    case PauseBlast(_) => Writing(SetStatus(Paused))
    case ResumeBlast(_) => Writing(SetStatus(Sending))
    case CancelBlast(_) => Writing(SetStatus(Cancelled))
    case CheckScheduled => Writing(SetStatus(Processing))
    case HandleStarted =>
      if o.course.Broken? then Writing(SetStatus(Failed))
      else if o.count == 0 then Writing(SetStatus(Completed))
      else Writing(SetTotal(o.count))
    case HandleBatch(b) =>
      if o.course.Broken? then Writing(SetStatus(Failed))
      else if o.course.Nothing? then Finished
      else Writing(SetProgress(o.count, b))
    case HandleCompleted => Writing(SetStatus(Completed))
  }

  /** What a call does after its statement w; `ok` when the statement updated the row. */
  function NextWrite(call: Call, w: Write, ok: bool, o: Outcome): Pc {
    match call
    case SendBlastNow(_) =>
      if w == SetStatus(Processing) && ok && o.course.Broken? then Writing(SetStatus(Draft)) else Finished
    case CheckScheduled =>
      if w == SetStatus(Processing) && ok && o.course.Broken? then Writing(SetStatus(Failed)) else Finished
    case HandleStarted =>
      if w.SetTotal? then Writing(SetStatus(if ok then Sending else Failed))
      else if w == SetStatus(Sending) && (!ok || o.course.Broken?) then Writing(SetStatus(Failed))
      else Finished
    case HandleBatch(_) =>
      if w.SetProgress? && o.course.Broken? then Writing(SetStatus(Failed)) else Finished
    case _ => Finished
  }

  function RowAfter(r: Row, t: Task, o: Outcome): Row {
    if t.pc.Writing? && !o.fault then Apply(r, t.pc.w, o.now) else r
  }

  function TaskAfter(r: Row, t: Task, o: Outcome): Task {
    match t.pc
    case Finished => t
    case Reading =>
      if o.fault || r.deletedAt.Some? || !Admits(t.call, r, o.now) then t.(pc := Finished)
      else t.(pc := FirstWrite(t.call, o))
    case Writing(w) => t.(pc := NextWrite(t.call, w, !o.fault && Hits(r, w), o))
  }

  datatype State = State(row: Row, tasks: seq<Task>)

  /** A new call arrives, or call k makes its next step. */
  datatype Event = Arrive(call: Call) | Act(k: nat, o: Outcome)

  function Step(s: State, e: Event): State {
    match e
    case Arrive(call) => s.(tasks := s.tasks + [Task(call, Reading)])
    case Act(k, o) =>
      if k >= |s.tasks| then s
      else State(RowAfter(s.row, s.tasks[k], o), s.tasks[k := TaskAfter(s.row, s.tasks[k], o)])
  }

  function Run(s: State, es: seq<Event>): State {
    if es == [] then s else Step(Run(s, es[..|es| - 1]), es[|es| - 1])
  }

  // ---------------------------------------------------------------- what every run keeps

  predicate RowSafe(r: Row) {
    && (Terminal(r.status) ==> r.completedAt.Some?)
    && (Active(r.status) ==> r.startedAt.Some?)
    && (r.status.Scheduled? ==> r.scheduledAt.Some?)
    && (r.deletedAt.Some? ==> !Active(r.status))
  }

  /** A status about to be written is never `scheduled`, and is `paused` only on a blast that
      has started. */
  predicate TaskSafe(r: Row, t: Task) {
    t.pc.Writing? && t.pc.w.SetStatus? ==>
      !t.pc.w.status.Scheduled? && (t.pc.w.status.Paused? ==> r.startedAt.Some?)
  }

  ghost predicate Inv(s: State) {
    RowSafe(s.row) && forall k :: 0 <= k < |s.tasks| ==> TaskSafe(s.row, s.tasks[k])
  }

  lemma RowStaysSafe(r: Row, t: Task, o: Outcome)
    requires RowSafe(r) && TaskSafe(r, t)
    ensures RowSafe(RowAfter(r, t, o))
  {}

  /** One statement never changes a start time once set, never changes a deleted row, deletes
      only a row that is not processing, sending or paused, and changes nothing when the
      database refuses it; a call whose read is refused ends. */
  lemma RowFrame(r: Row, t: Task, o: Outcome)
    ensures o.fault || t.pc.Finished? || t.pc.Reading? ==> RowAfter(r, t, o) == r
    ensures o.fault && t.pc.Reading? ==> TaskAfter(r, t, o).pc.Finished?
    ensures r.startedAt.Some? ==> RowAfter(r, t, o).startedAt == r.startedAt
    ensures r.deletedAt.Some? ==> RowAfter(r, t, o) == r
    ensures r.deletedAt.None? && RowAfter(r, t, o).deletedAt.Some? ==>
              !Active(r.status) && RowAfter(r, t, o).status == r.status
  {}

  lemma TaskStaysSafe(r: Row, t: Task, o: Outcome)
    requires RowSafe(r) && TaskSafe(r, t)
    ensures TaskSafe(RowAfter(r, t, o), TaskAfter(r, t, o))
  {
    RowFrame(r, t, o);
  }

  lemma StepKeeps(s: State, e: Event)
    requires Inv(s)
    ensures Inv(Step(s, e))
    ensures s.row.startedAt.Some? ==> Step(s, e).row.startedAt == s.row.startedAt
    ensures s.row.deletedAt.Some? ==> Step(s, e).row == s.row
  {
    if e.Act? && e.k < |s.tasks| {
      var t := s.tasks[e.k];
      RowStaysSafe(s.row, t, e.o);
      TaskStaysSafe(s.row, t, e.o);
      RowFrame(s.row, t, e.o);
      forall k | 0 <= k < |s.tasks| ensures TaskSafe(Step(s, e).row, Step(s, e).tasks[k]) {
        assert TaskSafe(s.row, s.tasks[k]);
      }
    }
  }

  /** Main result: in every interleaving a terminal status has a completion time, a
      processing, sending or paused blast has a start time, a scheduled one its time, the
      start time never changes once set, and a deleted row is not processing, sending or
      paused and never changes again. */
  lemma {:induction false} RunKeeps(s: State, es: seq<Event>)
    requires Inv(s)
    ensures Inv(Run(s, es)) && RowSafe(Run(s, es).row)
    ensures s.row.startedAt.Some? ==> Run(s, es).row.startedAt == s.row.startedAt
    ensures s.row.deletedAt.Some? ==> Run(s, es).row == s.row
  {
    if es != [] {
      RunKeeps(s, es[..|es| - 1]);
      StepKeeps(Run(s, es[..|es| - 1]), es[|es| - 1]);
    }
  }

  /** A created blast is scheduled when it is given a time and a draft otherwise, and nothing
      has happened to it. */
  lemma CreatedIsSafe(account: int, name: string, batchSize: int, scheduledAt: Option<int>)
    ensures Inv(State(Create(account, name, batchSize, scheduledAt), []))
    ensures var r := Create(account, name, batchSize, scheduledAt);
      && r.account == account && r.name == name && r.batchSize == batchSize && r.scheduledAt == scheduledAt
      && (scheduledAt.Some? ==> r.status.Scheduled?) && (scheduledAt.None? ==> r.status.Draft?)
      && r.startedAt == r.completedAt == r.deletedAt == None && r.total == r.sent == r.batch == 0
  {}

  // ---------------------------------------------------------------- terminal statuses

  /** A call that will write a non-terminal status without looking at the row again. */
  predicate Threat(t: Task) {
    t.pc.Writing? &&
    match t.pc.w
    case SetStatus(st) => !Terminal(st)
    case SetTotal(_) => t.call.HandleStarted?
    case _ => false
  }

  ghost predicate NoThreat(s: State) {
    forall k :: 0 <= k < |s.tasks| ==> !Threat(s.tasks[k])
  }

  /** A call that starts on a terminal row never becomes a threat. */
  lemma NoNewThreat(r: Row, t: Task, o: Outcome)
    requires Terminal(r.status) && !Threat(t)
    ensures !Threat(TaskAfter(r, t, o)) && Terminal(RowAfter(r, t, o).status)
  {}

  lemma {:induction false} NoThreatStays(s: State, es: seq<Event>)
    requires Terminal(s.row.status) && NoThreat(s)
    ensures Terminal(Run(s, es).row.status) && NoThreat(Run(s, es))
  {
    if es != [] {
      var before, e := Run(s, es[..|es| - 1]), es[|es| - 1];
      NoThreatStays(s, es[..|es| - 1]);
      if e.Act? && e.k < |before.tasks| {
        NoNewThreat(before.row, before.tasks[e.k], e.o);
      }
    }
  }

  /** The steps by which a threat at k takes the blast out of its terminal status. */
  function Attack(t: Task, k: nat): seq<Event> {
    var go := Act(k, Outcome(0, false, Fine, 0));
    if t.pc.Writing? && t.pc.w.SetTotal? then [go, go] else [go]
  }

  lemma ThreatSucceeds(s: State, k: nat)
    requires s.row.deletedAt.None? && k < |s.tasks| && Threat(s.tasks[k])
    ensures !Terminal(Run(s, Attack(s.tasks[k], k)).row.status)
  {
    var t, es := s.tasks[k], Attack(s.tasks[k], k);
    var mid := Step(s, es[0]);
    if t.pc.w.SetTotal? {
      assert es[..1] == [es[0]] && es[..1][..0] == [];
      assert Run(s, es[..1]) == mid;
      assert mid.tasks[k] == Task(t.call, Writing(SetStatus(Sending)));
      assert Run(s, es) == Step(mid, es[1]);
    } else {
      assert es[..0] == [];
      assert Run(s, es) == mid;
    }
  }

  /** Main result: a terminal blast stays terminal in every run from here exactly when no
      call in flight still holds an unguarded write of a non-terminal status. */
  lemma TerminalAbsorbingIff(s: State)
    requires Terminal(s.row.status) && s.row.deletedAt.None?
    ensures (forall es :: Terminal(Run(s, es).row.status)) <==> NoThreat(s)
  {
    if NoThreat(s) {
      forall es ensures Terminal(Run(s, es).row.status) {
        NoThreatStays(s, es);
      }
    } else {
      var k :| 0 <= k < |s.tasks| && Threat(s.tasks[k]);
      ThreatSucceeds(s, k);
    }
  }

  lemma {:induction false} RunAppend(s: State, a: seq<Event>, b: seq<Event>)
    ensures Run(s, a + b) == Run(Run(s, a), b)
  {
    hide Step;
    if b == [] {
      assert a + b == a;
    } else {
      RunAppend(s, a, b[..|b| - 1]);
      assert (a + b)[..|a + b| - 1] == a + b[..|b| - 1];
    }
  }

  function Arrivals(calls: seq<Call>): seq<Event> {
    seq(|calls|, i requires 0 <= i < |calls| => Arrive(calls[i]))
  }

  /** Calls arrive one after the other, and each is about to read the blast. */
  lemma {:induction false} ArriveAll(r: Row, calls: seq<Call>)
    ensures Run(State(r, []), Arrivals(calls))
         == State(r, seq(|calls|, i requires 0 <= i < |calls| => Task(calls[i], Reading)))
  {
    if calls != [] {
      var init := calls[..|calls| - 1];
      ArriveAll(r, init);
      assert Arrivals(calls)[..|calls| - 1] == Arrivals(init);
    }
  }

  lemma RunFour(s: State, es: seq<Event>)
    requires |es| == 4
    ensures Run(s, es) == Step(Step(Step(Step(s, es[0]), es[1]), es[2]), es[3])
  {
    hide Step;
    assert es[..3][..2] == es[..2] && es[..2][..1] == es[..1];
    assert Run(s, es[..1]) == Step(s, es[0]) by { assert es[..1][..0] == []; }
    assert Run(s, es[..2]) == Step(Run(s, es[..1]), es[1]);
    assert Run(s, es[..3]) == Step(Run(s, es[..2]), es[2]);
  }

  /** The statements of a send and a cancel, the cancel's between the send's two. */
  lemma CancelOvertakes(r: Row, send: Task, cancel: Task, o: Outcome)
    requires r == Create(1, "news", 10, None) && o == Outcome(5, false, Fine, 0)
    requires send == Task(SendBlastNow(1), Reading) && cancel == Task(CancelBlast(1), Reading)
    ensures var s := Run(State(r, [send, cancel]), [Act(0, o), Act(1, o), Act(1, o), Act(0, o)]);
      s.row.status.Processing? && s.row.completedAt.Some?
  {
    hide Run;
    var es := [Act(0, o), Act(1, o), Act(1, o), Act(0, o)];
    RunFour(State(r, [send, cancel]), es);
    var sending := send.(pc := Writing(SetStatus(Processing)));
    var cancelling := cancel.(pc := Writing(SetStatus(Cancelled)));
    assert TaskAfter(r, send, o) == sending && TaskAfter(r, cancel, o) == cancelling;
    assert Step(State(r, [send, cancel]), es[0]) == State(r, [sending, cancel]);
    assert Step(State(r, [sending, cancel]), es[1]) == State(r, [sending, cancelling]);
    var cancelled := RowAfter(r, cancelling, o);
    assert cancelled.status.Cancelled? && cancelled.completedAt.Some? && cancelled.deletedAt.None?;
    assert Step(State(r, [sending, cancelling]), es[2]) == State(cancelled, [sending, cancel.(pc := Finished)]);
  }

  /** A new blast cancelled between the read and the write of a send goes back to processing,
      with its completion time still set. */
  lemma CancelledThenProcessing()
    ensures exists es ::
      var s := Run(State(Create(1, "news", 10, None), []), es);
      s.row.status.Processing? && s.row.completedAt.Some?
  {
    hide Run, Create;
    var r, o := Create(1, "news", 10, None), Outcome(5, false, Fine, 0);
    var calls := [SendBlastNow(1), CancelBlast(1)];
    var es := [Act(0, o), Act(1, o), Act(1, o), Act(0, o)];
    ArriveAll(r, calls);
    assert seq(|calls|, i requires 0 <= i < |calls| => Task(calls[i], Reading))
        == [Task(calls[0], Reading), Task(calls[1], Reading)];
    RunAppend(State(r, []), Arrivals(calls), es);
    CancelOvertakes(r, Task(calls[0], Reading), Task(calls[1], Reading), o);
  }

  // ---------------------------------------------------------------- one call at a time

  /** A call alone with the row, for as many steps as there are outcomes. */
  function Alone(r: Row, t: Task, os: seq<Outcome>): (Row, Task)
    decreases |os|
  {
    if os == [] then (r, t)
    else Alone(RowAfter(r, t, os[0]), TaskAfter(r, t, os[0]), os[1..])
  }

  datatype Job = Job(call: Call, outcomes: seq<Outcome>)

  /** Calls one after the other; each has ended, or its process has, before the next starts. */
  function Serially(r: Row, jobs: seq<Job>): Row {
    if jobs == [] then r
    else
      var before := Serially(r, jobs[..|jobs| - 1]);
      Alone(before, Task(jobs[|jobs| - 1].call, Reading), jobs[|jobs| - 1].outcomes).0
  }

  lemma SeriallyInTurn(r: Row, jobs: seq<Job>, job: Job)
    ensures Serially(r, []) == r
    ensures Serially(r, jobs + [job]) == Alone(Serially(r, jobs), Task(job.call, Reading), job.outcomes).0
  {
    hide Alone;
    assert (jobs + [job])[..|jobs|] == jobs;
  }

  predicate Settled(r: Row) { Terminal(r.status) <==> r.completedAt.Some? }

  /** While a call is alone, its pending unguarded writes are on a blast that is not terminal. */
  predicate Fresh(r: Row, t: Task) {
    t.pc.Writing? && (t.pc.w.SetStatus? || t.pc.w.SetTotal? || t.pc.w.SetProgress?) ==> !Terminal(r.status)
  }

  lemma SettledStep(r: Row, t: Task, o: Outcome)
    requires Settled(r) && Fresh(r, t)
    ensures Settled(RowAfter(r, t, o)) && Fresh(RowAfter(r, t, o), TaskAfter(r, t, o))
    ensures Terminal(r.status) ==>
      && RowAfter(r, t, o).status == r.status
      && RowAfter(r, t, o).completedAt == r.completedAt
  {
    match t.call
    case SendBlastNow(_) =>
    case HandleStarted =>
    case _ =>
  }

  lemma {:induction false} SettledAlone(r: Row, t: Task, os: seq<Outcome>)
    requires Settled(r) && Fresh(r, t)
    ensures Settled(Alone(r, t, os).0)
    ensures Terminal(r.status) ==>
      && Alone(r, t, os).0.status == r.status
      && Alone(r, t, os).0.completedAt == r.completedAt
    decreases |os|
  {
    if os != [] {
      SettledStep(r, t, os[0]);
      SettledAlone(RowAfter(r, t, os[0]), TaskAfter(r, t, os[0]), os[1..]);
    }
  }

  /** Main result: when calls run one at a time, the completion time is set exactly when the
      status is terminal, and cancelled, completed and failed are absorbing. */
  lemma {:induction false} SerialCalls(r: Row, jobs: seq<Job>)
    requires Settled(r)
    ensures Settled(Serially(r, jobs))
    ensures Terminal(r.status) ==>
      && Serially(r, jobs).status == r.status
      && Serially(r, jobs).completedAt == r.completedAt
  {
    if jobs != [] {
      var job := jobs[|jobs| - 1];
      SerialCalls(r, jobs[..|jobs| - 1]);
      SettledAlone(Serially(r, jobs[..|jobs| - 1]), Task(job.call, Reading), job.outcomes);
    }
  }
}

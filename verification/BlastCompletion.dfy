/** When a blast whose audience is never found empty can be completed. */
module BlastCompletion {
  import opened BlastStatus
  import opened RecipientTable
  import opened BlastDelivery
  import opened BlastRuns

  /** A step towards completing the blast. */
  predicate Finishing(pc: Pc) {
    pc.Completing? || pc.CompletedRead? || pc.CompletedWrite? || pc.CompleteEmpty?
  }

  /** No completion has been dispatched or is under way. */
  ghost predicate Unfinished(s: State) {
    && AllSent !in s.dispatched && !s.status.Completed?
    && forall k :: 0 <= k < |s.tasks| ==> !Finishing(s.tasks[k])
  }

  /** The segments are not found empty at this step. */
  predicate Populated(m: Move) { m.Act? ==> m.o.users != [] }

  ghost predicate AllPopulated(ms: seq<Move>) {
    forall i :: 0 <= i < |ms| ==> Populated(ms[i])
  }

  /** The completion check passes exactly when the blast has no recipients at all. */
  lemma CompletionCheck(s: State, o: Outcome)
    requires RowsSafe(s.rows, s.outbox) && !o.fault
    ensures Next(s, Counting, o).Completing? <==> s.rows == []
  {
    if s.rows != [] {
      assert s.rows[0].status.Pending?;
    }
  }

  lemma NotFinishing(s: State, pc: Pc, o: Outcome)
    requires RowsSafe(s.rows, s.outbox) && s.rows != [] && o.users != [] && !Finishing(pc)
    ensures !Finishing(Next(s, pc, o))
    ensures AllSent !in s.dispatched ==> AllSent !in Effect(s, pc, o).dispatched
    ensures !s.status.Completed? ==> !Effect(s, pc, o).status.Completed?
  {
    hide OfBatch, InsertUsers, PendingCount, RowsSafe;
    match pc
    case Counting => CompletionCheck(s, o.(fault := false));
    case _ =>
  }

  lemma SafeRows(s: State)
    requires Inv(s)
    ensures RowsSafe(s.rows, s.outbox)
  {}

  lemma StaysUnfinished(s: State, m: Move)
    requires Inv(s) && s.rows != [] && Unfinished(s) && Populated(m)
    ensures Step(s, m).rows != [] && Unfinished(Step(s, m))
  {
    hide Effect, Next, Inv;
    StepKeeps(s, m);
    match m
    case Act(k, o) =>
      if k < |s.tasks| {
        assert RowsSafe(s.rows, s.outbox) by {
          SafeRows(s);
        }
        NotFinishing(s, s.tasks[k], o);
      }
    case Handle(e) =>
    case _ =>
  }

  lemma {:induction false} UnfinishedRun(s: State, ms: seq<Move>)
    requires Inv(s) && s.rows != [] && Unfinished(s) && AllPopulated(ms)
    ensures Inv(Run(s, ms)) && Run(s, ms).rows != [] && Unfinished(Run(s, ms))
  {
    if ms != [] {
      var before := Run(s, ms[..|ms| - 1]);
      UnfinishedRun(s, ms[..|ms| - 1]);
      StepKeeps(before, ms[|ms| - 1]);
      StaysUnfinished(before, ms[|ms| - 1]);
    }
  }

  /** Once a blast has a recipient, and no completion is under way, it is never completed in
      any run in which its segments are not found empty. */
  lemma NeverCompletes(s: State, ms: seq<Move>)
    requires Inv(s) && s.rows != [] && Unfinished(s) && AllPopulated(ms)
    ensures AllSent !in Run(s, ms).dispatched && !Run(s, ms).status.Completed?
    ensures PendingCount(Run(s, ms).rows) > 0
  {
    UnfinishedRun(s, ms);
    var t := Run(s, ms);
    assert t.rows[0].status.Pending?;
  }

  /** A batch event handled alone finds no recipient and dispatches completion. */
  lemma EmptyBatchAlone(s: State, n: int)
    requires s.status.Sending? && s.rows == [] && BatchSend(n) in s.dispatched
    ensures Run(s, Turn(Handle(BatchSend(n)), |s.tasks|))
         == With(s.(dispatched := s.dispatched + {AllSent}), s.tasks, Over)
  {
    hide Run, Step, With;
    RunFive(s, Turn(Handle(BatchSend(n)), |s.tasks|));
    Arrives(s);
    ReadBatch(s, s.tasks, n);
    FetchNobody(s, s.tasks, n);
    CountNobody(s, s.tasks);
    DispatchAllSent(s, s.tasks);
  }

  lemma CompletedAlone(s: State)
    requires s.status.Sending? && AllSent in s.dispatched
    ensures Run(s, Turn(Handle(AllSent), |s.tasks|)) == With(s.(status := Completed), s.tasks, Over)
  {
    hide Run, Step, With;
    RunFive(s, Turn(Handle(AllSent), |s.tasks|));
    Arrives(s);
    ReadCompleted(s, s.tasks);
    WriteCompleted(s, s.tasks);
    Rest(s.(status := Completed), s.tasks);
  }

  /** The resume of a blast without recipients, the batch event it dispatches, and the
      completion event that one dispatches. */
  function ResumeToCompletion(s: State): seq<Move> {
    Turn(Resume, |s.tasks|) + Turn(Handle(BatchSend(s.current + 1)), |s.tasks| + 1)
    + Turn(Handle(AllSent), |s.tasks| + 2)
  }

  lemma ResumeCompletes(s: State)
    requires s.status.Paused? && s.rows == []
    ensures var t := Run(s, ResumeToCompletion(s)); t.status.Completed? && t.rows == [] && t.outbox == s.outbox
  {
    hide Run, Turn;
    var a, b := Turn(Resume, |s.tasks|), Turn(Handle(BatchSend(s.current + 1)), |s.tasks| + 1);
    RunAppend(s, a + b, Turn(Handle(AllSent), |s.tasks| + 2));
    RunAppend(s, a, b);
    ResumeAlone(s);
    EmptyBatchAlone(Resumed(s), s.current + 1);
    CompletedAlone(Run(Resumed(s), b));
  }

  /** Runs in which nobody but the handlers, pause and resume writes the status. */
  ghost predicate NoWrites(ms: seq<Move>) {
    forall i :: 0 <= i < |ms| ==> !ms[i].Write?
  }

  /** Pauses the blast, after another operation's write when it is not active. */
  function ToPaused(s: State): seq<Move> {
    if s.status.Paused? then []
    else if Active(s.status) then Turn(Pause, |s.tasks|)
    else [Write(Processing)] + Turn(Pause, |s.tasks|)
  }

  /** What such a detour leaves alone. */
  ghost predicate Kept(s: State, t: State) {
    && t.rows == s.rows && t.outbox == s.outbox && s.dispatched <= t.dispatched
    && |s.tasks| <= |t.tasks| && t.tasks[..|s.tasks|] == s.tasks
  }

  lemma NoMoves(s: State)
    ensures Run(s, []) == s
  {}

  lemma WritesProcessing(s: State)
    ensures Step(s, Write(Processing)) == s.(status := Processing)
  {}

  lemma Pauses(s: State)
    ensures Run(s, ToPaused(s)).status.Paused? && Kept(s, Run(s, ToPaused(s)))
    ensures AllPopulated(ToPaused(s)) && (Active(s.status) ==> NoWrites(ToPaused(s)))
  {
    hide Run, Step;
    if s.status.Paused? {
      assert Run(s, []) == s by { NoMoves(s); }
    } else if Active(s.status) {
      PauseAlone(s);
    } else {
      RunAppend(s, [Write(Processing)], Turn(Pause, |s.tasks|));
      RunOne(s, Write(Processing));
      assert Step(s, Write(Processing)) == s.(status := Processing) by { WritesProcessing(s); }
      PauseAlone(s.(status := Processing));
    }
  }

  /** Pauses and resumes the blast. */
  function ToSending(s: State): seq<Move> {
    ToPaused(s) + Turn(Resume, |Run(s, ToPaused(s)).tasks|)
  }

  lemma Sends(s: State)
    ensures Run(s, ToSending(s)).status.Sending? && Kept(s, Run(s, ToSending(s)))
    ensures AllPopulated(ToSending(s)) && (Active(s.status) ==> NoWrites(ToSending(s)))
  {
    hide Run, ToPaused;
    var paused := Run(s, ToPaused(s));
    Pauses(s);
    RunAppend(s, ToPaused(s), Turn(Resume, |paused.tasks|));
    ResumeAlone(paused);
  }

  /** The run completes the blast, and writes no status from outside if the blast is active. */
  ghost predicate Completes(s: State, ms: seq<Move>) {
    Run(s, ms).status.Completed? && AllPopulated(ms) && (Active(s.status) ==> NoWrites(ms))
  }

  /** A dispatched completion completes the blast once it is sending. */
  lemma DispatchedCompletes(s: State) returns (ms: seq<Move>)
    requires AllSent in s.dispatched
    ensures Completes(s, ms)
  {
    hide Run, ToSending;
    var sending := Run(s, ToSending(s));
    Sends(s);
    var last := Turn(Handle(AllSent), |sending.tasks|);
    RunAppend(s, ToSending(s), last);
    CompletedAlone(sending);
    ms := ToSending(s) + last;
  }

  /** A handler at the write that completes the blast makes it. */
  lemma WriteCompletes(s: State, k: nat)
    requires k < |s.tasks| && (s.tasks[k].CompletedWrite? || s.tasks[k].CompleteEmpty?)
    ensures Completes(s, [Act(k, SMOOTH)])
  {
    hide Run;
    RunOne(s, Act(k, SMOOTH));
  }

  lemma ReadsSending(s: State, k: nat)
    requires k < |s.tasks| && s.tasks[k].CompletedRead? && s.status.Sending?
    ensures Step(s, Act(k, SMOOTH)) == s.(tasks := s.tasks[k := CompletedWrite])
  {}

  /** The handler of a completion event, made to read a blast that is sending, completes it. */
  lemma ReadCompletes(s: State, k: nat) returns (ms: seq<Move>)
    requires k < |s.tasks| && s.tasks[k].CompletedRead?
    ensures Completes(s, ms)
  {
    hide Run, ToSending, Step;
    var sending := Run(s, ToSending(s));
    var act := Act(k, SMOOTH);
    Sends(s);
    assert sending.tasks[k] == sending.tasks[..|s.tasks|][k];
    ReadsSending(sending, k);
    RunOne(sending, act);
    WriteCompletes(Step(sending, act), k);
    RunAppend(sending, [act], [act]);
    RunAppend(s, ToSending(s), [act] + [act]);
    ms := ToSending(s) + ([act] + [act]);
  }

  lemma DispatchesCompletion(s: State, k: nat)
    requires k < |s.tasks| && s.tasks[k].Completing?
    ensures AllSent in Step(s, Act(k, SMOOTH)).dispatched && Step(s, Act(k, SMOOTH)).status == s.status
  {}

  /** A handler about to dispatch the completion does so. */
  lemma CompletingCompletes(s: State, k: nat) returns (ms: seq<Move>)
    requires k < |s.tasks| && s.tasks[k].Completing?
    ensures Completes(s, ms)
  {
    hide Run, Step;
    var act := Act(k, SMOOTH);
    RunOne(s, act);
    DispatchesCompletion(s, k);
    var rest := DispatchedCompletes(Step(s, act));
    RunAppend(s, [act], rest);
    ms := [act] + rest;
  }

  /** Whatever is under way towards completion can complete the blast. */
  lemma UnderWayCompletes(s: State) returns (ms: seq<Move>)
    requires !Unfinished(s)
    ensures Completes(s, ms)
  {
    hide Run;
    if s.status.Completed? {
      NoMoves(s);
      return [];
    }
    if AllSent in s.dispatched {
      ms := DispatchedCompletes(s);
      return;
    }
    var k :| 0 <= k < |s.tasks| && Finishing(s.tasks[k]);
    if s.tasks[k].Completing? {
      ms := CompletingCompletes(s, k);
    } else if s.tasks[k].CompletedRead? {
      ms := ReadCompletes(s, k);
    } else {
      WriteCompletes(s, k);
      ms := [Act(k, SMOOTH)];
    }
  }

  /** A blast without recipients is completed by a pause and a resume. */
  lemma EmptyCompletes(s: State) returns (ms: seq<Move>)
    requires s.rows == []
    ensures Completes(s, ms)
  {
    hide Run, ToPaused;
    var paused := Run(s, ToPaused(s));
    Pauses(s);
    RunAppend(s, ToPaused(s), ResumeToCompletion(paused));
    ResumeCompletes(paused);
    ms := ToPaused(s) + ResumeToCompletion(paused);
  }

  /** Main result: in any state whatever, a blast whose audience is never found empty can be
      completed if and only if it has no recipients yet or a completion is under way; and an
      active blast is then completed by its handlers, a pause and a resume alone. */
  lemma CompletableIff(s: State)
    requires Inv(s)
    ensures (exists ms :: AllPopulated(ms) && Run(s, ms).status.Completed?) <==> s.rows == [] || !Unfinished(s)
    ensures (exists ms :: Completes(s, ms)) <==> s.rows == [] || !Unfinished(s)
  {
    hide Run, Inv, Unfinished, NoWrites;
    if s.rows == [] {
      var ms := EmptyCompletes(s);
      assert AllPopulated(ms) && Run(s, ms).status.Completed?;
    } else if !Unfinished(s) {
      var ms := UnderWayCompletes(s);
      assert AllPopulated(ms) && Run(s, ms).status.Completed?;
    } else {
      forall ms | AllPopulated(ms) ensures !Run(s, ms).status.Completed? {
        NeverCompletes(s, ms);
      }
    }
  }

  /** For a paused blast without recipients the resume and the events it sets off are enough:
      ResumeBlast does not ask whether the started event has been handled. */
  lemma ResumeCompletesIff(s: State)
    requires Inv(s) && s.status.Paused?
    ensures (exists ms :: AllPopulated(ms) && Run(s, ms).status.Completed?) <==> s.rows == [] || !Unfinished(s)
    ensures s.rows == [] ==> Run(s, ResumeToCompletion(s)).status.Completed? && AllPopulated(ResumeToCompletion(s))
  {
    hide Run, Inv, Unfinished;
    CompletableIff(s);
    if s.rows == [] {
      ResumeCompletes(s);
    }
  }

  /** A blast with an audience that is paused and resumed before its started event is handled
      completes; nobody becomes a recipient and nothing is mailed. */
  lemma ResumedBeforeStarted(blast: int, size: int)
    ensures var s := Init(blast, size, Processing);
      var ms := Turn(Pause, 0) + ResumeToCompletion(Run(s, Turn(Pause, 0)));
      && AllPopulated(ms) && Pause in ms && Resume in ms
      && Run(s, ms).status.Completed? && Run(s, ms).rows == [] && Run(s, ms).outbox == []
  {
    hide Run, Step;
    var s := Init(blast, size, Processing);
    var paused := Run(s, Turn(Pause, 0));
    PauseAlone(s);
    RunAppend(s, Turn(Pause, 0), ResumeToCompletion(paused));
    ResumeCompletes(paused);
    assert (Turn(Pause, 0) + ResumeToCompletion(paused))[0] == Pause;
    assert (Turn(Pause, 0) + ResumeToCompletion(paused))[5] == Resume;
  }

  /** The started event is dispatched and its handler has read the blast as processing. */
  function Opening(): seq<Move> { [Dispatch, Handle(Started), Act(0, SMOOTH)] }

  /** The blast is paused and resumed, the empty batch event dispatches completion, only then
      the handler of the started event creates the recipients, and the completion is handled. */
  function LateStart(): seq<Move> {
    Opening() + Turn(Pause, 1) + Turn(Resume, 2) + Turn(Handle(BatchSend(1)), 3) + [Act(0, SMOOTH)]
    + Turn(Handle(AllSent), 4)
  }

  lemma OpeningRuns(blast: int)
    ensures Run(Init(blast, 1, Processing), Opening())
         == Init(blast, 1, Processing).(dispatched := {Started}, tasks := [Creating(1)])
  {
    hide Run;
    var s := Init(blast, 1, Processing);
    RunAppend(s, [Dispatch] + [Handle(Started)], [Act(0, SMOOTH)]);
    RunAppend(s, [Dispatch], [Handle(Started)]);
    RunOne(s, Dispatch);
    var s1 := s.(dispatched := {Started});
    assert Step(s, Dispatch) == s1;
    RunOne(s1, Handle(Started));
    var s2 := s1.(tasks := [StartRead]);
    assert Step(s1, Handle(Started)) == s2;
    RunOne(s2, Act(0, SMOOTH));
    assert Step(s2, Act(0, SMOOTH)) == s2.(tasks := [Creating(1)]);
    assert [Dispatch] + [Handle(Started)] + [Act(0, SMOOTH)] == Opening();
  }

  /** The handler at the front creates its recipients while the others rest. */
  lemma CreatesLate(s: State)
    requires s.tasks != [] && s.tasks[0] == Creating(1) && s.rows == [] && s.outbox == []
    ensures var t := Step(s, Act(0, SMOOTH));
      && t.rows != [] && t.outbox == [] && t.status == s.status && t.dispatched == s.dispatched
      && |t.tasks| == |s.tasks|
  {
    hide InsertUsers, Next;
    InsertKeeps([], [], s.blast, SMOOTH.users, 1, 2);
    assert Effect(s, Creating(1), SMOOTH) == s.(rows := InsertUsers([], s.blast, SMOOTH.users, 1, 2));
  }

  lemma LateStartIsPlain()
    ensures AllPopulated(LateStart()) && NoWrites(LateStart())
  {}

  /** A blast with recipients that completes: none of them is mailed. */
  lemma CompletedWithRecipients(blast: int)
    ensures var t := Run(Init(blast, 1, Processing), LateStart());
      t.status.Completed? && t.rows != [] && t.outbox == []
    ensures AllPopulated(LateStart()) && NoWrites(LateStart())
  {
    hide Run, Step, Turn, Opening;
    var s := Init(blast, 1, Processing);
    var a := Opening();
    var b, c, d := Turn(Pause, 1), Turn(Resume, 2), Turn(Handle(BatchSend(1)), 3);
    var e, f := [Act(0, SMOOTH)], Turn(Handle(AllSent), 4);
    OpeningRuns(blast);
    RunAppend(s, a + b + c + d + e, f);
    RunAppend(s, a + b + c + d, e);
    RunAppend(s, a + b + c, d);
    RunAppend(s, a + b, c);
    RunAppend(s, a, b);
    var s1 := Run(s, a);
    PauseAlone(s1);
    var s2 := Run(s1, b);
    ResumeAlone(s2);
    var s3 := Run(s2, c);
    EmptyBatchAlone(s3, 1);
    var s4 := Run(s3, d);
    RunOne(s4, Act(0, SMOOTH));
    CreatesLate(s4);
    CompletedAlone(Run(s4, e));
    LateStartIsPlain();
  }
}

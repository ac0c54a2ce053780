/** Runs of a few moves in which one call or handler goes on while the others rest. */
module BlastRuns {
  import opened Prelude
  import opened BlastStatus
  import opened RecipientTable
  import opened Sql
  import opened BlastDelivery

  lemma RunFive(s: State, ms: seq<Move>)
    requires |ms| == 5
    ensures Run(s, ms) == Step(Step(Step(Step(Step(s, ms[0]), ms[1]), ms[2]), ms[3]), ms[4])
  {
    hide Step;
    assert ms[..4][..3] == ms[..3] && ms[..3][..2] == ms[..2] && ms[..2][..1] == ms[..1];
    assert Run(s, ms[..1]) == Step(s, ms[0]) by { assert ms[..1][..0] == []; }
    assert Run(s, ms[..2]) == Step(Run(s, ms[..1]), ms[1]);
    assert Run(s, ms[..3]) == Step(Run(s, ms[..2]), ms[2]);
    assert Run(s, ms[..4]) == Step(Run(s, ms[..3]), ms[3]);
  }

  lemma RunOne(s: State, m: Move)
    ensures Run(s, [m]) == Step(s, m)
  {
    hide Step;
    assert [m][..0] == [];
    assert Run(s, []) == s;
  }

  lemma {:induction false} RunAppend(s: State, a: seq<Move>, b: seq<Move>)
    ensures Run(s, a + b) == Run(Run(s, a), b)
  {
    hide Step;
    if b == [] {
      assert a + b == a;
    } else {
      RunAppend(s, a, b[..|b| - 1]);
      assert (a + b)[..|a + b| - 1] == a + b[..|b| - 1];
    }
  }

  const ANN := User(1, 1, false, "ann@example.com", "verified", None, true, 0, 1, 0, None)
  const BOB := User(2, 1, false, "bob@example.com", "verified", None, true, 0, 2, 0, None)

  /** Nothing fails and the segments hold two users. */
  const SMOOTH := Outcome(false, [ANN, BOB])

  /** A new call or handler and its next four steps, while everything in flight rests. */
  function Turn(m: Move, k: nat): seq<Move> {
    [m, Act(k, SMOOTH), Act(k, SMOOTH), Act(k, SMOOTH), Act(k, SMOOTH)]
  }

  /** The state of a run in which only the last task has moved. */
  function With(s: State, base: seq<Pc>, pc: Pc): State { s.(tasks := base + [pc]) }

  /** The last task moves: it changes the state to t and goes on at `next`. */
  lemma Advance(s: State, base: seq<Pc>, pc: Pc, t: State, next: Pc)
    requires Effect(With(s, base, pc), pc, SMOOTH) == With(t, base, pc) && Next(With(s, base, pc), pc, SMOOTH) == next
    ensures Step(With(s, base, pc), Act(|base|, SMOOTH)) == With(t, base, next)
  {
    hide Effect, Next;
    assert (base + [pc])[|base| := next] == base + [next];
  }

  lemma ReadBatch(s: State, base: seq<Pc>, n: int)
    requires s.status.Sending?
    ensures Step(With(s, base, BatchRead(n)), Act(|base|, SMOOTH)) == With(s, base, Fetching(n))
  {
    Advance(s, base, BatchRead(n), s, Fetching(n));
  }

  lemma ReadPaused(s: State, base: seq<Pc>)
    requires s.status.Paused?
    ensures Step(With(s, base, ResumeRead), Act(|base|, SMOOTH)) == With(s, base, ResumeWrite(s.current))
  {
    Advance(s, base, ResumeRead, s, ResumeWrite(s.current));
  }

  lemma WriteSending(s: State, base: seq<Pc>, b: int)
    ensures Step(With(s, base, ResumeWrite(b)), Act(|base|, SMOOTH))
         == With(s.(status := Status.Sending), base, ResumeDispatch(b))
  {
    Advance(s, base, ResumeWrite(b), s.(status := Status.Sending), ResumeDispatch(b));
  }

  lemma DispatchResumed(s: State, base: seq<Pc>, b: int)
    ensures Step(With(s, base, ResumeDispatch(b)), Act(|base|, SMOOTH))
         == With(s.(dispatched := s.dispatched + {BatchSend(b + 1)}), base, Over)
  {
    Advance(s, base, ResumeDispatch(b), s.(dispatched := s.dispatched + {BatchSend(b + 1)}), Over);
  }

  lemma Rest(s: State, base: seq<Pc>)
    ensures Step(With(s, base, Over), Act(|base|, SMOOTH)) == With(s, base, Over)
  {
    Advance(s, base, Over, s, Over);
  }

  lemma FetchNobody(s: State, base: seq<Pc>, n: int)
    requires s.rows == []
    ensures Step(With(s, base, Fetching(n)), Act(|base|, SMOOTH)) == With(s, base, Counting)
  {
    Advance(s, base, Fetching(n), s, Counting);
  }

  lemma CountNobody(s: State, base: seq<Pc>)
    requires s.rows == []
    ensures Step(With(s, base, Counting), Act(|base|, SMOOTH)) == With(s, base, Completing)
  {
    Advance(s, base, Counting, s, Completing);
  }

  lemma DispatchAllSent(s: State, base: seq<Pc>)
    ensures Step(With(s, base, Completing), Act(|base|, SMOOTH))
         == With(s.(dispatched := s.dispatched + {AllSent}), base, Over)
  {
    Advance(s, base, Completing, s.(dispatched := s.dispatched + {AllSent}), Over);
  }

  lemma ReadCompleted(s: State, base: seq<Pc>)
    requires s.status.Sending?
    ensures Step(With(s, base, CompletedRead), Act(|base|, SMOOTH)) == With(s, base, CompletedWrite)
  {
    Advance(s, base, CompletedRead, s, CompletedWrite);
  }

  lemma WriteCompleted(s: State, base: seq<Pc>)
    ensures Step(With(s, base, CompletedWrite), Act(|base|, SMOOTH)) == With(s.(status := Completed), base, Over)
  {
    Advance(s, base, CompletedWrite, s.(status := Completed), Over);
  }

  lemma ReadToPause(s: State, base: seq<Pc>)
    requires s.status.Processing? || s.status.Sending?
    ensures Step(With(s, base, PauseRead), Act(|base|, SMOOTH)) == With(s, base, PauseWrite)
  {
    Advance(s, base, PauseRead, s, PauseWrite);
  }

  lemma WritePaused(s: State, base: seq<Pc>)
    ensures Step(With(s, base, PauseWrite), Act(|base|, SMOOTH)) == With(s.(status := Paused), base, Over)
  {
    Advance(s, base, PauseWrite, s.(status := Paused), Over);
  }

  lemma FetchSomebody(s: State, base: seq<Pc>, n: int)
    requires OfBatch(s.rows, n) != []
    ensures Step(With(s, base, Fetching(n)), Act(|base|, SMOOTH))
         == With(s, base, Checking(n, OfBatch(s.rows, n), 0, 0))
  {
    hide OfBatch;
    Advance(s, base, Fetching(n), s, Checking(n, OfBatch(s.rows, n), 0, 0));
  }

  lemma CheckFirst(s: State, base: seq<Pc>, n: int, ids: seq<nat>)
    requires s.status.Sending? && ids != []
    ensures Step(With(s, base, Checking(n, ids, 0, 0)), Act(|base|, SMOOTH)) == With(s, base, Mailing(n, ids, 0, 0))
  {
    Advance(s, base, Checking(n, ids, 0, 0), s, Mailing(n, ids, 0, 0));
  }

  lemma MailFirst(s: State, base: seq<Pc>, n: int, ids: seq<nat>)
    requires ids != []
    ensures Step(With(s, base, Mailing(n, ids, 0, 0)), Act(|base|, SMOOTH))
         == With(s.(outbox := s.outbox + [ids[0]]), base, Marking(n, ids, 0, 0, true))
  {
    Advance(s, base, Mailing(n, ids, 0, 0), s.(outbox := s.outbox + [ids[0]]), Marking(n, ids, 0, 0, true));
  }

  /** A call or an event that is there arrives as the last task. */
  lemma Arrives(s: State)
    ensures Step(s, Pause) == With(s, s.tasks, PauseRead)
    ensures Step(s, Resume) == With(s, s.tasks, ResumeRead)
    ensures forall e :: e in s.dispatched ==> Step(s, Handle(e)) == With(s, s.tasks, Entry(e))
  {}

  /** The paused blast after its resume has run alone. */
  function Resumed(s: State): State {
    With(s.(status := Status.Sending, dispatched := s.dispatched + {BatchSend(s.current + 1)}), s.tasks, Over)
  }

  lemma ResumeAlone(s: State)
    requires s.status.Paused?
    ensures Run(s, Turn(Resume, |s.tasks|)) == Resumed(s)
  {
    hide Run, Step, With;
    RunFive(s, Turn(Resume, |s.tasks|));
    Arrives(s);
    ReadPaused(s, s.tasks);
    WriteSending(s, s.tasks, s.current);
    var sending := s.(status := Status.Sending);
    DispatchResumed(sending, s.tasks, s.current);
    Rest(sending.(dispatched := s.dispatched + {BatchSend(s.current + 1)}), s.tasks);
  }

  lemma PauseAlone(s: State)
    requires s.status.Processing? || s.status.Sending?
    ensures Run(s, Turn(Pause, |s.tasks|)) == With(s.(status := Paused), s.tasks, Over)
  {
    hide Run, Step, With;
    RunFive(s, Turn(Pause, |s.tasks|));
    Arrives(s);
    ReadToPause(s, s.tasks);
    WritePaused(s, s.tasks);
    Rest(s.(status := Paused), s.tasks);
  }
}

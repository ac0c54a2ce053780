/** How often a recipient is mailed: a batch event mails its whole batch each time it is taken up. */
module BlastMail {
  import opened BlastStatus
  import opened RecipientTable
  import opened Sql
  import opened BlastDelivery
  import opened BlastRuns
  import Tally

  function Times(outbox: seq<nat>, k: nat): nat {
    if outbox == [] then 0 else Times(outbox[..|outbox| - 1], k) + (if outbox[|outbox| - 1] == k then 1 else 0)
  }

  /** How often a worker takes up the event of batch n in a run. */
  function Takes(ms: seq<Move>, n: int): nat {
    if ms == [] then 0
    else Takes(ms[..|ms| - 1], n) + (if ms[|ms| - 1] == Handle(BatchSend(n)) then 1 else 0)
  }

  lemma {:induction false} TimesIsNumber(outbox: seq<nat>, k: nat)
    ensures Times(outbox, k) == Tally.Number(outbox, x => x == k)
  {
    if outbox != [] {
      TimesIsNumber(outbox[..|outbox| - 1], k);
      Tally.NumberSnoc(outbox[..|outbox| - 1], outbox[|outbox| - 1], x => x == k);
      assert outbox == outbox[..|outbox| - 1] + [outbox[|outbox| - 1]];
    }
  }

  lemma {:induction false} TakesIsNumber(ms: seq<Move>, n: int)
    ensures Takes(ms, n) == Tally.Number(ms, m => m == Handle(BatchSend(n)))
  {
    if ms != [] {
      TakesIsNumber(ms[..|ms| - 1], n);
      Tally.NumberSnoc(ms[..|ms| - 1], ms[|ms| - 1], m => m == Handle(BatchSend(n)));
      assert ms == ms[..|ms| - 1] + [ms[|ms| - 1]];
    }
  }

  predicate AtOrAfter(ids: seq<nat>, i: nat, k: nat) {
    exists j :: i <= j < |ids| && ids[j] == k
  }

  /** A handler of batch n that may yet mail recipient k. */
  predicate Owes(pc: Pc, n: int, k: nat) {
    match pc
    case BatchRead(b) => b == n
    case Fetching(b) => b == n
    case Checking(b, ids, i, _) => b == n && AtOrAfter(ids, i, k)
    case Mailing(b, ids, i, _) => b == n && AtOrAfter(ids, i, k)
    case Marking(b, ids, i, _, _) => b == n && AtOrAfter(ids, i + 1, k)
    case _ => false
  }

  function Owing(tasks: seq<Pc>, n: int, k: nat): nat {
    if tasks == [] then 0
    else Owing(tasks[..|tasks| - 1], n, k) + (if Owes(tasks[|tasks| - 1], n, k) then 1 else 0)
  }

  lemma {:induction false} OwingUpdate(tasks: seq<Pc>, i: nat, pc: Pc, n: int, k: nat)
    requires i < |tasks|
    ensures Owing(tasks[i := pc], n, k)
         == Owing(tasks, n, k) - (if Owes(tasks[i], n, k) then 1 else 0) + (if Owes(pc, n, k) then 1 else 0)
  {
    hide Owes;
    if i < |tasks| - 1 {
      assert tasks[i := pc][..|tasks| - 1] == tasks[..|tasks| - 1][i := pc];
      OwingUpdate(tasks[..|tasks| - 1], i, pc, n, k);
    } else {
      assert tasks[i := pc][..|tasks| - 1] == tasks[..|tasks| - 1];
    }
  }

  lemma OwingAppend(tasks: seq<Pc>, pc: Pc, n: int, k: nat)
    ensures Owing(tasks + [pc], n, k) == Owing(tasks, n, k) + (if Owes(pc, n, k) then 1 else 0)
  {
    hide Owes;
    assert (tasks + [pc])[..|tasks|] == tasks;
  }

  lemma {:induction false} NoMailYet(outbox: seq<nat>, k: nat)
    requires k !in outbox
    ensures Times(outbox, k) == 0
  {
    if outbox != [] {
      NoMailYet(outbox[..|outbox| - 1], k);
    }
  }

  /** Mails to k, as far as k is a recipient of batch n. */
  function Mails(s: State, n: int, k: nat): nat {
    if k < |s.rows| && s.rows[k].batch == n then Times(s.outbox, k) else 0
  }

  lemma OutboxIsBelow(rows: seq<Recipient>, outbox: seq<nat>, k: nat)
    requires RowsSafe(rows, outbox) && k >= |rows|
    ensures k !in outbox
  {}

  lemma CreatingPays(s: State, size: int, o: Outcome, n: int, k: nat)
    requires RowsSafe(s.rows, s.outbox) && size > 0
    ensures Mails(Effect(s, Creating(size), o), n, k) <= Mails(s, n, k)
  {
    hide RowsSafe;
    InsertKeeps(s.rows, s.outbox, s.blast, o.users, size, |o.users|);
    if k >= |s.rows| {
      OutboxIsBelow(s.rows, s.outbox, k);
      NoMailYet(s.outbox, k);
    }
  }

  lemma MailingNext(s: State, ids: seq<nat>, i: nat, sent: nat, o: Outcome, b: int)
    ensures Next(s, Mailing(b, ids, i, sent), o) == Marking(b, ids, i, sent, !o.fault)
  {}

  lemma MailingPays(s: State, ids: seq<nat>, i: nat, sent: nat, o: Outcome, b: int, n: int, k: nat)
    requires i < |ids| && InBatch(s.rows, b, ids)
    ensures var pc := Mailing(b, ids, i, sent);
      Mails(Effect(s, pc, o), n, k) + (if Owes(Next(s, pc, o), n, k) then 1 else 0)
      <= Mails(s, n, k) + (if Owes(pc, n, k) then 1 else 0)
  {
    hide Next;
    var pc := Mailing(b, ids, i, sent);
    assert Next(s, pc, o) == Marking(b, ids, i, sent, !o.fault) by {
      MailingNext(s, ids, i, sent, o, b);
    }
    assert (s.outbox + [ids[i]])[..|s.outbox|] == s.outbox;
    assert k == ids[i] ==> !AtOrAfter(ids, i + 1, k) && AtOrAfter(ids, i, k);
    assert AtOrAfter(ids, i + 1, k) ==> AtOrAfter(ids, i, k);
  }

  /** Every other step of a handler mails nobody and owes no more than before. */
  lemma OthersPay(s: State, pc: Pc, o: Outcome, n: int, k: nat)
    requires !pc.Creating? && !pc.Mailing?
    ensures Mails(Effect(s, pc, o), n, k) == Mails(s, n, k)
    ensures Owes(Next(s, pc, o), n, k) ==> Owes(pc, n, k)
  {
    hide OfBatch, Times;
    match pc
    case Marking(_, ids, i, _, _) =>
    case Checking(_, ids, i, _) =>
    case Fetching(_) =>
    case BatchRead(_) =>
    case _ =>
  }

  /** A step of a handler that mails k pays for it with what the handler owed. */
  lemma StepPays(s: State, pc: Pc, o: Outcome, n: int, k: nat)
    requires RowsSafe(s.rows, s.outbox) && TaskSafe(s.rows, pc)
    ensures Mails(Effect(s, pc, o), n, k) + (if Owes(Next(s, pc, o), n, k) then 1 else 0)
         <= Mails(s, n, k) + (if Owes(pc, n, k) then 1 else 0)
  {
    hide Effect, Mails, RowsSafe;
    match pc
    case Creating(size) => CreatingPays(s, size, o, n, k);
    case Mailing(b, ids, i, sent) => MailingPays(s, ids, i, sent, o, b, n, k);
    case _ => OthersPay(s, pc, o, n, k);
  }

  lemma ActKeepsBound(s: State, i: nat, o: Outcome, n: int, k: nat)
    requires i < |s.tasks| && RowsSafe(s.rows, s.outbox) && TaskSafe(s.rows, s.tasks[i])
    ensures Mails(Step(s, Act(i, o)), n, k) + Owing(Step(s, Act(i, o)).tasks, n, k)
         <= Mails(s, n, k) + Owing(s.tasks, n, k)
  {
    hide Effect, Next, TaskSafe, RowsSafe, Times, Owes, Owing;
    OwingUpdate(s.tasks, i, Next(s, s.tasks[i], o), n, k);
    StepPays(s, s.tasks[i], o, n, k);
  }

  lemma BoundKept(s: State, m: Move, n: int, k: nat)
    requires Inv(s)
    ensures Mails(Step(s, m), n, k) + Owing(Step(s, m).tasks, n, k)
         <= Mails(s, n, k) + Owing(s.tasks, n, k) + (if m == Handle(BatchSend(n)) then 1 else 0)
  {
    hide Effect, Next, TaskSafe, RowsSafe, Times, Owing;
    match m
    case Act(i, o) => if i < |s.tasks| { ActKeepsBound(s, i, o, n, k); }
    case Handle(e) => OwingAppend(s.tasks, Entry(e), n, k);
    case Pause => OwingAppend(s.tasks, PauseRead, n, k);
    case Resume => OwingAppend(s.tasks, ResumeRead, n, k);
    case Dispatch =>
    case Write(_) =>
    case Resize(_) =>
  }

  lemma {:induction false} MailsBounded(s: State, ms: seq<Move>, n: int, k: nat)
    requires Inv(s) && Mails(s, n, k) + Owing(s.tasks, n, k) == 0
    ensures Mails(Run(s, ms), n, k) + Owing(Run(s, ms).tasks, n, k) <= Takes(ms, n)
  {
    if ms != [] {
      MailsBounded(s, ms[..|ms| - 1], n, k);
      BatchZeroNeverMailed(s, ms[..|ms| - 1]);
      BoundKept(Run(s, ms[..|ms| - 1]), ms[|ms| - 1], n, k);
    }
  }

  /** Main result: in every run a recipient gets at most one email for each time a worker
      takes up the event of its batch; so at most one when no batch event is redelivered or
      dispatched again by a resume. */
  lemma MailedAtMostTaken(blast: int, batchSize: int, status: Status, ms: seq<Move>, k: nat)
    requires k < |Run(Init(blast, batchSize, status), ms).rows|
    ensures var s := Run(Init(blast, batchSize, status), ms);
      Times(s.outbox, k) <= Takes(ms, s.rows[k].batch)
  {
    InitInv(blast, batchSize, status);
    MailsBounded(Init(blast, batchSize, status), ms, Run(Init(blast, batchSize, status), ms).rows[k].batch, k);
  }

  /** A handler alone that has just mailed the first recipient of its batch. */
  function FirstMailed(s: State, n: int): State
    requires OfBatch(s.rows, n) != []
  {
    var ids := OfBatch(s.rows, n);
    With(s.(outbox := s.outbox + [ids[0]]), s.tasks, Marking(n, ids, 0, 0, true))
  }

  /** Taking up a batch event mails the batch from its first recipient on, whatever the
      statuses say and however often it was mailed before. */
  lemma TakenMeansMailed(s: State, n: int)
    requires s.status.Sending? && BatchSend(n) in s.dispatched && OfBatch(s.rows, n) != []
    ensures Run(s, Turn(Handle(BatchSend(n)), |s.tasks|)) == FirstMailed(s, n)
  {
    hide Run, Step, OfBatch, With;
    var ids := OfBatch(s.rows, n);
    RunFive(s, Turn(Handle(BatchSend(n)), |s.tasks|));
    Arrives(s);
    ReadBatch(s, s.tasks, n);
    FetchSomebody(s, s.tasks, n);
    CheckFirst(s, s.tasks, n, ids);
    MailFirst(s, s.tasks, n, ids);
  }

  lemma {:induction false} NoTakes(ms: seq<Move>, n: int)
    requires Handle(BatchSend(n)) !in ms
    ensures Takes(ms, n) == 0
  {
    if ms != [] {
      NoTakes(ms[..|ms| - 1], n);
    }
  }

  lemma {:induction false} TakesAppend(a: seq<Move>, b: seq<Move>, n: int)
    ensures Takes(a + b, n) == Takes(a, n) + Takes(b, n)
  {
    if b == [] {
      assert a + b == a;
    } else {
      TakesAppend(a, b[..|b| - 1], n);
      assert (a + b)[..|a + b| - 1] == a + b[..|b| - 1];
    }
  }

  lemma TakesTurn(n: int, k: nat)
    ensures Takes(Turn(Handle(BatchSend(n)), k), n) == 1
  {
    var take, rest := [Handle(BatchSend(n))], Turn(Handle(BatchSend(n)), k)[1..];
    assert take + rest == Turn(Handle(BatchSend(n)), k);
    assert take[..0] == [];
    TakesAppend(take, rest, n);
    NoTakes(rest, n);
  }

  /** The bound is reached: redelivered j times, a batch event mails its first recipient j
      more times. */
  lemma {:induction false} RedeliveryMailsAgain(s: State, n: int, j: nat) returns (ms: seq<Move>)
    requires s.status.Sending? && BatchSend(n) in s.dispatched && OfBatch(s.rows, n) != []
    ensures var t, first := Run(s, ms), OfBatch(s.rows, n)[0];
      && t.status == s.status && t.dispatched == s.dispatched && t.rows == s.rows
      && Takes(ms, n) == j && Times(t.outbox, first) == Times(s.outbox, first) + j
  {
    if j == 0 {
      return [];
    }
    var before := RedeliveryMailsAgain(s, n, j - 1);
    var t := Run(s, before);
    var turn := Turn(Handle(BatchSend(n)), |t.tasks|);
    TakenMeansMailed(t, n);
    RunAppend(s, before, turn);
    TakesAppend(before, turn, n);
    TakesTurn(n, |t.tasks|);
    var first := OfBatch(s.rows, n)[0];
    assert (t.outbox + [first])[..|t.outbox|] == t.outbox;
    ms := before + turn;
  }

  /** A blast stopped in the middle of a batch and resumed starts that batch again: its first
      recipient is mailed once more, however often it was mailed before. */
  lemma ResumeMailsAgain(s: State)
    requires s.status.Paused? && OfBatch(s.rows, s.current + 1) != []
    ensures var n, k := s.current + 1, |s.tasks|;
      var t := Run(s, Turn(Resume, k) + Turn(Handle(BatchSend(n)), k + 1));
      t.rows == s.rows && Times(t.outbox, OfBatch(s.rows, n)[0]) == Times(s.outbox, OfBatch(s.rows, n)[0]) + 1
  {
    hide Run, OfBatch;
    var n, k := s.current + 1, |s.tasks|;
    RunAppend(s, Turn(Resume, k), Turn(Handle(BatchSend(n)), k + 1));
    ResumeAlone(s);
    TakenMeansMailed(Resumed(s), n);
    assert (s.outbox + [OfBatch(s.rows, n)[0]])[..|s.outbox|] == s.outbox;
  }

  lemma CreateTwo(s: State, base: seq<Pc>)
    requires s.rows == []
    ensures Step(With(s, base, Creating(1)), Act(|base|, SMOOTH))
         == With(s.(rows := InsertUsers([], s.blast, SMOOTH.users, 1, 2)), base, Totalling)
  {
    hide InsertUsers;
    Advance(s, base, Creating(1), s.(rows := InsertUsers([], s.blast, SMOOTH.users, 1, 2)), Totalling);
  }

  lemma ReadProcessing(s: State, base: seq<Pc>)
    requires s.status.Processing? && s.batchSize == 1
    ensures Step(With(s, base, StartRead), Act(|base|, SMOOTH)) == With(s, base, Creating(1))
  {
    Advance(s, base, StartRead, s, Creating(1));
  }

  lemma WriteTotal(s: State, base: seq<Pc>)
    ensures Step(With(s, base, Totalling), Act(|base|, SMOOTH)) == With(s, base, StartSending)
  {
    Advance(s, base, Totalling, s, StartSending);
  }

  lemma StartsSending(s: State, base: seq<Pc>)
    ensures Step(With(s, base, StartSending), Act(|base|, SMOOTH))
         == With(s.(status := Status.Sending), base, DispatchFirst)
  {
    Advance(s, base, StartSending, s.(status := Status.Sending), DispatchFirst);
  }

  lemma DispatchesFirst(s: State, base: seq<Pc>)
    ensures Step(With(s, base, DispatchFirst), Act(|base|, SMOOTH))
         == With(s.(dispatched := s.dispatched + {BatchSend(1)}), base, Over)
  {
    Advance(s, base, DispatchFirst, s.(dispatched := s.dispatched + {BatchSend(1)}), Over);
  }

  /** A blast in batches of one, created for Ann and Bob and started. */
  function StartedForTwo(blast: int): State {
    State(Status.Sending, 1, blast, 0, InsertUsers([], blast, SMOOTH.users, 1, 2), [], {Started, BatchSend(1)}, [Over])
  }

  lemma DispatchStarts(blast: int)
    ensures Step(Init(blast, 1, Processing), Dispatch) == Init(blast, 1, Processing).(dispatched := {Started})
  {}

  lemma StartForTwo(blast: int) returns (ms: seq<Move>)
    ensures Run(Init(blast, 1, Processing), ms) == StartedForTwo(blast) && Takes(ms, 1) == 0
  {
    hide Run, Step, Effect, Next, InsertUsers, Takes;
    var s := Init(blast, 1, Processing).(dispatched := {Started});
    var created := s.(rows := InsertUsers([], blast, SMOOTH.users, 1, 2));
    var act := Act(0, SMOOTH);
    var first, second := [Dispatch, Handle(Started), act, act, act], [act, act, act, act, act];
    RunFive(Init(blast, 1, Processing), first);
    assert Step(Init(blast, 1, Processing), Dispatch) == s by { DispatchStarts(blast); }
    Arrives(s);
    ReadProcessing(s, []);
    CreateTwo(s, []);
    WriteTotal(created, []);
    StartsSending(created, []);
    RunFive(With(created, [], StartSending), second);
    var sending := created.(status := Status.Sending);
    var done := sending.(dispatched := {Started} + {BatchSend(1)});
    DispatchesFirst(sending, []);
    Rest(done, []);
    assert With(done, [], Over) == StartedForTwo(blast) by {
      assert {Started} + {BatchSend(1)} == {Started, BatchSend(1)};
    }
    RunAppend(Init(blast, 1, Processing), first, second);
    ms := first + second;
    assert Takes(ms, 1) == 0 by { NoTakes(ms, 1); }
  }

  lemma BobIsInBatchOne(blast: int)
    ensures var rows := InsertUsers([], blast, SMOOTH.users, 1, 2);
      |rows| == 2 && rows[1].batch == 1 && OfBatch(rows, 1) == [1]
  {
    var users := SMOOTH.users;
    FreshInsert([], blast, users, 1, 2);
    var rows := RowsFor(blast, users, 1, 2);
    assert rows[0] == RowFor(blast, users, 1, 0) && rows[1] == RowFor(blast, users, 1, 1);
    assert rows[..1][..0] == [];
    assert OfBatch(rows[..1], 1) == OfBatch([], 1);
  }

  /** Main result: the bound on emails is exact. For every j some run from the creation of a
      blast takes up its first batch event j times and mails Bob j times. */
  lemma MailedAsOftenAsTaken(blast: int, j: nat)
    ensures exists ms ::
      var t := Run(Init(blast, 1, Processing), ms);
      |t.rows| == 2 && t.rows[1].batch == 1 && Takes(ms, 1) == j == Times(t.outbox, 1)
  {
    hide Run, Takes, OfBatch;
    var s := StartedForTwo(blast);
    var start := StartForTwo(blast);
    BobIsInBatchOne(blast);
    var again := RedeliveryMailsAgain(s, 1, j);
    RunAppend(Init(blast, 1, Processing), start, again);
    TakesAppend(start, again, 1);
    assert Takes(start + again, 1) == j;
  }

  lemma BobOnce()
    ensures Times([] + [1], 1) == 1
  {
    assert ([] + [1])[..0] == [];
    assert Times([], 1) == 0;
  }

  lemma TurnBegins()
    ensures Pause in Turn(Pause, 2) && Resume in Turn(Resume, 3)
  {
    assert Turn(Pause, 2)[0] == Pause && Turn(Resume, 3)[0] == Resume;
  }

  /** From the creation of a blast: Bob is mailed, the blast is paused and resumed, and Bob is
      mailed again, each dispatched event being taken up once. */
  lemma MailedTwiceByResume(blast: int) returns (ms: seq<Move>)
    ensures var t := Run(Init(blast, 1, Processing), ms);
      |t.rows| == 2 && t.rows[1].batch == 1 && Times(t.outbox, 1) == 2
    ensures Pause in ms && Resume in ms
  {
    hide Run, OfBatch, InsertUsers, Turn, Times;
    var s := StartedForTwo(blast);
    var start := StartForTwo(blast);
    BobIsInBatchOne(blast);
    var take, pause := Turn(Handle(BatchSend(1)), 1), Turn(Pause, 2);
    var again := Turn(Resume, 3) + Turn(Handle(BatchSend(1)), 4);
    TakenMeansMailed(s, 1);
    var mailed := Run(s, take);
    PauseAlone(mailed);
    var paused := Run(mailed, pause);
    ResumeMailsAgain(paused);
    RunAppend(Init(blast, 1, Processing), start + take + pause, again);
    RunAppend(Init(blast, 1, Processing), start + take, pause);
    RunAppend(Init(blast, 1, Processing), start, take);
    assert Times(paused.outbox, 1) == 1 by { BobOnce(); }
    ms := start + take + pause + again;
    assert Pause in pause && Resume in again by { TurnBegins(); }
  }
}

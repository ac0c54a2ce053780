/**
 One handler or call going on alone in the machine of the interleavings does what the worker's
 code does: the same rows, status, emails and events, whichever statements fail.
 */
module BlastHandlers {
  import opened BlastStatus
  import opened RecipientTable
  import opened Sql
  import opened BlastDelivery
  import BlastRuns
  import BlastWorker

  // ---------------------------------------------------------------- alone in the machine

  /** What the surroundings decide at each step. */
  type Answer = Pc -> Outcome

  /** A number of steps of one handler, all others resting. */
  function Solo(s: State, pc: Pc, answer: Answer, steps: nat): (State, Pc)
    decreases steps
  {
    if steps == 0 then (s, pc)
    else Solo(Effect(s, pc, answer(pc)), Next(s, pc, answer(pc)), answer, steps - 1)
  }

  lemma {:induction false} SoloOn(s: State, pc: Pc, answer: Answer, a: nat, b: nat)
    ensures var t := Solo(s, pc, answer, a);
      Solo(s, pc, answer, a + b) == Solo(t.0, t.1, answer, b)
    decreases a
  {
    hide Effect, Next;
    if a > 0 {
      SoloOn(Effect(s, pc, answer(pc)), Next(s, pc, answer(pc)), answer, a - 1, b);
    }
  }

  /** A step does not look at what else is in flight. */
  lemma EffectElsewhere(s: State, base: seq<Pc>, pc: Pc, o: Outcome, other: Pc)
    ensures Effect(BlastRuns.With(s, base, other), pc, o) == BlastRuns.With(Effect(s, pc, o), base, other)
  {
    match pc
    case Creating(_) =>
    case Mailing(_, _, _, _) =>
    case Marking(_, _, _, _, _) =>
    case _ =>
  }

  lemma NextElsewhere(s: State, base: seq<Pc>, pc: Pc, o: Outcome, other: Pc)
    ensures Next(BlastRuns.With(s, base, other), pc, o) == Next(s, pc, o)
  {
    hide OfBatch, PendingCount;
    match pc
    case Fetching(_) =>
    case Checking(_, _, _, _) =>
    case _ =>
  }

  lemma NoMoves(s: State, base: seq<Pc>, pc: Pc)
    ensures Run(BlastRuns.With(s, base, pc), []) == BlastRuns.With(s, base, pc)
  {}

  /** Such steps are a run of the machine in which nobody else moves. */
  lemma {:induction false} SoloIsRun(s: State, base: seq<Pc>, pc: Pc, answer: Answer, steps: nat)
    returns (ms: seq<Move>)
    ensures |ms| == steps && forall i :: 0 <= i < |ms| ==> ms[i].Act? && ms[i].k == |base|
    ensures var t := Solo(s, pc, answer, steps);
      Run(BlastRuns.With(s, base, pc), ms) == BlastRuns.With(t.0, base, t.1)
    decreases steps
  {
    hide Effect, Next, Run;
    if steps == 0 {
      assert Run(BlastRuns.With(s, base, pc), []) == BlastRuns.With(s, base, pc) by { NoMoves(s, base, pc); }
      return [];
    }
    var t, next := Effect(s, pc, answer(pc)), Next(s, pc, answer(pc));
    var first := Act(|base|, answer(pc));
    EffectElsewhere(s, base, pc, answer(pc), pc);
    NextElsewhere(s, base, pc, answer(pc), pc);
    assert (base + [pc])[|base| := next] == base + [next];
    assert Step(BlastRuns.With(s, base, pc), first) == BlastRuns.With(t, base, next);
    var rest := SoloIsRun(t, base, next, answer, steps - 1);
    BlastRuns.RunOne(BlastRuns.With(s, base, pc), first);
    BlastRuns.RunAppend(BlastRuns.With(s, base, pc), [first], rest);
    ms := [first] + rest;
  }

  // ---------------------------------------------------------------- the started event

  /** The handler's statements fail as the worker's do. */
  function StartedAnswer(users: seq<User>, luck: BlastWorker.Luck): Answer {
    (pc: Pc) =>
      match pc
      case Creating(_) => Outcome(!luck.creates, users)
      case Totalling => Outcome(!luck.totals, users)
      case StartSending => Outcome(!luck.writes, users)
      case CompleteEmpty => Outcome(!luck.writes, users)
      case DispatchFirst => Outcome(!luck.dispatches, users)
      case Failing => Outcome(!luck.fails, users)
      case _ => Outcome(false, users)
  }

  lemma OneStep(s: State, pc: Pc, answer: Answer, steps: nat, t: State, next: Pc)
    requires steps > 0 && Effect(s, pc, answer(pc)) == t && Next(s, pc, answer(pc)) == next
    ensures Solo(s, pc, answer, steps) == Solo(t, next, answer, steps - 1)
  {
    hide Effect, Next;
  }

  lemma {:induction false} Ended(s: State, answer: Answer, steps: nat)
    ensures Solo(s, Over, answer, steps) == (s, Over)
    decreases steps
  {
    if steps > 0 {
      Ended(s, answer, steps - 1);
    }
  }

  lemma Fails(s: State, users: seq<User>, luck: BlastWorker.Luck, steps: nat)
    requires steps > 0
    ensures Solo(s, Failing, StartedAnswer(users, luck), steps)
         == (if luck.fails then s.(status := Status.Failed) else s, Over)
  {
    var t := if luck.fails then s.(status := Status.Failed) else s;
    OneStep(s, Failing, StartedAnswer(users, luck), steps, t, Over);
    Ended(t, StartedAnswer(users, luck), steps - 1);
  }

  lemma FromDispatch(s: State, users: seq<User>, luck: BlastWorker.Luck)
    ensures Solo(s, DispatchFirst, StartedAnswer(users, luck), 2) ==
      (if luck.dispatches then s.(dispatched := s.dispatched + {BatchSend(1)})
       else if luck.fails then s.(status := Status.Failed) else s, Over)
  {
    hide Solo;
    var answer := StartedAnswer(users, luck);
    if luck.dispatches {
      var t := s.(dispatched := s.dispatched + {BatchSend(1)});
      OneStep(s, DispatchFirst, answer, 2, t, Over);
      Ended(t, answer, 1);
    } else {
      OneStep(s, DispatchFirst, answer, 2, s, Failing);
      Fails(s, users, luck, 1);
    }
  }

  lemma FromSending(s: State, users: seq<User>, luck: BlastWorker.Luck)
    ensures Solo(s, StartSending, StartedAnswer(users, luck), 3) ==
      (if !luck.writes then (if luck.fails then s.(status := Status.Failed) else s)
       else if luck.dispatches then s.(status := Status.Sending, dispatched := s.dispatched + {BatchSend(1)})
       else s.(status := if luck.fails then Status.Failed else Status.Sending), Over)
  {
    hide Solo;
    var answer := StartedAnswer(users, luck);
    if luck.writes {
      OneStep(s, StartSending, answer, 3, s.(status := Status.Sending), DispatchFirst);
      FromDispatch(s.(status := Status.Sending), users, luck);
    } else {
      OneStep(s, StartSending, answer, 3, s, Failing);
      Fails(s, users, luck, 2);
    }
  }

  lemma FromTotal(s: State, users: seq<User>, luck: BlastWorker.Luck)
    ensures Solo(s, Totalling, StartedAnswer(users, luck), 4) ==
      (if !luck.totals || !luck.writes then (if luck.fails then s.(status := Status.Failed) else s)
       else if luck.dispatches then s.(status := Status.Sending, dispatched := s.dispatched + {BatchSend(1)})
       else s.(status := if luck.fails then Status.Failed else Status.Sending), Over)
  {
    hide Solo;
    var answer := StartedAnswer(users, luck);
    if luck.totals {
      OneStep(s, Totalling, answer, 4, s, StartSending);
      FromSending(s, users, luck);
    } else {
      OneStep(s, Totalling, answer, 4, s, Failing);
      Fails(s, users, luck, 3);
    }
  }

  lemma CompletesEmpty(s: State, users: seq<User>, luck: BlastWorker.Luck)
    ensures Solo(s, CompleteEmpty, StartedAnswer(users, luck), 4)
         == (if luck.writes then s.(status := Completed) else s, Over)
  {
    hide Solo;
    var t := if luck.writes then s.(status := Completed) else s;
    OneStep(s, CompleteEmpty, StartedAnswer(users, luck), 4, t, Over);
    Ended(t, StartedAnswer(users, luck), 3);
  }

  lemma Creates(s: State, size: int, users: seq<User>, luck: BlastWorker.Luck)
    requires size > 0
    ensures var answer := StartedAnswer(users, luck);
      Solo(s, Creating(size), answer, 5) ==
        if !luck.creates then Solo(s, Failing, answer, 4)
        else Solo(s.(rows := InsertUsers(s.rows, s.blast, users, size, |users|)),
                  if users == [] then CompleteEmpty else Totalling, answer, 4)
  {
    hide InsertUsers, Solo;
    var answer := StartedAnswer(users, luck);
    if luck.creates {
      OneStep(s, Creating(size), answer, 5, s.(rows := InsertUsers(s.rows, s.blast, users, size, |users|)),
              if users == [] then CompleteEmpty else Totalling);
    } else {
      OneStep(s, Creating(size), answer, 5, s, Failing);
    }
  }

  lemma StartReads(s: State, users: seq<User>, luck: BlastWorker.Luck)
    ensures var answer := StartedAnswer(users, luck);
      Solo(s, StartRead, answer, 6) ==
        if s.status.Processing? then Solo(s, Creating(SizeOf(s.batchSize)), answer, 5) else (s, Over)
  {
    hide Solo;
    var answer := StartedAnswer(users, luck);
    OneStep(s, StartRead, answer, 6, s, if s.status.Processing? then Creating(SizeOf(s.batchSize)) else Over);
    Ended(s, answer, 5);
  }

  /** Main result: the handler of the started event alone. */
  lemma StartedSolo(s: State, users: seq<User>, luck: BlastWorker.Luck)
    ensures var size := if s.batchSize <= 0 then 100 else s.batchSize;
      var created := s.(rows := InsertUsers(s.rows, s.blast, users, size, |users|));
      var failed := if luck.fails then Status.Failed else Processing;
      Solo(s, StartRead, StartedAnswer(users, luck), 6) ==
        (if s.status != Processing then s
         else if !luck.creates then s.(status := failed)
         else if users == [] then created.(status := if luck.writes then Completed else Processing)
         else if !luck.totals || !luck.writes then created.(status := failed)
         else if !luck.dispatches then created.(status := if luck.fails then Status.Failed else Status.Sending)
         else created.(status := Status.Sending, dispatched := s.dispatched + {BatchSend(1)}), Over)
  {
    hide InsertUsers, Solo, StartedAnswer;
    var size := SizeOf(s.batchSize);
    var created := s.(rows := InsertUsers(s.rows, s.blast, users, size, |users|));
    StartReads(s, users, luck);
    Creates(s, size, users, luck);
    Fails(s, users, luck, 4);
    CompletesEmpty(created, users, luck);
    FromTotal(created, users, luck);
  }

  // ---------------------------------------------------------------- a batch event

  /** The handler's statements and emails fail as the worker's do; its check of the status also
      fails when the blast is no longer seen sending. */
  function BatchAnswer(before: seq<Recipient>, luck: BlastWorker.Luck, w: BlastWorker.Outside): Answer {
    (pc: Pc) =>
      match pc
      case Fetching(_) => Outcome(!luck.template || !luck.fetches, [])
      case Checking(_, _, i, _) => Outcome(!w.seen(i), [])
      case Mailing(_, ids, i, _) => Outcome(i < |ids| && ids[i] < |before| && !w.arrives(before[ids[i]].user), [])
      case Marking(_, ids, i, _, _) => Outcome(i < |ids| && ids[i] < |before| && !w.marks(before[ids[i]].user), [])
      case Progressing(_) => Outcome(!luck.progresses, [])
      case LookingAhead(_) => Outcome(!luck.looks, [])
      case DispatchNext(_) => Outcome(!luck.dispatches, [])
      case Counting => Outcome(!luck.counts, [])
      case Completing => Outcome(!luck.dispatches, [])
      case Failing => Outcome(!luck.fails, [])
      case _ => Outcome(false, [])
  }

  /** The recipients up to i whose email went through, in their order. */
  function Mailed(before: seq<Recipient>, ids: seq<nat>, i: nat, w: BlastWorker.Outside): seq<nat>
    requires i <= |ids| && forall j :: 0 <= j < |ids| ==> ids[j] < |before|
  {
    if i == 0 then []
    else Mailed(before, ids, i - 1, w) + (if w.arrives(before[ids[i - 1]].user) then [ids[i - 1]] else [])
  }

  /** The handler has dealt with the recipients up to i. */
  ghost predicate Midway(s: State, t: State, ids: seq<nat>, i: nat, w: BlastWorker.Outside)
    requires i <= |ids| && forall j :: 0 <= j < |ids| ==> ids[j] < |s.rows|
  {
    && t == s.(rows := t.rows, outbox := s.outbox + Mailed(s.rows, ids, i, w))
    && BlastWorker.MarkedSome(t.rows, s.rows, ids[..i], w)
  }

  lemma CheckStep(t: State, n: int, ids: seq<nat>, i: nat, sent: nat, before: seq<Recipient>, luck: BlastWorker.Luck,
                  w: BlastWorker.Outside, steps: nat)
    requires steps > 0 && t.status.Sending?
    ensures var answer := BatchAnswer(before, luck, w);
      Solo(t, Checking(n, ids, i, sent), answer, steps) ==
        Solo(t, if i >= |ids| then Progressing(n)
                else if n > 1 && sent % 10 == 0 && !w.seen(i) then Over
                else Mailing(n, ids, i, sent), answer, steps - 1)
  {
    hide Solo;
    var pc, answer := Checking(n, ids, i, sent), BatchAnswer(before, luck, w);
    if i >= |ids| {
      OneStep(t, pc, answer, steps, t, Progressing(n));
    } else if n > 1 && sent % 10 == 0 && !w.seen(i) {
      OneStep(t, pc, answer, steps, t, Over);
    } else {
      OneStep(t, pc, answer, steps, t, Mailing(n, ids, i, sent));
    }
  }

  lemma MailStep(t: State, n: int, ids: seq<nat>, i: nat, sent: nat, before: seq<Recipient>, luck: BlastWorker.Luck,
                 w: BlastWorker.Outside, steps: nat)
    requires steps > 0 && i < |ids| && ids[i] < |before|
    ensures var answer, arrives := BatchAnswer(before, luck, w), w.arrives(before[ids[i]].user);
      Solo(t, Mailing(n, ids, i, sent), answer, steps) ==
        Solo(if arrives then t.(outbox := t.outbox + [ids[i]]) else t,
             Marking(n, ids, i, sent, arrives), answer, steps - 1)
  {
    hide Solo;
    var arrives := w.arrives(before[ids[i]].user);
    OneStep(t, Mailing(n, ids, i, sent), BatchAnswer(before, luck, w), steps,
            if arrives then t.(outbox := t.outbox + [ids[i]]) else t, Marking(n, ids, i, sent, arrives));
  }

  lemma Marks(t: State, n: int, ids: seq<nat>, i: nat, sent: nat, ok: bool, o: Outcome)
    requires i < |ids| && ids[i] < |t.rows|
    ensures Effect(t, Marking(n, ids, i, sent, ok), o) ==
      if o.fault then t
      else t.(rows := t.rows[ids[i] := t.rows[ids[i]].(status := if ok then Sent else RecipientStatus.Failed)])
    ensures Next(t, Marking(n, ids, i, sent, ok), o) == Checking(n, ids, i + 1, if ok then sent + 1 else sent)
  {}

  lemma MarkStep(t: State, n: int, ids: seq<nat>, i: nat, sent: nat, ok: bool, before: seq<Recipient>,
                 luck: BlastWorker.Luck, w: BlastWorker.Outside, steps: nat)
    requires steps > 0 && i < |ids| && ids[i] < |before| == |t.rows|
    ensures var answer, r := BatchAnswer(before, luck, w), t.rows[ids[i]];
      var marked := r.(status := if ok then Sent else RecipientStatus.Failed);
      Solo(t, Marking(n, ids, i, sent, ok), answer, steps) ==
        Solo(if w.marks(before[ids[i]].user) then t.(rows := t.rows[ids[i] := marked]) else t,
             Checking(n, ids, i + 1, if ok then sent + 1 else sent), answer, steps - 1)
  {
    hide Solo, Effect, Next;
    var pc, answer := Marking(n, ids, i, sent, ok), BatchAnswer(before, luck, w);
    Marks(t, n, ids, i, sent, ok, answer(pc));
    OneStep(t, pc, answer, steps, Effect(t, pc, answer(pc)), Next(t, pc, answer(pc)));
  }

  lemma NoSteps(s: State, pc: Pc, answer: Answer)
    ensures Solo(s, pc, answer, 0) == (s, pc)
  {}

  /** One recipient is mailed and marked. */
  lemma OneRecipient(s: State, t: State, n: int, ids: seq<nat>, i: nat, luck: BlastWorker.Luck, w: BlastWorker.Outside)
    returns (u: State)
    requires i < |ids| && InBatch(s.rows, n, ids) && Midway(s, t, ids, i, w)
    requires s.status.Sending? && !BlastWorker.Stops(s.rows, ids, n, i, w)
    ensures Midway(s, u, ids, i + 1, w)
    ensures Solo(t, Checking(n, ids, i, BlastWorker.SentTo(s.rows, ids, i, w)), BatchAnswer(s.rows, luck, w), 3)
         == (u, Checking(n, ids, i + 1, BlastWorker.SentTo(s.rows, ids, i + 1, w)))
  {
    hide BlastWorker.MarkedSome, Solo, BatchAnswer;
    var sent := BlastWorker.SentTo(s.rows, ids, i, w);
    var r := s.rows[ids[i]];
    var arrives := w.arrives(r.user);
    BlastWorker.OneMoreMarked(t.rows, s.rows, ids, i, w);
    var mailed := if arrives then t.(outbox := t.outbox + [ids[i]]) else t;
    var marked := r.(status := if arrives then Sent else RecipientStatus.Failed);
    u := if w.marks(r.user) then mailed.(rows := t.rows[ids[i] := marked]) else mailed;
    CheckStep(t, n, ids, i, sent, s.rows, luck, w, 3);
    MailStep(t, n, ids, i, sent, s.rows, luck, w, 2);
    MarkStep(mailed, n, ids, i, sent, arrives, s.rows, luck, w, 1);
    NoSteps(u, Checking(n, ids, i + 1, BlastWorker.SentTo(s.rows, ids, i + 1, w)), BatchAnswer(s.rows, luck, w));
    assert s.outbox + (Mailed(s.rows, ids, i, w) + [ids[i]]) == s.outbox + Mailed(s.rows, ids, i, w) + [ids[i]];
  }

  /** The loop over the recipients goes on to the first check that stops it, or to the end. */
  lemma {:induction false} LoopSolo(s: State, t: State, n: int, ids: seq<nat>, i: nat, luck: BlastWorker.Luck,
                                    w: BlastWorker.Outside)
    returns (u: State, upto: nat, steps: nat)
    requires i <= |ids| && InBatch(s.rows, n, ids) && Midway(s, t, ids, i, w) && s.status.Sending?
    ensures i <= upto <= |ids| && Midway(s, u, ids, upto, w)
    ensures forall j :: i <= j < upto ==> !BlastWorker.Stops(s.rows, ids, n, j, w)
    ensures upto < |ids| ==> BlastWorker.Stops(s.rows, ids, n, upto, w)
    ensures Solo(t, Checking(n, ids, i, BlastWorker.SentTo(s.rows, ids, i, w)), BatchAnswer(s.rows, luck, w), steps)
         == (u, if upto < |ids| then Over else Progressing(n))
    decreases |ids| - i
  {
    hide BlastWorker.MarkedSome, Solo, BatchAnswer, BlastWorker.SentTo;
    var answer, sent := BatchAnswer(s.rows, luck, w), BlastWorker.SentTo(s.rows, ids, i, w);
    if i == |ids| || BlastWorker.Stops(s.rows, ids, n, i, w) {
      CheckStep(t, n, ids, i, sent, s.rows, luck, w, 1);
      NoSteps(t, if i == |ids| then Progressing(n) else Over, answer);
      return t, i, 1;
    }
    var v := OneRecipient(s, t, n, ids, i, luck, w);
    u, upto, steps := LoopSolo(s, v, n, ids, i + 1, luck, w);
    SoloOn(t, Checking(n, ids, i, sent), answer, 3, steps);
    steps := 3 + steps;
  }

  /** The blast fails, unless that write fails too. */
  function Failed(s: State, luck: BlastWorker.Luck): State {
    if luck.fails then s.(status := Status.Failed) else s
  }

  /** Completion is dispatched when nobody is pending. */
  function Checked(s: State, luck: BlastWorker.Luck): State {
    if luck.counts && luck.dispatches && PendingCount(s.rows) == 0 then s.(dispatched := s.dispatched + {AllSent})
    else s
  }

  /** After a batch mailed to its end: the progress is recorded, and the next batch event or the
      check for completion follows. */
  function Rounded(s: State, n: int, luck: BlastWorker.Luck): State {
    var t := if luck.progresses then s.(current := n) else s;
    if !luck.looks then Failed(t, luck)
    else if OfBatch(s.rows, n + 1) == [] then Checked(t, luck)
    else if luck.dispatches then t.(dispatched := s.dispatched + {BatchSend(n + 1)})
    else Failed(t, luck)
  }

  lemma BatchFails(s: State, before: seq<Recipient>, luck: BlastWorker.Luck, w: BlastWorker.Outside, steps: nat)
    requires steps > 0
    ensures Solo(s, Failing, BatchAnswer(before, luck, w), steps) == (Failed(s, luck), Over)
  {
    hide Solo;
    OneStep(s, Failing, BatchAnswer(before, luck, w), steps, Failed(s, luck), Over);
    Ended(Failed(s, luck), BatchAnswer(before, luck, w), steps - 1);
  }

  lemma Dispatches(s: State, before: seq<Recipient>, luck: BlastWorker.Luck, w: BlastWorker.Outside, steps: nat)
    requires steps > 0
    ensures Solo(s, Completing, BatchAnswer(before, luck, w), steps)
         == (if luck.dispatches then s.(dispatched := s.dispatched + {AllSent}) else s, Over)
  {
    hide Solo;
    var t := if luck.dispatches then s.(dispatched := s.dispatched + {AllSent}) else s;
    OneStep(s, Completing, BatchAnswer(before, luck, w), steps, t, Over);
    Ended(t, BatchAnswer(before, luck, w), steps - 1);
  }

  lemma Counts(s: State, before: seq<Recipient>, luck: BlastWorker.Luck, w: BlastWorker.Outside, steps: nat)
    requires steps > 1
    ensures Solo(s, Counting, BatchAnswer(before, luck, w), steps) == (Checked(s, luck), Over)
  {
    hide Solo, PendingCount;
    var answer := BatchAnswer(before, luck, w);
    OneStep(s, Counting, answer, steps, s, if luck.counts && PendingCount(s.rows) == 0 then Completing else Over);
    if luck.counts && PendingCount(s.rows) == 0 {
      Dispatches(s, before, luck, w, steps - 1);
    } else {
      Ended(s, answer, steps - 1);
    }
  }

  lemma NextDispatched(s: State, n: int, before: seq<Recipient>, luck: BlastWorker.Luck, w: BlastWorker.Outside,
                       steps: nat)
    requires steps > 1
    ensures Solo(s, DispatchNext(n), BatchAnswer(before, luck, w), steps) ==
      (if luck.dispatches then s.(dispatched := s.dispatched + {BatchSend(n + 1)}) else Failed(s, luck), Over)
  {
    hide Solo;
    var answer := BatchAnswer(before, luck, w);
    if luck.dispatches {
      var t := s.(dispatched := s.dispatched + {BatchSend(n + 1)});
      OneStep(s, DispatchNext(n), answer, steps, t, Over);
      Ended(t, answer, steps - 1);
    } else {
      OneStep(s, DispatchNext(n), answer, steps, s, Failing);
      BatchFails(s, before, luck, w, steps - 1);
    }
  }

  lemma LooksAhead(s: State, n: int, before: seq<Recipient>, luck: BlastWorker.Luck, w: BlastWorker.Outside)
    ensures Solo(s, LookingAhead(n), BatchAnswer(before, luck, w), 4) ==
      (if !luck.looks then Failed(s, luck)
       else if OfBatch(s.rows, n + 1) == [] then Checked(s, luck)
       else if luck.dispatches then s.(dispatched := s.dispatched + {BatchSend(n + 1)})
       else Failed(s, luck), Over)
  {
    hide Solo, OfBatch, Checked, Failed;
    var answer := BatchAnswer(before, luck, w);
    if !luck.looks {
      OneStep(s, LookingAhead(n), answer, 4, s, Failing);
      BatchFails(s, before, luck, w, 3);
    } else if OfBatch(s.rows, n + 1) != [] {
      OneStep(s, LookingAhead(n), answer, 4, s, DispatchNext(n));
      NextDispatched(s, n, before, luck, w, 3);
    } else {
      OneStep(s, LookingAhead(n), answer, 4, s, Counting);
      Counts(s, before, luck, w, 3);
    }
  }

  lemma RoundedOff(s: State, n: int, before: seq<Recipient>, luck: BlastWorker.Luck, w: BlastWorker.Outside)
    ensures Solo(s, Progressing(n), BatchAnswer(before, luck, w), 5) == (Rounded(s, n, luck), Over)
  {
    hide Solo, OfBatch;
    var t := if luck.progresses then s.(current := n) else s;
    OneStep(s, Progressing(n), BatchAnswer(before, luck, w), 5, t, LookingAhead(n));
    LooksAhead(t, n, before, luck, w);
  }

  /** What the handler of a batch event alone leaves, its batch mailed up to `upto`. */
  ghost predicate BatchHandled(s: State, t: State, n: int, upto: nat, luck: BlastWorker.Luck, w: BlastWorker.Outside) {
    var ids := OfBatch(s.rows, n);
    if !s.status.Sending? then t == s
    else if !luck.template || !luck.fetches then t == Failed(s, luck)
    else if ids == [] then t == Checked(s, luck)
    else
      && upto <= |ids| && BlastWorker.BatchMarked(s.rows, t.rows, ids, n, upto, luck, w)
      && var mailed := s.(rows := t.rows, outbox := s.outbox + Mailed(s.rows, ids, upto, w));
         t == if upto < |ids| then mailed else Rounded(mailed, n, luck)
  }

  lemma BatchReads(s: State, n: int, luck: BlastWorker.Luck, w: BlastWorker.Outside, steps: nat)
    requires steps > 1
    ensures var answer := BatchAnswer(s.rows, luck, w);
      Solo(s, BatchRead(n), answer, steps) ==
        if !s.status.Sending? then (s, Over)
        else Solo(s, if !luck.template || !luck.fetches then Failing
                     else if OfBatch(s.rows, n) == [] then Counting
                     else Checking(n, OfBatch(s.rows, n), 0, 0), answer, steps - 2)
  {
    hide Solo, OfBatch;
    var answer := BatchAnswer(s.rows, luck, w);
    OneStep(s, BatchRead(n), answer, steps, s, if s.status.Sending? then Fetching(n) else Over);
    Ended(s, answer, steps - 1);
    OneStep(s, Fetching(n), answer, steps - 1, s,
            if !luck.template || !luck.fetches then Failing
            else if OfBatch(s.rows, n) == [] then Counting
            else Checking(n, OfBatch(s.rows, n), 0, 0));
  }

  lemma NobodyYet(s: State, ids: seq<nat>, w: BlastWorker.Outside)
    requires forall j :: 0 <= j < |ids| ==> ids[j] < |s.rows|
    ensures Midway(s, s, ids, 0, w) && BlastWorker.SentTo(s.rows, ids, 0, w) == 0
  {}

  /** A non-empty batch in hand. */
  lemma MailsAndRounds(s: State, n: int, luck: BlastWorker.Luck, w: BlastWorker.Outside)
    returns (t: State, upto: nat, steps: nat)
    requires s.status.Sending? && luck.template && luck.fetches && OfBatch(s.rows, n) != []
    ensures BatchHandled(s, t, n, upto, luck, w)
    ensures Solo(s, Checking(n, OfBatch(s.rows, n), 0, 0), BatchAnswer(s.rows, luck, w), steps) == (t, Over)
  {
    hide Solo, OfBatch, BatchAnswer, BlastWorker.MarkedSome, Mailed;
    var ids, answer := OfBatch(s.rows, n), BatchAnswer(s.rows, luck, w);
    assert Midway(s, s, ids, 0, w) && BlastWorker.SentTo(s.rows, ids, 0, w) == 0 by { NobodyYet(s, ids, w); }
    t, upto, steps := LoopSolo(s, s, n, ids, 0, luck, w);
    if upto == |ids| {
      SoloOn(s, Checking(n, ids, 0, 0), answer, steps, 5);
      RoundedOff(t, n, s.rows, luck, w);
      t, steps := Rounded(t, n, luck), steps + 5;
    }
  }

  /** Main result: the handler of a batch event alone. */
  lemma BatchSolo(s: State, n: int, luck: BlastWorker.Luck, w: BlastWorker.Outside)
    returns (t: State, upto: nat, steps: nat)
    ensures BatchHandled(s, t, n, upto, luck, w)
    ensures Solo(s, BatchRead(n), BatchAnswer(s.rows, luck, w), steps) == (t, Over)
  {
    hide Solo, OfBatch, BatchAnswer, Checked, Failed;
    if !s.status.Sending? {
      BatchReads(s, n, luck, w, 2);
      return s, 0, 2;
    }
    if !luck.template || !luck.fetches {
      BatchReads(s, n, luck, w, 3);
      BatchFails(s, s.rows, luck, w, 1);
      return Failed(s, luck), 0, 3;
    }
    if OfBatch(s.rows, n) == [] {
      BatchReads(s, n, luck, w, 4);
      Counts(s, s.rows, luck, w, 2);
      return Checked(s, luck), 0, 4;
    }
    t, upto, steps := MailsAndRounds(s, n, luck, w);
    BatchReads(s, n, luck, w, steps + 2);
    steps := steps + 2;
  }

  // ---------------------------------------------------------------- the worker's code

  /** The events put on the topic are those the machine's handler dispatched. */
  ghost predicate SameEvents(before: seq<Event>, after: seq<Event>, s: State, t: State) {
    && before <= after && t.dispatched == s.dispatched + (set e | e in after[|before|..])
  }

  lemma OneEvent(before: seq<Event>, e: Event, s: State, t: State)
    requires t.dispatched == s.dispatched + {e}
    ensures SameEvents(before, before + [e], s, t)
  {
    assert (before + [e])[|before|..] == [e];
  }

  lemma NoEvent(before: seq<Event>, s: State, t: State)
    requires t.dispatched == s.dispatched
    ensures SameEvents(before, before, s, t) && before + [] == before
  {
    assert before[|before|..] == [];
    assert s.dispatched + {} == s.dispatched;
  }

  /** Main result: the worker's code for a started event and the machine's handler alone leave
      the same status, recipients and events, whichever calls fail. */
  method StartedAlike(worker: BlastWorker.Worker, users: seq<User>, luck: BlastWorker.Luck, ghost s: State)
    returns (ghost t: State)
    modifies worker
    requires s.status == worker.status && s.rows == worker.rows && s.batchSize == worker.batchSize
    requires s.blast == worker.blast && s.current == worker.current
    ensures Solo(s, StartRead, StartedAnswer(users, luck), 6) == (t, Over)
    ensures worker.status == t.status && worker.rows == t.rows && worker.current == t.current
    ensures SameEvents(old(worker.topic), worker.topic, s, t)
  {
    hide Solo, StartedAnswer, InsertUsers, SameEvents;
    ghost var before := worker.topic;
    StartedSolo(s, users, luck);
    t := Solo(s, StartRead, StartedAnswer(users, luck), 6).0;
    var _ := worker.HandleBlastStarted(users, luck);
    NoEvent(before, s, s);
    if worker.topic == before {
      NoEvent(before, s, t);
    } else {
      OneEvent(before, BatchSend(1), s, t);
    }
  }

  /** The recipient at which the loop stops is determined by the emails that go through. */
  lemma StopsOnce(before: seq<Recipient>, a: seq<Recipient>, b: seq<Recipient>, ids: seq<nat>, n: int, i: nat, j: nat,
                  luck: BlastWorker.Luck, w: BlastWorker.Outside)
    requires i <= |ids| && j <= |ids| && forall k :: 0 <= k < |ids| ==> ids[k] < |before|
    requires BlastWorker.BatchMarked(before, a, ids, n, i, luck, w)
    requires BlastWorker.BatchMarked(before, b, ids, n, j, luck, w)
    ensures i == j && a == b
  {
    if luck.template && luck.fetches {
      assert i == j;
    }
  }

  lemma NobodyMarked(before: seq<Recipient>, rows: seq<Recipient>, ids: seq<nat>, n: int, luck: BlastWorker.Luck,
                     w: BlastWorker.Outside)
    requires forall k :: 0 <= k < |ids| ==> ids[k] < |before|
    requires BlastWorker.BatchMarked(before, rows, ids, n, 0, luck, w)
    ensures rows == before
  {}

  lemma EmptyList(before: seq<Event>, e: Event)
    ensures before + [e] != before
  {
    assert |before + [e]| == |before| + 1;
  }

  /** Looking ahead in the worker's code and in the machine. */
  lemma LooksAlike(mailed: State, n: int, luck: BlastWorker.Luck, ok: bool, status: Status, before: seq<Event>,
                   after: seq<Event>)
    requires mailed.status.Sending? && BlastWorker.LookedAhead(mailed.rows, n, luck, ok, status, before, after)
    ensures status == Rounded(mailed, n, luck).status
    ensures SameEvents(before, after, mailed, Rounded(mailed, n, luck))
  {
    hide OfBatch, PendingCount, SameEvents;
    var t := Rounded(mailed, n, luck);
    if after == before {
      assert t.dispatched == mailed.dispatched by { EmptyList(before, BatchSend(n + 1)); EmptyList(before, AllSent); }
      NoEvent(before, mailed, t);
    } else {
      assert before + [] == before;
      OneEvent(before, if OfBatch(mailed.rows, n + 1) != [] then BatchSend(n + 1) else AllSent, mailed, t);
    }
  }

  /** Checking for completion in the worker's code and in the machine. */
  lemma ChecksAlike(s: State, luck: BlastWorker.Luck, ok: bool, before: seq<Event>, after: seq<Event>)
    requires BlastWorker.CompletionChecked(s.rows, luck, ok, before, after)
    ensures SameEvents(before, after, s, Checked(s, luck))
  {
    hide PendingCount, SameEvents;
    var t := Checked(s, luck);
    if after == before {
      assert t.dispatched == s.dispatched by { EmptyList(before, AllSent); }
      NoEvent(before, s, t);
    } else {
      assert before + [] == before;
      OneEvent(before, AllSent, s, t);
    }
  }

  lemma HowFar(before: seq<Recipient>, rows: seq<Recipient>, ids: seq<nat>, n: int, upto: nat, luck: BlastWorker.Luck,
               w: BlastWorker.Outside)
    requires upto <= |ids| && forall k :: 0 <= k < |ids| ==> ids[k] < |before|
    requires BlastWorker.BatchMarked(before, rows, ids, n, upto, luck, w) && (!luck.template || !luck.fetches)
    ensures upto == 0
  {}

  lemma CheckedKeeps(s: State, luck: BlastWorker.Luck)
    ensures var t := Checked(s, luck); t.status == s.status && t.rows == s.rows && t.current == s.current
  {}

  lemma RoundedKeeps(s: State, n: int, luck: BlastWorker.Luck)
    ensures var t := Rounded(s, n, luck); t.rows == s.rows && t.current == if luck.progresses then n else s.current
  {
    hide OfBatch;
  }

  lemma SameDispatched(before: seq<Event>, after: seq<Event>, mailed: State, s: State, t: State)
    requires mailed.dispatched == s.dispatched && SameEvents(before, after, mailed, t)
    ensures SameEvents(before, after, s, t)
  {}

  /** Main result: the same for a batch event, whichever calls, emails and updates fail. */
  method BatchAlike(worker: BlastWorker.Worker, n: int, luck: BlastWorker.Luck, w: BlastWorker.Outside, ghost s: State)
    returns (ghost t: State, ghost steps: nat)
    modifies worker
    requires s.status == worker.status && s.rows == worker.rows && s.current == worker.current
    ensures Solo(s, BatchRead(n), BatchAnswer(s.rows, luck, w), steps) == (t, Over)
    ensures worker.status == t.status && worker.rows == t.rows && worker.current == t.current
    ensures SameEvents(old(worker.topic), worker.topic, s, t)
  {
    hide Solo, BatchAnswer, OfBatch, BlastWorker.BatchMarked, Mailed, PendingCount, SameEvents;
    hide BlastWorker.Following, BlastWorker.LookedAhead, BlastWorker.CompletionChecked, Rounded, Checked;
    ghost var before, ids, upto := worker.topic, OfBatch(s.rows, n), 0;
    t, upto, steps := BatchSolo(s, n, luck, w);
    ghost var last;
    var ok;
    ok, last := worker.HandleBlastBatch(n, luck, w);
    if !s.status.Sending? {
      NoEvent(before, s, t);
    } else if !luck.template || !luck.fetches {
      HowFar(s.rows, worker.rows, ids, n, last, luck, w);
      NobodyMarked(s.rows, worker.rows, ids, n, luck, w);
      NoEvent(before, s, t);
    } else if ids == [] {
      NobodyMarked(s.rows, worker.rows, ids, n, luck, w);
      ChecksAlike(s, luck, ok, before, worker.topic);
      CheckedKeeps(s, luck);
    } else {
      StopsOnce(s.rows, worker.rows, t.rows, ids, n, last, upto, luck, w);
      ghost var mailed := s.(rows := t.rows, outbox := s.outbox + Mailed(s.rows, ids, upto, w));
      if upto < |ids| {
        NoEvent(before, s, t);
      } else {
        LooksAlike(mailed, n, luck, ok, worker.status, before, worker.topic);
        RoundedKeeps(mailed, n, luck);
        SameDispatched(before, worker.topic, mailed, s, t);
      }
    }
  }

  // ---------------------------------------------------------------- completion, pause and resume

  /** Which statements of a call fail: its read, its write, and the dispatch of a resume. */
  function CallAnswer(answers: bool, writes: bool, dispatches: bool): Answer {
    (pc: Pc) =>
      match pc
      case CompletedWrite => Outcome(!writes, [])
      case PauseWrite => Outcome(!writes, [])
      case ResumeWrite(_) => Outcome(!writes, [])
      case ResumeDispatch(_) => Outcome(!dispatches, [])
      case _ => Outcome(!answers, [])
  }

  lemma CompletionSolo(s: State, answers: bool, writes: bool, dispatches: bool)
    ensures Solo(s, CompletedRead, CallAnswer(answers, writes, dispatches), 3)
         == (if answers && s.status.Sending? && writes then s.(status := Completed) else s, Over)
  {
    hide Solo;
    var answer := CallAnswer(answers, writes, dispatches);
    if answers && s.status.Sending? {
      var t := if writes then s.(status := Completed) else s;
      OneStep(s, CompletedRead, answer, 3, s, CompletedWrite);
      OneStep(s, CompletedWrite, answer, 2, t, Over);
      Ended(t, answer, 1);
    } else {
      OneStep(s, CompletedRead, answer, 3, s, Over);
      Ended(s, answer, 2);
    }
  }

  lemma PauseSolo(s: State, answers: bool, writes: bool, dispatches: bool)
    ensures Solo(s, PauseRead, CallAnswer(answers, writes, dispatches), 3)
         == (if answers && (s.status.Sending? || s.status.Processing?) && writes then s.(status := Paused) else s, Over)
  {
    hide Solo;
    var answer := CallAnswer(answers, writes, dispatches);
    if answers && (s.status.Sending? || s.status.Processing?) {
      var t := if writes then s.(status := Paused) else s;
      OneStep(s, PauseRead, answer, 3, s, PauseWrite);
      OneStep(s, PauseWrite, answer, 2, t, Over);
      Ended(t, answer, 1);
    } else {
      OneStep(s, PauseRead, answer, 3, s, Over);
      Ended(s, answer, 2);
    }
  }

  lemma ResumeDispatches(s: State, b: int, answers: bool, writes: bool, dispatches: bool)
    ensures Solo(s, ResumeDispatch(b), CallAnswer(answers, writes, dispatches), 1)
         == (if dispatches then s.(dispatched := s.dispatched + {BatchSend(b + 1)}) else s, Over)
  {
    hide Solo;
    var answer := CallAnswer(answers, writes, dispatches);
    var t := if dispatches then s.(dispatched := s.dispatched + {BatchSend(b + 1)}) else s;
    OneStep(s, ResumeDispatch(b), answer, 1, t, Over);
    NoSteps(t, Over, answer);
  }

  lemma ResumeWrites(s: State, b: int, answers: bool, writes: bool, dispatches: bool)
    ensures var answer := CallAnswer(answers, writes, dispatches);
      Solo(s, ResumeWrite(b), answer, 2) ==
        if writes then Solo(s.(status := Status.Sending), ResumeDispatch(b), answer, 1) else (s, Over)
  {
    hide Solo;
    var answer := CallAnswer(answers, writes, dispatches);
    if writes {
      OneStep(s, ResumeWrite(b), answer, 2, s.(status := Status.Sending), ResumeDispatch(b));
    } else {
      OneStep(s, ResumeWrite(b), answer, 2, s, Over);
      Ended(s, answer, 1);
    }
  }

  lemma ResumeSolo(s: State, answers: bool, writes: bool, dispatches: bool)
    ensures Solo(s, ResumeRead, CallAnswer(answers, writes, dispatches), 3) ==
      (if !answers || !s.status.Paused? || !writes then s
       else if !dispatches then s.(status := Status.Sending)
       else s.(status := Status.Sending, dispatched := s.dispatched + {BatchSend(s.current + 1)}), Over)
  {
    hide Solo;
    var answer := CallAnswer(answers, writes, dispatches);
    if answers && s.status.Paused? {
      OneStep(s, ResumeRead, answer, 3, s, ResumeWrite(s.current));
      ResumeWrites(s, s.current, answers, writes, dispatches);
      ResumeDispatches(s.(status := Status.Sending), s.current, answers, writes, dispatches);
    } else {
      OneStep(s, ResumeRead, answer, 3, s, Over);
      Ended(s, answer, 2);
    }
  }

  /** The handler of the completion event, a pause and a resume alone: each acts only on a blast
      in its own statuses, and does what its statements that succeed do. */
  lemma OthersSolo(s: State, answers: bool, writes: bool, dispatches: bool)
    ensures var answer := CallAnswer(answers, writes, dispatches);
      && Solo(s, CompletedRead, answer, 3)
         == (if answers && s.status.Sending? && writes then s.(status := Completed) else s, Over)
      && Solo(s, PauseRead, answer, 3)
         == (if answers && (s.status.Sending? || s.status.Processing?) && writes then s.(status := Paused) else s, Over)
      && Solo(s, ResumeRead, answer, 3) ==
         (if !answers || !s.status.Paused? || !writes then s
          else if !dispatches then s.(status := Status.Sending)
          else s.(status := Status.Sending, dispatched := s.dispatched + {BatchSend(s.current + 1)}), Over)
  {
    hide Solo;
    CompletionSolo(s, answers, writes, dispatches);
    PauseSolo(s, answers, writes, dispatches);
    ResumeSolo(s, answers, writes, dispatches);
  }

  /** A handler or call whose first read is refused ends and changes nothing. */
  lemma RefusedRead(s: State, pc: Pc, answer: Answer, steps: nat)
    requires pc.StartRead? || pc.BatchRead? || pc.CompletedRead? || pc.PauseRead? || pc.ResumeRead?
    requires steps > 0 && answer(pc).fault
    ensures Solo(s, pc, answer, steps) == (s, Over)
  {
    hide Solo;
    OneStep(s, pc, answer, steps, s, Over);
    Ended(s, answer, steps - 1);
  }
}

/**
 Delivery of one blast by the event worker: the started event numbers the recipients into
 batches and dispatches the first batch event, each batch event mails its batch and
 dispatches the next, and the last one checks whether the blast is complete. Several workers
 handle events at once, an event may be handled more than once, and API operations change
 the status between any two statements.
 */
module BlastDelivery {
  import opened BlastStatus
  import opened RecipientTable
  import opened Sql
  import Tally

  datatype Event = Started | BatchSend(n: int) | AllSent

  /** Where a call or a handler stands. */
  datatype Pc =
    | StartRead | Creating(size: int) | Totalling | StartSending | DispatchFirst | CompleteEmpty
    | BatchRead(n: int) | Fetching(n: int) | Checking(n: int, ids: seq<nat>, i: nat, sent: nat)
    | Mailing(n: int, ids: seq<nat>, i: nat, sent: nat)
    | Marking(n: int, ids: seq<nat>, i: nat, sent: nat, ok: bool)
    | Progressing(n: int) | LookingAhead(n: int) | DispatchNext(n: int) | Counting | Completing | Failing
    | CompletedRead | CompletedWrite
    | PauseRead | PauseWrite
    | ResumeRead | ResumeWrite(b: int) | ResumeDispatch(b: int)
    | Over

  /** What the surroundings decide at a step: the statement, the dispatch or the email fails,
      and the deduplicated users of the segments at this moment. */
  datatype Outcome = Outcome(fault: bool, users: seq<User>)

  /** The blast row, its recipients, every email that went out (as the position of its
      recipient), the events dispatched so far and everything in flight. */
  datatype State = State(status: Status, batchSize: int, blast: int, current: int, rows: seq<Recipient>,
                         outbox: seq<nat>, dispatched: set<Event>, tasks: seq<Pc>)

  /** A batch size that is not positive counts as 100. */
  function SizeOf(batchSize: int): (r: int)
    ensures r > 0
  {
    if batchSize <= 0 then 100 else batchSize
  }

  function PendingCount(rows: seq<Recipient>): (c: nat)
    ensures c == 0 <==> forall k :: 0 <= k < |rows| ==> !rows[k].status.Pending?
  {
    if rows == [] then 0
    else PendingCount(rows[..|rows| - 1]) + (if rows[|rows| - 1].status.Pending? then 1 else 0)
  }

  lemma {:induction false} PendingIsNumber(rows: seq<Recipient>)
    ensures PendingCount(rows) == Tally.Number(rows, (r: Recipient) => r.status.Pending?)
  {
    if rows != [] {
      PendingIsNumber(rows[..|rows| - 1]);
      Tally.NumberSnoc(rows[..|rows| - 1], rows[|rows| - 1], (r: Recipient) => r.status.Pending?);
      assert rows == rows[..|rows| - 1] + [rows[|rows| - 1]];
    }
  }

  // ---------------------------------------------------------------- steps

  /** Handling an event starts at its first step. */
  function Entry(e: Event): Pc {
    match e
    case Started => StartRead
    case BatchSend(n) => BatchRead(n)
    case AllSent => CompletedRead
  }

  /** Where one step leads. */
  function Next(s: State, pc: Pc, o: Outcome): Pc {
    match pc
    case StartRead => if o.fault || !s.status.Processing? then Over else Creating(SizeOf(s.batchSize))
    case Creating(_) => if o.fault then Failing else if o.users == [] then CompleteEmpty else Totalling
    case CompleteEmpty => Over
    case Totalling => if o.fault then Failing else StartSending
    case StartSending => if o.fault then Failing else DispatchFirst
    case DispatchFirst => if o.fault then Failing else Over
    case BatchRead(n) => if o.fault || !s.status.Sending? then Over else Fetching(n)
    case Fetching(n) =>
      if o.fault then Failing
      else if OfBatch(s.rows, n) == [] then Counting
      else Checking(n, OfBatch(s.rows, n), 0, 0)
    case Checking(n, ids, i, sent) =>
      if i >= |ids| then Progressing(n)
      else if n > 1 && sent % 10 == 0 && (o.fault || !s.status.Sending?) then Over
      else Mailing(n, ids, i, sent)
    case Mailing(n, ids, i, sent) => Marking(n, ids, i, sent, !o.fault)
    case Marking(n, ids, i, sent, ok) => Checking(n, ids, i + 1, if ok then sent + 1 else sent)
    case Progressing(n) => LookingAhead(n)
    case LookingAhead(n) =>
      if o.fault then Failing
      else if OfBatch(s.rows, n + 1) != [] then DispatchNext(n)
      else Counting
    case DispatchNext(_) => if o.fault then Failing else Over
    case Counting => if o.fault || PendingCount(s.rows) != 0 then Over else Completing
    case Completing => Over
    case Failing => Over
    case CompletedRead => if o.fault || !s.status.Sending? then Over else CompletedWrite
    case CompletedWrite => Over
    case PauseRead => if o.fault || !(s.status.Sending? || s.status.Processing?) then Over else PauseWrite
    case PauseWrite => Over
    case ResumeRead => if o.fault || !s.status.Paused? then Over else ResumeWrite(s.current)
    case ResumeWrite(b) => if o.fault then Over else ResumeDispatch(b)
    case ResumeDispatch(_) => Over
    case Over => Over
  }

  /** What one step does to the rows, the outbox and the topic. A failed status update of a
      recipient is ignored, whether or not the email went out. */
  function Effect(s: State, pc: Pc, o: Outcome): State {
    match pc
    case Creating(size) =>
      if o.fault || size <= 0 then s else s.(rows := InsertUsers(s.rows, s.blast, o.users, size, |o.users|))
    case CompleteEmpty => if o.fault then s else s.(status := Completed)
    case StartSending => if o.fault then s else s.(status := Status.Sending)
    case DispatchFirst => if o.fault then s else s.(dispatched := s.dispatched + {BatchSend(1)})
    case Mailing(_, ids, i, _) => if o.fault || i >= |ids| then s else s.(outbox := s.outbox + [ids[i]])
    case Marking(_, ids, i, _, ok) =>
      if o.fault || i >= |ids| || ids[i] >= |s.rows| then s
      else s.(rows := s.rows[ids[i] := s.rows[ids[i]].(status := if ok then Sent else RecipientStatus.Failed)])
    case Progressing(n) => if o.fault then s else s.(current := n)
    case DispatchNext(n) => if o.fault then s else s.(dispatched := s.dispatched + {BatchSend(n + 1)})
    case Completing => if o.fault then s else s.(dispatched := s.dispatched + {AllSent})
    case Failing => if o.fault then s else s.(status := Status.Failed)
    case CompletedWrite => if o.fault then s else s.(status := Completed)
    case PauseWrite => if o.fault then s else s.(status := Paused)
    case ResumeWrite(_) => if o.fault then s else s.(status := Status.Sending)
    case ResumeDispatch(b) => if o.fault then s else s.(dispatched := s.dispatched + {BatchSend(b + 1)})
    case _ => s
  }

  datatype Move =
    | Dispatch                             // a send or the scheduler dispatches blast.started
    | Handle(e: Event)                     // a worker takes up a dispatched event, perhaps again
    | Pause                                // PauseBlast is called
    | Resume                               // ResumeBlast is called
    | Write(to: Status)                    // another operation writes its status
    | Resize(size: int)                    // UpdateEmailBlast changes the batch size of a draft
    | Act(k: nat, o: Outcome)              // the call or handler at k makes a step

  /** The statuses written by neither the handlers nor pause and resume. */
  predicate Foreign(st: Status) { !st.Completed? && !st.Sending? && !st.Paused? }

  function Step(s: State, m: Move): State {
    match m
    case Dispatch => s.(dispatched := s.dispatched + {Started})
    case Handle(e) => if e in s.dispatched then s.(tasks := s.tasks + [Entry(e)]) else s
    case Pause => s.(tasks := s.tasks + [PauseRead])
    case Resume => s.(tasks := s.tasks + [ResumeRead])
    case Write(st) => if Foreign(st) then s.(status := st) else s
    case Resize(size) => if s.status.Draft? then s.(batchSize := size) else s
    case Act(k, o) =>
      if k >= |s.tasks| then s
      else Effect(s, s.tasks[k], o).(tasks := s.tasks[k := Next(s, s.tasks[k], o)])
  }

  function Run(s: State, ms: seq<Move>): State {
    if ms == [] then s else Step(Run(s, ms[..|ms| - 1]), ms[|ms| - 1])
  }

  function Init(blast: int, batchSize: int, status: Status): State {
    State(status, batchSize, blast, 0, [], [], {}, [])
  }

  // ---------------------------------------------------------------- what every run keeps

  /** The first recipient is in batch 0, everybody in batch 0 is pending, and every email
      went to a recipient of a later batch. */
  predicate RowsSafe(rows: seq<Recipient>, outbox: seq<nat>) {
    && (rows != [] ==> rows[0].batch == 0)
    && (forall k :: 0 <= k < |rows| && rows[k].batch == 0 ==> rows[k].status.Pending?)
    && (forall j :: 0 <= j < |outbox| ==> outbox[j] < |rows| && rows[outbox[j]].batch >= 1)
  }

  predicate EventsSafe(events: set<Event>) {
    forall e :: e in events && e.BatchSend? ==> e.n >= 1
  }

  predicate InBatch(rows: seq<Recipient>, n: int, ids: seq<nat>) {
    && (forall j :: 0 <= j < |ids| ==> ids[j] < |rows| && rows[ids[j]].batch == n)
    && (forall i, j :: 0 <= i < j < |ids| ==> ids[i] < ids[j])
  }

  /** A handler works on a batch from 1 on, and on recipients of that batch. */
  predicate TaskSafe(rows: seq<Recipient>, pc: Pc) {
    match pc
    case Creating(size) => size > 0
    case BatchRead(n) => n >= 1
    case Fetching(n) => n >= 1
    case Checking(n, ids, i, _) => n >= 1 && InBatch(rows, n, ids)
    case Mailing(n, ids, i, _) => n >= 1 && i < |ids| && InBatch(rows, n, ids)
    case Marking(n, ids, i, _, _) => n >= 1 && i < |ids| && InBatch(rows, n, ids)
    case Progressing(n) => n >= 1
    case LookingAhead(n) => n >= 1
    case DispatchNext(n) => n >= 1
    case ResumeWrite(b) => b >= 0
    case ResumeDispatch(b) => b >= 0
    case _ => true
  }

  ghost predicate Inv(s: State) {
    && RowsSafe(s.rows, s.outbox) && EventsSafe(s.dispatched) && s.current >= 0
    && forall k :: 0 <= k < |s.tasks| ==> TaskSafe(s.rows, s.tasks[k])
  }

  /** Recipients are added and marked, but never move to another batch. */
  predicate Grows(rows: seq<Recipient>, later: seq<Recipient>) {
    |rows| <= |later| && forall k :: 0 <= k < |rows| ==> later[k].batch == rows[k].batch
  }

  lemma {:induction false} InsertKeeps(rows: seq<Recipient>, outbox: seq<nat>, blast: int, users: seq<User>, size: int,
                                       n: nat)
    requires n <= |users| && size > 0 && RowsSafe(rows, outbox)
    ensures RowsSafe(InsertUsers(rows, blast, users, size, n), outbox)
    ensures Grows(rows, InsertUsers(rows, blast, users, size, n))
    ensures n > 0 ==> InsertUsers(rows, blast, users, size, n) != []
  {
    if n > 0 {
      InsertKeeps(rows, outbox, blast, users, size, n - 1);
      if n == 1 {
        assert (n - 1) / size == 0;
      }
    }
  }

  lemma EffectKeeps(s: State, pc: Pc, o: Outcome)
    requires RowsSafe(s.rows, s.outbox) && EventsSafe(s.dispatched) && s.current >= 0 && TaskSafe(s.rows, pc)
    ensures var t := Effect(s, pc, o);
      RowsSafe(t.rows, t.outbox) && EventsSafe(t.dispatched) && t.current >= 0 && Grows(s.rows, t.rows)
  {
    match pc
    case Creating(size) => InsertKeeps(s.rows, s.outbox, s.blast, o.users, size, |o.users|);
    case _ =>
  }

  lemma NextSafe(s: State, pc: Pc, o: Outcome)
    requires s.current >= 0 && TaskSafe(s.rows, pc)
    ensures TaskSafe(s.rows, Next(s, pc, o))
  {
    match pc
    case Fetching(n) =>
    case _ =>
  }

  lemma TaskSafeLater(rows: seq<Recipient>, later: seq<Recipient>, pc: Pc)
    requires TaskSafe(rows, pc) && Grows(rows, later)
    ensures TaskSafe(later, pc)
  {
    match pc
    case Checking(_, _, _, _) =>
    case Mailing(_, _, _, _) =>
    case _ =>
  }

  lemma StepKeeps(s: State, m: Move)
    requires Inv(s)
    ensures Inv(Step(s, m)) && Grows(s.rows, Step(s, m).rows)
  {
    hide Effect, Next, RowsSafe;
    match m
    case Act(k, o) =>
      if k < |s.tasks| {
        var t := Step(s, m);
        assert TaskSafe(s.rows, s.tasks[k]);
        EffectKeeps(s, s.tasks[k], o);
        NextSafe(s, s.tasks[k], o);
        forall j | 0 <= j < |t.tasks| ensures TaskSafe(t.rows, t.tasks[j]) {
          assert TaskSafe(s.rows, s.tasks[j]);
          TaskSafeLater(s.rows, t.rows, t.tasks[j]);
        }
      }
    case _ =>
  }

  /** The batch size changes only while the blast is a draft, to the size asked for. */
  lemma ResizedInDraft(s: State, m: Move, size: int)
    ensures Step(s, m).batchSize != s.batchSize ==> s.status.Draft? && m == Resize(Step(s, m).batchSize)
    ensures s.status.Draft? ==> Step(s, Resize(size)).batchSize == size
  {
    hide InsertUsers;
  }

  /** Main result: in every run, whatever is paused, resumed, retried or interleaved, every
      batch event is for a batch from 1 on, no email goes to a recipient of batch 0, and all
      of them stay pending. */
  lemma {:induction false} BatchZeroNeverMailed(s: State, ms: seq<Move>)
    requires Inv(s)
    ensures Inv(Run(s, ms)) && Grows(s.rows, Run(s, ms).rows)
    ensures var t := Run(s, ms);
      && (forall k :: 0 <= k < |t.rows| && t.rows[k].batch == 0 ==> t.rows[k].status.Pending? && k !in t.outbox)
      && (forall n :: BatchSend(n) in t.dispatched ==> n >= 1)
  {
    if ms != [] {
      BatchZeroNeverMailed(s, ms[..|ms| - 1]);
      StepKeeps(Run(s, ms[..|ms| - 1]), ms[|ms| - 1]);
    }
  }

  lemma InitInv(blast: int, batchSize: int, status: Status)
    ensures Inv(Init(blast, batchSize, status))
  {}
}

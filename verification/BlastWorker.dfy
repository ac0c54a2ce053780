/**
 The event worker's handlers of blast.started and blast.batch as code over one blast's rows,
 with every failing statement, and what is left when the chain of batch events ends.
 */
module BlastWorker {
  import opened Batches
  import opened BlastStatus
  import opened RecipientTable
  import opened Sql
  import Tally
  import BlastDelivery

  /** Which of the calls a handler makes succeed. */
  datatype Luck = Luck(creates: bool, totals: bool, writes: bool, dispatches: bool, fails: bool,
                       template: bool, fetches: bool, progresses: bool, looks: bool, counts: bool)

  const GOOD_LUCK := Luck(true, true, true, true, true, true, true, true, true, true)

  /** What the outside does to a batch: whose email goes through, whose status update does,
      and before which recipients the blast is still seen sending. */
  datatype Outside = Outside(arrives: int -> bool, marks: int -> bool, seen: nat -> bool)

  // ---------------------------------------------------------------- one batch

  function Marked(r: Recipient, w: Outside): Recipient {
    if !w.marks(r.user) then r
    else r.(status := if w.arrives(r.user) then Sent else RecipientStatus.Failed)
  }

  /** The emails sent to the first i recipients of a batch. */
  function SentTo(rows: seq<Recipient>, ids: seq<nat>, i: nat, w: Outside): nat
    requires i <= |ids| && forall j :: 0 <= j < |ids| ==> ids[j] < |rows|
  {
    if i == 0 then 0 else SentTo(rows, ids, i - 1, w) + (if w.arrives(rows[ids[i - 1]].user) then 1 else 0)
  }

  /** The check made from batch 2 on at every tenth email finds the blast no longer sending. */
  predicate Stops(rows: seq<Recipient>, ids: seq<nat>, n: int, i: nat, w: Outside)
    requires i <= |ids| && forall j :: 0 <= j < |ids| ==> ids[j] < |rows|
  {
    n > 1 && SentTo(rows, ids, i, w) % 10 == 0 && !w.seen(i)
  }

  ghost predicate MarkedSome(rows: seq<Recipient>, before: seq<Recipient>, ids: seq<nat>, w: Outside) {
    && |rows| == |before|
    && forall k: nat :: k < |rows| ==> rows[k] == if k in ids then Marked(before[k], w) else before[k]
  }

  /** The batch was marked up to the recipient at which a check stopped it, if any did; not at
      all when the template or the batch could not be read. */
  ghost predicate BatchMarked(before: seq<Recipient>, rows: seq<Recipient>, ids: seq<nat>, n: int, upto: nat,
                              luck: Luck, w: Outside)
    requires upto <= |ids| && forall j :: 0 <= j < |ids| ==> ids[j] < |before|
  {
    && MarkedSome(rows, before, ids[..upto], w)
    && (!luck.template || !luck.fetches ==> upto == 0)
    && (luck.template && luck.fetches ==>
          && (forall i :: 0 <= i < upto ==> !Stops(before, ids, n, i, w))
          && (upto < |ids| ==> Stops(before, ids, n, upto, w)))
  }

  /** What a batch handler that was not stopped dispatches, given the recipients it leaves. */
  function Following(rows: seq<Recipient>, n: int): seq<BlastDelivery.Event> {
    if OfBatch(rows, n) != [] && OfBatch(rows, n + 1) != [] then [BlastDelivery.BatchSend(n + 1)]
    else if BlastDelivery.PendingCount(rows) == 0 then [BlastDelivery.AllSent]
    else []
  }

  /** Completion is dispatched when nobody is pending; the check fails when the count or the
      dispatch does. */
  ghost predicate CompletionChecked(rows: seq<Recipient>, luck: Luck, ok: bool, before: seq<BlastDelivery.Event>,
                                    after: seq<BlastDelivery.Event>)
  {
    var nobody := BlastDelivery.PendingCount(rows) == 0;
    && ok == (luck.counts && (nobody ==> luck.dispatches))
    && after == before + (if ok && nobody then [BlastDelivery.AllSent] else [])
  }

  /** The next batch event is dispatched when there is a next batch, and completion is checked
      when there is none; a failing call fails the blast, which may fail too. */
  ghost predicate LookedAhead(rows: seq<Recipient>, n: int, luck: Luck, ok: bool, status: Status,
                              before: seq<BlastDelivery.Event>, after: seq<BlastDelivery.Event>)
  {
    var more := OfBatch(rows, n + 1) != [];
    && (luck.looks && !more ==> CompletionChecked(rows, luck, ok, before, after) && status.Sending?)
    && (!luck.looks || more ==>
          && ok == (luck.looks && luck.dispatches)
          && after == before + (if ok then [BlastDelivery.BatchSend(n + 1)] else [])
          && status == if !ok && luck.fails then Status.Failed else Status.Sending)
  }

  /** Marking moves nobody to another batch. */
  lemma {:induction false} SameBatches(rows: seq<Recipient>, before: seq<Recipient>, n: int)
    requires |rows| == |before| && forall k :: 0 <= k < |rows| ==> rows[k].batch == before[k].batch
    ensures OfBatch(rows, n) == OfBatch(before, n)
  {
    if rows != [] {
      SameBatches(rows[..|rows| - 1], before[..|rows| - 1], n);
    }
  }

  lemma MarkedKeepsBatches(rows: seq<Recipient>, before: seq<Recipient>, ids: seq<nat>, w: Outside)
    requires MarkedSome(rows, before, ids, w)
    ensures |rows| == |before| && forall k :: 0 <= k < |rows| ==> rows[k].batch == before[k].batch
  {}

  /** Marking the next recipient extends the part that is marked. */
  lemma OneMoreMarked(rows: seq<Recipient>, before: seq<Recipient>, ids: seq<nat>, i: nat, w: Outside)
    requires i < |ids| && forall j :: 0 <= j < |ids| ==> ids[j] < |before|
    requires forall j, k :: 0 <= j < k < |ids| ==> ids[j] < ids[k]
    requires MarkedSome(rows, before, ids[..i], w)
    ensures |rows| == |before| && rows[ids[i]] == before[ids[i]]
    ensures var r := rows[ids[i]];
      var marked := if w.arrives(r.user) then Sent else RecipientStatus.Failed;
      && (w.marks(r.user) ==> MarkedSome(rows[ids[i] := r.(status := marked)], before, ids[..i + 1], w))
      && (!w.marks(r.user) ==> MarkedSome(rows, before, ids[..i + 1], w))
  {
    assert ids[..i + 1] == ids[..i] + [ids[i]];
    assert ids[i] !in ids[..i];
  }

  lemma NothingMarked(rows: seq<Recipient>, ids: seq<nat>)
    ensures forall w :: MarkedSome(rows, rows, ids[..0], w)
  {}

  lemma NoBatch(rows: seq<Recipient>, n: int)
    requires OfBatch(rows, n) == []
    ensures Following(rows, n) == if BlastDelivery.PendingCount(rows) == 0 then [BlastDelivery.AllSent] else []
  {}

  /** The emails sent are the recipients of the batch so far whose email went through. */
  lemma {:induction false} SentIsNumber(rows: seq<Recipient>, ids: seq<nat>, i: nat, w: Outside)
    requires i <= |ids| && forall j :: 0 <= j < |ids| ==> ids[j] < |rows|
    ensures SentTo(rows, ids, i, w) == Tally.Number(ids[..i], (k: nat) => k < |rows| && w.arrives(rows[k].user))
  {
    if i > 0 {
      SentIsNumber(rows, ids, i - 1, w);
      Tally.NumberSnoc(ids[..i - 1], ids[i - 1], (k: nat) => k < |rows| && w.arrives(rows[k].user));
      assert ids[..i] == ids[..i - 1] + [ids[i - 1]];
    }
  }

  lemma {:induction false} SentBetween(rows: seq<Recipient>, ids: seq<nat>, n: int, i: nat, upto: nat, w: Outside)
    requires i <= upto <= |ids| && forall j :: 0 <= j < |ids| ==> ids[j] < |rows|
    requires n > 1 && forall j :: i <= j < upto ==> !Stops(rows, ids, n, j, w) && !w.seen(j)
    ensures SentTo(rows, ids, i, w) / 10 == SentTo(rows, ids, upto, w) / 10
            || (SentTo(rows, ids, upto, w) == SentTo(rows, ids, i, w) / 10 * 10 + 10)
  {
    if i < upto {
      SentBetween(rows, ids, n, i, upto - 1, w);
      assert !Stops(rows, ids, n, upto - 1, w);
    }
  }

  lemma {:induction false} SentGrows(rows: seq<Recipient>, ids: seq<nat>, i: nat, upto: nat, w: Outside)
    requires i <= upto <= |ids| && forall j :: 0 <= j < |ids| ==> ids[j] < |rows|
    ensures SentTo(rows, ids, i, w) <= SentTo(rows, ids, upto, w)
  {
    if i < upto {
      SentGrows(rows, ids, i, upto - 1, w);
    }
  }

  /** Main result: once a blast is no longer seen sending, a batch from the second on sends fewer
      than ten more emails, and it ends early only after a multiple of ten; the first batch is
      always mailed to its end. */
  lemma StopsWithinTen(before: seq<Recipient>, rows: seq<Recipient>, ids: seq<nat>, n: int, upto: nat, i: nat,
                       luck: Luck, w: Outside)
    requires i <= upto <= |ids| && forall j :: 0 <= j < |ids| ==> ids[j] < |before|
    requires luck.template && luck.fetches && BatchMarked(before, rows, ids, n, upto, luck, w)
    requires forall j :: i <= j ==> !w.seen(j)
    ensures n > 1 ==> SentTo(before, ids, i, w) <= SentTo(before, ids, upto, w) < SentTo(before, ids, i, w) + 10
    ensures upto < |ids| ==> n > 1 && SentTo(before, ids, upto, w) % 10 == 0
  {
    hide MarkedSome;
    SentGrows(before, ids, i, upto, w);
    if n > 1 {
      SentBetween(before, ids, n, i, upto, w);
      if i < upto {
        assert !Stops(before, ids, n, i, w);
      }
    }
  }

  class Worker {
    const blast: int
    const batchSize: int
    var status: Status
    var rows: seq<Recipient>
    var current: int
    var topic: seq<BlastDelivery.Event>      // events dispatched and not yet handled

    constructor (blast: int, batchSize: int)
      ensures this.blast == blast && this.batchSize == batchSize
      ensures status == Processing && rows == [] && current == 0 && topic == []
    {
      this.blast, this.batchSize := blast, batchSize;
      status, rows, current, topic := Processing, [], 0, [];
    }

    /** failBlast: its own write may fail, which is only logged. */
    method FailBlast(luck: Luck)
      modifies this`status
      ensures status == if luck.fails then Status.Failed else old(status)
    {
      if luck.fails {
        status := Status.Failed;
      }
    }

    /** A blast that is not processing is left alone. Otherwise its recipients are created in
        one transaction, and it is completed, sending with its first batch dispatched, or,
        when a call fails, failed; `ok` when no error is returned. */
    method HandleBlastStarted(users: seq<User>, luck: Luck) returns (ok: bool)
      modifies this
      ensures current == old(current)
      ensures old(status) != Processing ==> ok && status == old(status) && rows == old(rows) && topic == old(topic)
      ensures old(status) == Processing && !luck.creates ==> !ok && rows == old(rows)
      ensures old(status) == Processing && luck.creates ==>
        rows == InsertUsers(old(rows), blast, users, if batchSize <= 0 then 100 else batchSize, |users|)
      ensures old(status) == Processing && luck.creates && users == [] ==>
        ok == luck.writes && topic == old(topic) && status == if ok then Completed else Processing
      ensures old(status) == Processing && (!luck.creates || users != []) ==>
        && ok == (luck.creates && luck.totals && luck.writes && luck.dispatches)
        && topic == (if ok then old(topic) + [BlastDelivery.BatchSend(1)] else old(topic))
        && (ok ==> status.Sending?)
        && (!ok && luck.fails ==> status.Failed?)
        && (!ok && !luck.fails ==>
              status == if luck.creates && luck.totals && luck.writes then Status.Sending else Processing)
    {
      if status != Processing { return true; }
      var size := batchSize;
      if size <= 0 { size := 100; }
      if !luck.creates { FailBlast(luck); return false; }
      for i := 0 to |users|
        invariant rows == InsertUsers(old(rows), blast, users, size, i)
        invariant status == old(status) && topic == old(topic) && current == old(current)
      {
        if !Present(rows, blast, users[i].id) {
          rows := rows + [Recipient(blast, users[i].id, users[i].email, i / size, Pending)];
        }
      }
      if |users| == 0 {
        if !luck.writes { return false; }
        status := Completed;
        return true;
      }
      if !luck.totals { FailBlast(luck); return false; }
      if !luck.writes { FailBlast(luck); return false; }
      status := Status.Sending;
      if !luck.dispatches { FailBlast(luck); return false; }
      topic := topic + [BlastDelivery.BatchSend(1)];
      return true;
    }

    /** The loop over the recipients of a batch, up to the first check that stops it. */
    method MailBatch(ids: seq<nat>, n: int, w: Outside) returns (upto: nat)
      modifies this`rows
      requires forall j :: 0 <= j < |ids| ==> ids[j] < |rows|
      requires forall i, j :: 0 <= i < j < |ids| ==> ids[i] < ids[j]
      ensures upto <= |ids| && MarkedSome(rows, old(rows), ids[..upto], w)
      ensures forall i :: 0 <= i < upto ==> !Stops(old(rows), ids, n, i, w)
      ensures upto < |ids| ==> Stops(old(rows), ids, n, upto, w)
    {
      hide MarkedSome, Marked;
      ghost var before := rows;
      var sentCount := 0;
      NothingMarked(rows, ids);
      for i := 0 to |ids|
        invariant |rows| == |before| && MarkedSome(rows, before, ids[..i], w)
        invariant sentCount == SentTo(before, ids, i, w)
        invariant forall j :: 0 <= j < i ==> !Stops(before, ids, n, j, w)
      {
        if n > 1 && sentCount % 10 == 0 {
          if !w.seen(i) { return i; }
        }
        var r := rows[ids[i]];
        OneMoreMarked(rows, before, ids, i, w);
        if w.marks(r.user) {
          rows := rows[ids[i] := r.(status := if w.arrives(r.user) then Sent else RecipientStatus.Failed)];
        }
        if w.arrives(r.user) { sentCount := sentCount + 1; }
      }
      return |ids|;
    }

    /** Completion is dispatched when nobody is pending. */
    method CheckBlastCompletion(luck: Luck) returns (ok: bool)
      modifies this`topic
      ensures ok == (luck.counts && (BlastDelivery.PendingCount(rows) == 0 ==> luck.dispatches))
      ensures ok && BlastDelivery.PendingCount(rows) == 0 ==> topic == old(topic) + [BlastDelivery.AllSent]
      ensures !(ok && BlastDelivery.PendingCount(rows) == 0) ==> topic == old(topic)
      ensures CompletionChecked(rows, luck, ok, old(topic), topic)
    {
      if !luck.counts { return false; }
      if BlastDelivery.PendingCount(rows) == 0 {
        if !luck.dispatches { return false; }
        topic := topic + [BlastDelivery.AllSent];
      }
      return true;
    }

    /** What follows a batch that was mailed to the end. */
    method LookAhead(n: int, luck: Luck) returns (ok: bool)
      modifies this`topic, this`status
      requires OfBatch(rows, n) != [] && status.Sending?
      ensures LookedAhead(rows, n, luck, ok, status, old(topic), topic)
      ensures ok ==> status == old(status) && topic == old(topic) + Following(rows, n)
      ensures !ok ==> topic == old(topic) && (status == old(status) || status.Failed?)
      ensures luck == GOOD_LUCK ==> ok
    {
      if !luck.looks { FailBlast(luck); return false; }
      if |OfBatch(rows, n + 1)| > 0 {
        if !luck.dispatches { FailBlast(luck); return false; }
        topic := topic + [BlastDelivery.BatchSend(n + 1)];
        return true;
      }
      ok := CheckBlastCompletion(luck);
    }

    /** The rest of the handler, with the recipients of the batch in hand. */
    method MailAndLookAhead(ids: seq<nat>, n: int, luck: Luck, w: Outside) returns (ok: bool, ghost upto: nat)
      requires status.Sending? && luck.template && luck.fetches && ids != [] && ids == OfBatch(rows, n)
      modifies this
      ensures upto <= |ids| && BatchMarked(old(rows), rows, ids, n, upto, luck, w)
      ensures current == if upto == |ids| && luck.progresses then n else old(current)
      ensures upto < |ids| ==> ok && status.Sending? && topic == old(topic)
      ensures upto == |ids| && ok ==> status.Sending? && topic == old(topic) + Following(rows, n)
      ensures upto == |ids| ==> LookedAhead(rows, n, luck, ok, status, old(topic), topic)
      ensures !ok ==> topic == old(topic) && (status.Sending? || status.Failed?)
      ensures luck == GOOD_LUCK ==> ok
    {
      hide OfBatch, Following, Marked, LookedAhead;
      ghost var before := rows;
      var done := MailBatch(ids, n, w);
      if done < |ids| { return true, done; }
      MarkedKeepsBatches(rows, before, ids[..done], w);
      SameBatches(rows, before, n);
      if luck.progresses { current := n; }
      ok := LookAhead(n, luck);
      upto := done;
    }

    /** A blast that is not sending is left alone. Otherwise the recipients of the batch get
        the outcome of their email up to the first check that stops the loop; a batch mailed
        to the end is recorded, and the next batch event or the completion follows. */
    method HandleBlastBatch(n: int, luck: Luck, w: Outside) returns (ok: bool, ghost upto: nat)
      modifies this
      ensures !old(status).Sending? ==>
        ok && status == old(status) && rows == old(rows) && topic == old(topic) && current == old(current)
      ensures old(status).Sending? ==>
        var ids := OfBatch(old(rows), n);
        && upto <= |ids| && BatchMarked(old(rows), rows, ids, n, upto, luck, w)
        && current == (if 0 < |ids| == upto && luck.template && luck.fetches && luck.progresses then n
                       else old(current))
        && (upto < |ids| && ok ==> status.Sending? && topic == old(topic))
        && (upto == |ids| && ok ==> status.Sending? && topic == old(topic) + Following(rows, n))
        && (!ok ==> topic == old(topic) && (status.Sending? || status.Failed?))
      ensures old(status).Sending? ==>
        var ids := OfBatch(old(rows), n);
        && (!luck.template || !luck.fetches ==>
              !ok && topic == old(topic) && status == if luck.fails then Status.Failed else Status.Sending)
        && (luck.template && luck.fetches && ids == [] ==>
              CompletionChecked(rows, luck, ok, old(topic), topic) && status.Sending?)
        && (luck.template && luck.fetches && 0 < |ids| == upto ==>
              LookedAhead(rows, n, luck, ok, status, old(topic), topic))
        && (upto < |ids| && luck.template && luck.fetches ==> ok)
      ensures luck == GOOD_LUCK ==> ok
    {
      hide OfBatch, MarkedSome, Following, BlastDelivery.PendingCount, CompletionChecked, LookedAhead;
      upto := 0;
      if !status.Sending? { return true, 0; }
      NothingMarked(rows, OfBatch(rows, n));
      if !luck.template { FailBlast(luck); return false, 0; }
      if !luck.fetches { FailBlast(luck); return false, 0; }
      var ids := OfBatch(rows, n);
      if |ids| == 0 {
        NoBatch(rows, n);
        ok := CheckBlastCompletion(luck);
        return ok, 0;
      }
      ok, upto := MailAndLookAhead(ids, n, luck, w);
    }
  }

  // ---------------------------------------------------------------- the chain of batches

  /** Batch numbers start at 0 and go up without a gap. */
  ghost predicate Consecutive(rows: seq<Recipient>) {
    && (rows != [] ==> rows[0].batch == 0)
    && forall k :: 0 < k < |rows| ==> rows[k - 1].batch <= rows[k].batch <= rows[k - 1].batch + 1
  }

  lemma FreshBatches(blast: int, users: seq<User>, size: int)
    requires size > 0
    ensures Consecutive(RowsFor(blast, users, size, |users|))
  {
    var rows := RowsFor(blast, users, size, |users|);
    NextBatch(0, size);
    forall k | 0 < k < |rows| ensures rows[k - 1].batch <= rows[k].batch <= rows[k - 1].batch + 1 {
      NextBatch(k - 1, size);
      assert rows[k] == RowFor(blast, users, size, k) && rows[k - 1] == RowFor(blast, users, size, k - 1);
    }
  }

  lemma {:induction false} NoGap(rows: seq<Recipient>, b: int, k: nat)
    requires Consecutive(rows) && k < |rows| && 0 <= b <= rows[k].batch
    ensures exists j :: 0 <= j < |rows| && rows[j].batch == b
  {
    if b < rows[k].batch {
      NoGap(rows, b, k - 1);
    }
  }

  lemma {:induction false} BatchAtMostIndex(rows: seq<Recipient>, k: nat)
    requires Consecutive(rows) && k < |rows|
    ensures 0 <= rows[k].batch <= k
  {
    if k > 0 {
      BatchAtMostIndex(rows, k - 1);
    }
  }

  /** A recipient once the batches from 1 to n have been mailed. */
  function Handled(r: Recipient, n: int, w: Outside): Recipient {
    if 1 <= r.batch <= n then Marked(r, w) else r
  }

  ghost predicate MailedTo(rows: seq<Recipient>, created: seq<Recipient>, n: int, w: Outside) {
    |rows| == |created| && forall k :: 0 <= k < |rows| ==> rows[k] == Handled(created[k], n, w)
  }

  lemma NobodyMailed(blast: int, users: seq<User>, size: int, w: Outside)
    requires size > 0
    ensures var created := RowsFor(blast, users, size, |users|);
      MailedTo(created, created, 0, w) && forall k :: 0 <= k < |created| ==> created[k].status.Pending?
  {}

  ghost predicate AllBelow(rows: seq<Recipient>, n: int) {
    forall k :: 0 <= k < |rows| ==> rows[k].batch < n
  }

  lemma NoneFrom(rows: seq<Recipient>, created: seq<Recipient>, b: int)
    requires b >= 0 && Consecutive(created) && |rows| == |created| && OfBatch(rows, b) == []
    requires forall k :: 0 <= k < |rows| ==> rows[k].batch == created[k].batch
    ensures AllBelow(created, b)
  {
    assert forall j :: 0 <= j < |created| ==> created[j].batch == rows[j].batch != b;
    forall k | 0 <= k < |created| ensures created[k].batch < b {
      if created[k].batch >= b {
        NoGap(created, b, k);
      }
    }
  }

  lemma WholeBatchMarked(before: seq<Recipient>, rows: seq<Recipient>, created: seq<Recipient>, n: int, w: Outside)
    requires n >= 1 && MailedTo(before, created, n - 1, w) && MarkedSome(rows, before, OfBatch(before, n), w)
    ensures MailedTo(rows, created, n, w)
  {
    forall k | 0 <= k < |rows| ensures rows[k] == Handled(created[k], n, w) {
      OfBatchMembers(before, n, k);
      assert before[k] == Handled(created[k], n - 1, w);
    }
  }

  /** After batch n somebody in batch 0 is still pending, and when no further batch event
      follows, no later batch exists. */
  lemma AfterBatch(rows: seq<Recipient>, created: seq<Recipient>, n: int, w: Outside)
    requires n >= 1 && created != [] && Consecutive(created) && MailedTo(rows, created, n, w)
    requires forall k :: 0 <= k < |created| ==> created[k].status.Pending?
    ensures Following(rows, n) == [] || Following(rows, n) == [BlastDelivery.BatchSend(n + 1)]
    ensures Following(rows, n) == [] ==> AllBelow(created, n + 1)
    ensures Following(rows, n) != [] ==> n + 1 < |rows|
  {
    assert rows[0] == Handled(created[0], n, w);
    assert forall k :: 0 <= k < |rows| ==> rows[k].batch == created[k].batch;
    if OfBatch(rows, n) == [] {
      NoneFrom(rows, created, n);
    } else if OfBatch(rows, n + 1) == [] {
      NoneFrom(rows, created, n + 1);
    } else {
      var k :| 0 <= k < |rows| && rows[k].batch == n + 1;
      BatchAtMostIndex(created, k);
    }
  }

  /** Nothing fails and nobody interferes. */
  ghost predicate Undisturbed(w: Outside) {
    (forall u :: w.marks(u)) && (forall i :: w.seen(i))
  }

  lemma NeverStops(before: seq<Recipient>, rows: seq<Recipient>, ids: seq<nat>, n: int, upto: nat, w: Outside)
    requires upto <= |ids| && forall j :: 0 <= j < |ids| ==> ids[j] < |before|
    requires BatchMarked(before, rows, ids, n, upto, GOOD_LUCK, w) && Undisturbed(w)
    ensures upto == |ids| && MarkedSome(rows, before, ids, w)
  {
    assert upto == |ids|;
    assert ids[..|ids|] == ids;
  }

  /** One event of the chain: the topic's only event is taken up and handled. */
  method HandleNext(worker: Worker, n: int, w: Outside, ghost created: seq<Recipient>)
    modifies worker
    requires n >= 1 && worker.status.Sending? && worker.topic == [BlastDelivery.BatchSend(n)] && Undisturbed(w)
    requires MailedTo(worker.rows, created, n - 1, w) && created != [] && Consecutive(created)
    requires forall k :: 0 <= k < |created| ==> created[k].status.Pending?
    ensures worker.status.Sending? && MailedTo(worker.rows, created, n, w)
    ensures worker.topic == [BlastDelivery.BatchSend(n + 1)] || (worker.topic == [] && AllBelow(created, n + 1))
    ensures worker.topic != [] ==> n + 1 < |created|
  {
    hide OfBatch, BlastDelivery.PendingCount, Following, Consecutive, MarkedSome, BatchMarked, AllBelow, Marked;
    worker.topic := [];
    ghost var before := worker.rows;
    ghost var upto;
    var ok;
    ok, upto := worker.HandleBlastBatch(n, GOOD_LUCK, w);
    NeverStops(before, worker.rows, OfBatch(before, n), n, upto, w);
    WholeBatchMarked(before, worker.rows, created, n, w);
    AfterBatch(worker.rows, created, n, w);
  }

  function Outcome(r: Recipient, w: Outside): Recipient {
    r.(status := if r.batch == 0 then Pending else if w.arrives(r.user) then Sent else RecipientStatus.Failed)
  }

  /** The recipients once every batch but batch 0 has been mailed. */
  ghost predicate AllButBatchZero(rows: seq<Recipient>, blast: int, users: seq<User>, size: int, w: Outside)
    requires size > 0
  {
    && |rows| == |users|
    && forall k :: 0 <= k < |users| ==> rows[k] == Outcome(RowFor(blast, users, size, k), w)
  }

  lemma EverybodyElseMailed(rows: seq<Recipient>, blast: int, users: seq<User>, size: int, n: int, w: Outside)
    requires size > 0 && Undisturbed(w)
    requires var created := RowsFor(blast, users, size, |users|);
      Consecutive(created) && MailedTo(rows, created, n, w) && AllBelow(created, n + 1)
    ensures AllButBatchZero(rows, blast, users, size, w)
  {
    var created := RowsFor(blast, users, size, |users|);
    forall k | 0 <= k < |users| ensures rows[k] == Outcome(RowFor(blast, users, size, k), w) {
      assert rows[k] == Handled(created[k], n, w) && created[k] == RowFor(blast, users, size, k);
      BatchAtMostIndex(created, k);
    }
  }

  /** The started event is handled: everybody is created, and batch 1 dispatched. */
  method Begin(worker: Worker, users: seq<User>, w: Outside)
    modifies worker
    requires worker.status == Processing && worker.rows == [] && worker.topic == []
    requires users != [] && DistinctIds(users)
    ensures worker.status.Sending? && worker.topic == [BlastDelivery.BatchSend(1)]
    ensures var size := BlastDelivery.SizeOf(worker.batchSize);
      && worker.rows == RowsFor(worker.blast, users, size, |users|)
      && Consecutive(worker.rows) && MailedTo(worker.rows, worker.rows, 0, w)
    ensures forall k :: 0 <= k < |worker.rows| ==> worker.rows[k].status.Pending?
  {
    hide InsertUsers, Consecutive, MailedTo, RowFor, Present;
    ghost var size := BlastDelivery.SizeOf(worker.batchSize);
    var ok := worker.HandleBlastStarted(users, GOOD_LUCK);
    FreshInsert([], worker.blast, users, size, |users|);
    FreshBatches(worker.blast, users, size);
    NobodyMailed(worker.blast, users, size, w);
  }

  /** Main result: with nothing failing and nothing interfering, the chain of batch events
      mails the recipients of every batch but batch 0, ends with no event left, and never
      dispatches completion. */
  method Deliver(worker: Worker, users: seq<User>, w: Outside)
    modifies worker
    requires worker.status == Processing && worker.rows == [] && worker.topic == []
    requires users != [] && DistinctIds(users) && Undisturbed(w)
    ensures worker.status.Sending? && worker.topic == []
    ensures AllButBatchZero(worker.rows, worker.blast, users, BlastDelivery.SizeOf(worker.batchSize), w)
  {
    hide DistinctIds, Consecutive, Undisturbed, AllButBatchZero, MailedTo, AllBelow, RowFor, BlastDelivery.SizeOf;
    Begin(worker, users, w);
    ghost var created := worker.rows;
    var n := 1;
    while |worker.topic| > 0
      invariant 1 <= n <= |users| + 1 && worker.status.Sending?
      invariant MailedTo(worker.rows, created, n - 1, w)
      invariant worker.topic == [BlastDelivery.BatchSend(n)] || (worker.topic == [] && AllBelow(created, n))
      invariant worker.topic != [] ==> n <= |users|
      decreases |users| + 1 - n
    {
      HandleNext(worker, n, w, created);
      n := n + 1;
    }
    EverybodyElseMailed(worker.rows, worker.blast, users, BlastDelivery.SizeOf(worker.batchSize), n - 1, w);
  }
}

/**
 The email blast table and the API operations on it, as the code runs them when no other
 call interferes. Each operation is proved to do what the call of BlastLifecycle does alone.
 */
module BlastStore {
  import opened Prelude
  import opened BlastStatus
  import opened BlastLifecycle

  datatype Error =
    | BlastNotFound | Unauthorized | InvalidScheduleTime | CannotModify | CannotDelete
    | CannotStart | CannotPause | CannotResume | CannotCancel | DispatchFailed

  function Check(account: int, r: Row, allowed: bool, error: Error): Option<Error> {
    if r.account != account then Some(Unauthorized) else if !allowed then Some(error) else None
  }

  /** The error an operation answers without changing anything, if any. */
  function Refusal(call: Call, found: Option<Row>, now: int): Option<Error> {
    if call.ScheduleBlast? && call.at < now then Some(InvalidScheduleTime)
    else if found.None? then Some(BlastNotFound)
    else
      var st := found.value.status;
      match call
      case UpdateEmailBlast(a, _, _) => Check(a, found.value, st.Draft?, CannotModify)
      case DeleteEmailBlast(a) => Check(a, found.value, !Active(st), CannotDelete)
      case ScheduleBlast(a, _) => Check(a, found.value, st.Draft?, CannotModify)
      case SendBlastNow(a) => Check(a, found.value, st.Draft? || st.Scheduled?, CannotStart)
      case PauseBlast(a) => Check(a, found.value, st.Sending? || st.Processing?, CannotPause)
      case ResumeBlast(a) => Check(a, found.value, st.Paused?, CannotResume)
      case CancelBlast(a) => Check(a, found.value, !Terminal(st), CannotCancel)
      case _ => None
  }

  /** The row after the call has run alone, its clock and dispatch fixed. */
  function After(r: Row, call: Call, now: int, dispatched: bool): Row {
    var o := Outcome(now, false, if dispatched then Fine else Broken, 0);
    Alone(r, Task(call, Reading), [o, o, o]).0
  }

  /** Every call of the API has ended by then. */
  lemma CallsEnd(r: Row, call: Call, os: seq<Outcome>)
    requires |os| == 3 && !call.HandleStarted? && !call.HandleBatch?
    ensures Alone(r, Task(call, Reading), os).1.pc.Finished?
    ensures var r1, t1 := RowAfter(r, Task(call, Reading), os[0]), TaskAfter(r, Task(call, Reading), os[0]);
      var r2, t2 := RowAfter(r1, t1, os[1]), TaskAfter(r1, t1, os[1]);
      Alone(r, Task(call, Reading), os).0 == RowAfter(r2, t2, os[2])
  {
    var t := Task(call, Reading);
    var r1, t1 := RowAfter(r, t, os[0]), TaskAfter(r, t, os[0]);
    var r2, t2 := RowAfter(r1, t1, os[1]), TaskAfter(r1, t1, os[1]);
    var r3, t3 := RowAfter(r2, t2, os[2]), TaskAfter(r2, t2, os[2]);
    assert Alone(r3, t3, os[1..][1..][1..]) == (r3, t3);
    assert Alone(r2, t2, os[1..][1..]) == (r3, t3);
    assert Alone(r1, t1, os[1..]) == (r3, t3);
  }

  /** The row an operation leaves, written out. */
  lemma UnfoldAfter(r: Row, call: Call, now: int, dispatched: bool)
    requires r.deletedAt.None? && Admits(call, r, now)
    requires !call.CheckScheduled? && !call.HandleStarted? && !call.HandleBatch? && !call.HandleCompleted?
    ensures var o := Outcome(now, false, Fine, 0);
      var first := Apply(r, FirstWrite(call, o).w, now);
      After(r, call, now, dispatched) ==
        if call.SendBlastNow? && !dispatched then Apply(first, SetStatus(Draft), now) else first
  {
    var o := Outcome(now, false, if dispatched then Fine else Broken, 0);
    CallsEnd(r, call, [o, o, o]);
    match call
    case SendBlastNow(_) =>
    case _ =>
  }

  /** A blast that the code refuses is left alone by the machine too. */
  lemma RefusedStays(rows: map<int, Row>, id: int, call: Call, now: int, dispatched: bool)
    requires !call.CheckScheduled? && !call.HandleStarted? && !call.HandleBatch? && !call.HandleCompleted?
    ensures id in rows && Refusal(call, if rows[id].deletedAt.None? then Some(rows[id]) else None, now).Some? ==>
      After(rows[id], call, now, dispatched) == rows[id]
  {
    if id in rows {
      var o := Outcome(now, false, if dispatched then Fine else Broken, 0);
      CallsEnd(rows[id], call, [o, o, o]);
    }
  }

  class EmailBlasts {
    var rows: map<int, Row>

    /** SELECT ... WHERE id = $1 AND deleted_at IS NULL */
    function GetEmailBlastByID(id: int): (r: Option<Row>)
      reads this
      ensures r.Some? <==> id in rows && rows[id].deletedAt.None?
    {
      if id in rows && rows[id].deletedAt.None? then Some(rows[id]) else None
    }

    /** One UPDATE statement; None when it matched no row. */
    method Update(id: int, w: Write, now: int) returns (r: Option<Row>)
      modifies this
      ensures id in old(rows) && Hits(old(rows[id]), w) ==>
        r == Some(Put(old(rows[id]), w, now)) && rows == old(rows)[id := r.value]
      ensures !(id in old(rows) && Hits(old(rows[id]), w)) ==> r == None && rows == old(rows)
    {
      if id !in rows || !Hits(rows[id], w) {
        return None;
      }
      rows := rows[id := Put(rows[id], w, now)];
      return Some(rows[id]);
    }

    /** What every operation promises: the error the code answers, if any, and the row that the
        call alone in the machine leaves, which it leaves alone when the code refuses. */
    twostate predicate Served(id: int, call: Call, now: int, dispatched: bool, new r: Result<Row, Error>)
      reads this
    {
      var refusal := Refusal(call, old(GetEmailBlastByID(id)), now);
      && (id in old(rows) && refusal.Some? ==> After(old(rows[id]), call, now, dispatched) == old(rows[id])) &&
      if refusal.Some? then r == Err(refusal.value) && rows == old(rows)
      else
        && id in old(rows)
        && rows == old(rows)[id := After(old(rows[id]), call, now, dispatched)]
        && r == (if call.SendBlastNow? && !dispatched then Err(DispatchFailed) else Ok(rows[id]))
    }

    /** The request is refused when the blast is missing, another account's, or in none of the
        allowed statuses; otherwise its row is changed as told, and nothing else. The answer is
        that row, or an error when the event that should follow cannot be dispatched. */
    twostate predicate Answered(id: int, account: int, allowed: set<Status>, error: Error, change: Row -> Row,
                                failure: Option<Error>, new r: Result<Row, Error>)
      reads this
    {
      var found := old(GetEmailBlastByID(id));
      if found.None? then r == Err(BlastNotFound) && rows == old(rows)
      else if found.value.account != account then r == Err(Unauthorized) && rows == old(rows)
      else if found.value.status !in allowed then r == Err(error) && rows == old(rows)
      else
        && rows == old(rows)[id := change(found.value)]
        && r == if failure.Some? then Err(failure.value) else Ok(change(found.value))
    }

    method UpdateEmailBlast(account: int, id: int, name: Option<string>, batchSize: Option<int>, now: int)
      returns (r: Result<Row, Error>)
      modifies this
      ensures Served(id, Call.UpdateEmailBlast(account, name, batchSize), now, true, r)
      ensures Answered(id, account, {Draft}, CannotModify, (row: Row) =>
        row.(name := if name.Some? then name.value else row.name,
             batchSize := if batchSize.Some? then batchSize.value else row.batchSize), None, r)
    {
      RefusedStays(rows, id, Call.UpdateEmailBlast(account, name, batchSize), now, true);
      var existing := GetEmailBlastByID(id);
      if existing.None? { return Err(BlastNotFound); }
      if existing.value.account != account { return Err(Unauthorized); }
      if existing.value.status != Draft { return Err(CannotModify); }
      UnfoldAfter(existing.value, Call.UpdateEmailBlast(account, name, batchSize), now, true);
      var updated := Update(id, Edit(name, batchSize), now);
      if updated.None? { return Err(BlastNotFound); }
      return Ok(updated.value);
    }

    method ScheduleBlast(account: int, id: int, at: int, now: int) returns (r: Result<Row, Error>)
      modifies this
      ensures Served(id, Call.ScheduleBlast(account, at), now, true, r)
      ensures at < now ==> r == Err(InvalidScheduleTime) && rows == old(rows)
      ensures at >= now ==> Answered(id, account, {Draft}, CannotModify, (row: Row) =>
        row.(status := Scheduled, scheduledAt := Some(at)), None, r)
    {
      RefusedStays(rows, id, Call.ScheduleBlast(account, at), now, true);
      if at < now { return Err(InvalidScheduleTime); }
      var existing := GetEmailBlastByID(id);
      if existing.None? { return Err(BlastNotFound); }
      if existing.value.account != account { return Err(Unauthorized); }
      if existing.value.status != Draft { return Err(CannotModify); }
      UnfoldAfter(existing.value, Call.ScheduleBlast(account, at), now, true);
      var updated := Update(id, ScheduleAt(at), now);
      if updated.None? { return Err(BlastNotFound); }
      return Ok(updated.value);
    }

    method DeleteEmailBlast(account: int, id: int, now: int) returns (r: Result<Row, Error>)
      modifies this
      ensures Served(id, Call.DeleteEmailBlast(account), now, true, r)
      ensures Answered(id, account, {Draft, Scheduled, Cancelled, Completed, Failed}, CannotDelete, (row: Row) =>
        row.(deletedAt := Some(now)), None, r)
    {
      RefusedStays(rows, id, Call.DeleteEmailBlast(account), now, true);
      var existing := GetEmailBlastByID(id);
      if existing.None? { return Err(BlastNotFound); }
      if existing.value.account != account { return Err(Unauthorized); }
      UnfoldAfter(existing.value, Call.DeleteEmailBlast(account), now, true);
      var deleted := Update(id, SoftDelete, now);
      if deleted.None? { return Err(CannotDelete); }
      return Ok(deleted.value);
    }

    /** A dispatch that fails writes the blast back to draft. */
    method SendBlastNow(account: int, id: int, now: int, dispatched: bool) returns (r: Result<Row, Error>)
      modifies this
      ensures Served(id, Call.SendBlastNow(account), now, dispatched, r)
      ensures Answered(id, account, {Draft, Scheduled}, CannotStart, (row: Row) =>
        row.(status := if dispatched then Processing else Draft,
             startedAt := if row.startedAt.Some? then row.startedAt else Some(now)),
        if dispatched then None else Some(DispatchFailed), r)
    {
      RefusedStays(rows, id, Call.SendBlastNow(account), now, dispatched);
      var existing := GetEmailBlastByID(id);
      if existing.None? { return Err(BlastNotFound); }
      if existing.value.account != account { return Err(Unauthorized); }
      if existing.value.status != Draft && existing.value.status != Scheduled { return Err(CannotStart); }
      UnfoldAfter(existing.value, Call.SendBlastNow(account), now, dispatched);
      var updated := Update(id, SetStatus(Processing), now);
      if !dispatched {
        var _ := Update(id, SetStatus(Draft), now);
        return Err(DispatchFailed);
      }
      return Ok(updated.value);
    }

    function GetEmailBlast(account: int, id: int): (r: Result<Row, Error>)
      reads this
    {
      var found := GetEmailBlastByID(id);
      if found.None? then Err(BlastNotFound)
      else if found.value.account != account then Err(Unauthorized)
      else Ok(found.value)
    }

    method PauseBlast(account: int, id: int, now: int) returns (r: Result<Row, Error>)
      modifies this
      ensures Served(id, Call.PauseBlast(account), now, true, r)
      ensures Answered(id, account, {Sending, Processing}, CannotPause, (row: Row) => row.(status := Paused), None, r)
    {
      RefusedStays(rows, id, Call.PauseBlast(account), now, true);
      var existing := GetEmailBlast(account, id);
      if existing.Err? { return existing; }
      if existing.value.status != Sending && existing.value.status != Processing { return Err(CannotPause); }
      UnfoldAfter(existing.value, Call.PauseBlast(account), now, true);
      var updated := Update(id, SetStatus(Paused), now);
      return Ok(updated.value);
    }

    /** Whether the next batch event can be dispatched does not matter to the row. */
    method ResumeBlast(account: int, id: int, now: int, dispatched: bool) returns (r: Result<Row, Error>)
      modifies this
      ensures Served(id, Call.ResumeBlast(account), now, dispatched, r)
      ensures Answered(id, account, {Paused}, CannotResume, (row: Row) =>
        row.(status := Sending, startedAt := if row.startedAt.Some? then row.startedAt else Some(now)), None, r)
    {
      RefusedStays(rows, id, Call.ResumeBlast(account), now, dispatched);
      var existing := GetEmailBlast(account, id);
      if existing.Err? { return existing; }
      if existing.value.status != Paused { return Err(CannotResume); }
      UnfoldAfter(existing.value, Call.ResumeBlast(account), now, dispatched);
      var updated := Update(id, SetStatus(Sending), now);
      return Ok(updated.value);
    }

    method CancelBlast(account: int, id: int, now: int) returns (r: Result<Row, Error>)
      modifies this
      ensures Served(id, Call.CancelBlast(account), now, true, r)
      ensures Answered(id, account, {Draft, Scheduled, Processing, Sending, Paused}, CannotCancel, (row: Row) =>
        row.(status := Cancelled, completedAt := Some(now)), None, r)
    {
      RefusedStays(rows, id, Call.CancelBlast(account), now, true);
      var existing := GetEmailBlast(account, id);
      if existing.Err? { return existing; }
      if existing.value.status !in {Draft, Scheduled, Processing, Sending, Paused} { return Err(CannotCancel); }
      UnfoldAfter(existing.value, Call.CancelBlast(account), now, true);
      var updated := Update(id, SetStatus(Cancelled), now);
      return Ok(updated.value);
    }
  }
}

/**
 When the scheduler starts a blast. The scheduler reads the scheduled time in one statement and
 writes `processing` in a later one, which does not look at the time again.
 */
module BlastSchedule {
  import opened Prelude
  import opened BlastStatus
  import opened BlastLifecycle

  // ---------------------------------------------------------------- the scheduled time

  /** The event is a schedule call's update that finds the blast in draft. */
  predicate Schedules(s: State, e: Event) {
    e.Act? && e.k < |s.tasks| && s.tasks[e.k].pc.Writing? && s.tasks[e.k].pc.w.ScheduleAt? && !e.o.fault
    && s.row.deletedAt.None? && s.row.status.Draft?
  }

  /** The time of the schedule call last accepted in a run, or the blast's time before it. */
  function LastTime(s: State, es: seq<Event>): Option<int> {
    if es == [] then s.row.scheduledAt
    else
      var before, e := Run(s, es[..|es| - 1]), es[|es| - 1];
      if Schedules(before, e) then Some(before.tasks[e.k].pc.w.at) else LastTime(s, es[..|es| - 1])
  }

  lemma StepTime(s: State, e: Event)
    ensures Step(s, e).row.scheduledAt == if Schedules(s, e) then Some(s.tasks[e.k].pc.w.at) else s.row.scheduledAt
  {}

  /** Main result: in every interleaving the blast's scheduled time is that of the schedule call
      last accepted; nothing else changes it. */
  lemma {:induction false} ScheduledTimeIsLast(s: State, es: seq<Event>)
    ensures Run(s, es).row.scheduledAt == LastTime(s, es)
  {
    hide Step, Schedules;
    if es != [] {
      ScheduledTimeIsLast(s, es[..|es| - 1]);
      StepTime(Run(s, es[..|es| - 1]), es[|es| - 1]);
    }
  }

  // ---------------------------------------------------------------- the scheduler's write

  /** A pass of the scheduler that has found the blast due and not yet written to it. */
  predicate Starting(t: Task) { t == Task(CheckScheduled, Writing(SetStatus(Processing))) }

  /** The event is the scheduler's update of a blast to processing. */
  predicate Starts(s: State, e: Event) {
    e.Act? && e.k < |s.tasks| && Starting(s.tasks[e.k]) && !e.o.fault && s.row.deletedAt.None?
  }

  ghost predicate NobodyStarting(s: State) {
    forall k :: 0 <= k < |s.tasks| ==> !Starting(s.tasks[k])
  }

  /** The clock never goes back, and shows `now` or more. */
  ghost predicate Timed(es: seq<Event>, now: int) {
    && (forall i :: 0 <= i < |es| && es[i].Act? ==> now <= es[i].o.now)
    && forall i, j :: 0 <= i < j < |es| && es[i].Act? && es[j].Act? ==> es[i].o.now <= es[j].o.now
  }

  ghost predicate NotRescheduled(s: State, es: seq<Event>) {
    forall i :: 0 <= i < |es| ==> !Schedules(Run(s, es[..i]), es[i])
  }

  lemma NotRescheduledInit(s: State, es: seq<Event>)
    requires es != [] && NotRescheduled(s, es)
    ensures NotRescheduled(s, es[..|es| - 1]) && !Schedules(Run(s, es[..|es| - 1]), es[|es| - 1])
  {
    hide Schedules;
    var init := es[..|es| - 1];
    forall i | 0 <= i < |init| ensures !Schedules(Run(s, init[..i]), init[i]) {
      assert init[..i] == es[..i];
    }
  }

  lemma {:induction false} TimeStays(s: State, es: seq<Event>)
    requires NotRescheduled(s, es)
    ensures Run(s, es).row.scheduledAt == s.row.scheduledAt
  {
    hide Step, Schedules, NotRescheduled;
    if es != [] {
      NotRescheduledInit(s, es);
      TimeStays(s, es[..|es| - 1]);
      StepTime(Run(s, es[..|es| - 1]), es[|es| - 1]);
    }
  }

  /** A pass that becomes about to write has just read a time that had come. */
  lemma StartingHasRead(s: State, e: Event)
    requires NobodyStarting(s) && !NobodyStarting(Step(s, e))
    ensures e.Act? && s.row.scheduledAt.Some? && s.row.scheduledAt.value <= e.o.now
  {
    var k :| 0 <= k < |Step(s, e).tasks| && Starting(Step(s, e).tasks[k]);
    if e.Act? {
      assert k < |s.tasks| && !Starting(s.tasks[k]);
    }
  }

  /** The clock has reached the given time in the course of the run. */
  ghost predicate Reached(es: seq<Event>, at: int) {
    exists i :: 0 <= i < |es| && es[i].Act? && at <= es[i].o.now
  }

  lemma {:induction false} StartingIsDue(s: State, es: seq<Event>, at: int)
    requires NobodyStarting(s) && s.row.scheduledAt == Some(at) && NotRescheduled(s, es)
    ensures NobodyStarting(Run(s, es)) || Reached(es, at)
  {
    hide Step, NobodyStarting, NotRescheduled;
    if es != [] {
      var init, e := es[..|es| - 1], es[|es| - 1];
      NotRescheduledInit(s, es);
      StartingIsDue(s, init, at);
      TimeStays(s, init);
      if Reached(init, at) {
        var i :| 0 <= i < |init| && init[i].Act? && at <= init[i].o.now;
        assert es[i] == init[i];
      } else if !NobodyStarting(Run(s, es)) {
        StartingHasRead(Run(s, init), e);
      }
    }
  }

  /** As long as the blast is not rescheduled, the scheduler writes only when its time has come. */
  ghost predicate OnTime(s: State, now: int) {
    forall es, e :: Timed(es + [e], now) && NotRescheduled(s, es) && Starts(Run(s, es), e) ==>
      s.row.scheduledAt.Some? && s.row.scheduledAt.value <= e.o.now
  }

  lemma DueStarts(s: State, now: int, es: seq<Event>, e: Event)
    requires s.row.scheduledAt.Some? && (s.row.scheduledAt.value <= now || NobodyStarting(s))
    requires Timed(es + [e], now) && NotRescheduled(s, es) && Starts(Run(s, es), e)
    ensures s.row.scheduledAt.value <= e.o.now
  {
    hide NotRescheduled, Run;
    var at, all := s.row.scheduledAt.value, es + [e];
    assert all[|es|] == e;
    if at > now {
      StartingIsDue(s, es, at);
      assert !NobodyStarting(Run(s, es));
      var i :| 0 <= i < |es| && es[i].Act? && at <= es[i].o.now;
      assert all[i] == es[i];
    }
  }

  lemma NoEvents(s: State)
    ensures Run(s, []) == s && NotRescheduled(s, [])
  {}

  /** Main result: with a clock that never goes back, the scheduler starts a blast only at or
      after the time it was last scheduled for if and only if that time has come already, or no
      pass of the scheduler is about to write because of an earlier one. */
  lemma OnTimeIff(s: State, now: int)
    requires s.row.deletedAt.None? && s.row.scheduledAt.Some?
    ensures OnTime(s, now) <==> s.row.scheduledAt.value <= now || NobodyStarting(s)
  {
    hide Run, NotRescheduled;
    if s.row.scheduledAt.value <= now || NobodyStarting(s) {
      forall es, e | Timed(es + [e], now) && NotRescheduled(s, es) && Starts(Run(s, es), e)
        ensures s.row.scheduledAt.value <= e.o.now
      {
        DueStarts(s, now, es, e);
      }
    } else {
      var k :| 0 <= k < |s.tasks| && Starting(s.tasks[k]);
      var e := Act(k, Outcome(now, false, Fine, 0));
      assert Timed([] + [e], now) && NotRescheduled(s, []) && Starts(Run(s, []), e) by {
        NoEvents(s);
      }
    }
  }

  /** A blast due at 5 is found by the scheduler, sent at once, put back to draft because that
      cannot be dispatched, and scheduled for 100. */
  function Overtaken(): seq<Event> {
    var fine, broken := Outcome(5, false, Fine, 0), Outcome(5, false, Broken, 0);
    Arrivals([CheckScheduled, SendBlastNow(1), ScheduleBlast(1, 100)])
    + [Act(0, fine), Act(1, fine), Act(1, broken), Act(1, fine), Act(2, fine), Act(2, fine)]
  }

  lemma RunSix(s: State, es: seq<Event>)
    requires |es| == 6
    ensures Run(s, es) == Step(Step(Step(Step(Step(Step(s, es[0]), es[1]), es[2]), es[3]), es[4]), es[5])
  {
    hide Step;
    assert es[..4][..3] == es[..3] && es[..3][..2] == es[..2] && es[..2][..1] == es[..1];
    RunFour(s, es[..4]);
    assert es[..5][..4] == es[..4];
    assert Run(s, es[..5]) == Step(Run(s, es[..4]), es[4]);
    assert es[..6] == es;
  }

  lemma OvertakenIsTimed()
    ensures Timed(Overtaken(), 5)
  {}

  /** Then the scheduler's write comes 95 before the time the blast is scheduled for. */
  lemma StartsEarly()
    ensures var s := Run(State(Create(1, "news", 10, Some(5)), []), Overtaken());
      && Timed(Overtaken(), 5) && Starts(s, Act(0, Outcome(5, false, Fine, 0)))
      && s.row.status.Scheduled? && s.row.scheduledAt == Some(100)
  {
    hide Run;
    var r := Create(1, "news", 10, Some(5));
    var calls := [CheckScheduled, SendBlastNow(1), ScheduleBlast(1, 100)];
    var check, send, schedule := Task(calls[0], Reading), Task(calls[1], Reading), Task(calls[2], Reading);
    var es := Overtaken()[3..];
    ArriveAll(r, calls);
    assert seq(|calls|, i requires 0 <= i < |calls| => Task(calls[i], Reading)) == [check, send, schedule];
    RunAppend(State(r, []), Arrivals(calls), es);
    assert Arrivals(calls) + es == Overtaken();
    var checking := check.(pc := Writing(SetStatus(Processing)));
    var r1 := r.(status := Processing, startedAt := Some(5));
    var r2 := r1.(status := Draft);
    var sending := send.(pc := Writing(SetStatus(Processing)));
    var s1 := State(r, [checking, send, schedule]);
    assert Step(State(r, [check, send, schedule]), es[0]) == s1;
    var s2 := State(r, [checking, sending, schedule]);
    assert Step(s1, es[1]) == s2;
    var s3 := State(r1, [checking, send.(pc := Writing(SetStatus(Draft))), schedule]);
    assert Step(s2, es[2]) == s3;
    var s4 := State(r2, [checking, send.(pc := Finished), schedule]);
    assert Step(s3, es[3]) == s4;
    var s5 := State(r2, [checking, send.(pc := Finished), schedule.(pc := Writing(ScheduleAt(100)))]);
    assert Step(s4, es[4]) == s5;
    RunSix(State(r, [check, send, schedule]), es);
    OvertakenIsTimed();
  }

  // ---------------------------------------------------------------- calls alone

  lemma AloneThree(r: Row, t: Task, os: seq<Outcome>)
    requires |os| == 3
    ensures var r1, t1 := RowAfter(r, t, os[0]), TaskAfter(r, t, os[0]);
      var r2, t2 := RowAfter(r1, t1, os[1]), TaskAfter(r1, t1, os[1]);
      Alone(r, t, os) == (RowAfter(r2, t2, os[2]), TaskAfter(r2, t2, os[2]))
  {
    hide RowAfter, TaskAfter;
    assert os[1..][1..][1..] == [];
    var r1, t1 := RowAfter(r, t, os[0]), TaskAfter(r, t, os[0]);
    var r2, t2 := RowAfter(r1, t1, os[1]), TaskAfter(r1, t1, os[1]);
    assert Alone(r2, t2, os[1..][1..]) == Alone(RowAfter(r2, t2, os[2]), TaskAfter(r2, t2, os[2]), os[1..][1..][1..]);
  }

  /** A pass of the scheduler alone touches only a blast whose time has come, and leaves it
      processing, or failed when the started event cannot be dispatched; each write may be
      refused. */
  lemma SchedulerAlone(r: Row, read: Outcome, write: Outcome, fail: Outcome)
    requires !read.fault && r.deletedAt.None?
    ensures var due := r.status.Scheduled? && r.scheduledAt.Some? && r.scheduledAt.value <= read.now;
      var started := if r.startedAt.Some? then r.startedAt else Some(write.now);
      Alone(r, Task(CheckScheduled, Reading), [read, write, fail]).0 ==
        if !due || write.fault then r
        else if write.course.Broken? && !fail.fault then
          r.(status := Failed, startedAt := started, completedAt := Some(fail.now))
        else r.(status := Processing, startedAt := started)
  {
    var t := Task(CheckScheduled, Reading);
    AloneThree(r, t, [read, write, fail]);
    if Admits(CheckScheduled, r, read.now) {
      assert TaskAfter(r, t, read) == t.(pc := Writing(SetStatus(Processing)));
    }
  }

  lemma AloneStep(r: Row, t: Task, os: seq<Outcome>, r1: Row, t1: Task)
    requires os != [] && RowAfter(r, t, os[0]) == r1 && TaskAfter(r, t, os[0]) == t1
    ensures Alone(r, t, os) == Alone(r1, t1, os[1..])
  {
    hide RowAfter, TaskAfter;
  }

  lemma AloneLast(r: Row, t: Task, o: Outcome, r1: Row, t1: Task)
    requires RowAfter(r, t, o) == r1 && TaskAfter(r, t, o) == t1
    ensures Alone(r, t, [o]) == (r1, t1)
  {
    hide RowAfter, TaskAfter;
    AloneStep(r, t, [o], r1, t1);
    assert [o][1..] == [];
  }

  /** The last write of a handler that fails its blast. */
  lemma FailingAlone(r: Row, call: Call, fail: Outcome)
    requires r.deletedAt.None? && call.HandleStarted?
    ensures Alone(r, Task(call, Writing(SetStatus(Failed))), [fail]).0
         == if fail.fault then r else r.(status := Failed, completedAt := Some(fail.now))
  {
    var r1 := if fail.fault then r else r.(status := Failed, completedAt := Some(fail.now));
    AloneLast(r, Task(call, Writing(SetStatus(Failed))), fail, r1, Task(call, Finished));
  }

  lemma SendingAlone(r: Row, write: Outcome, fail: Outcome)
    requires !fail.fault && r.deletedAt.None?
    ensures var started := if r.startedAt.Some? then r.startedAt else Some(write.now);
      Alone(r, Task(HandleStarted, Writing(SetStatus(Sending))), [write, fail]).0 ==
        if write.fault then r.(status := Failed, completedAt := Some(fail.now))
        else if write.course.Broken? then
          r.(startedAt := started, status := Failed, completedAt := Some(fail.now))
        else r.(startedAt := started, status := Sending)
  {
    hide Alone;
    assert [write, fail][1..] == [fail];
    var t := Task(HandleStarted, Writing(SetStatus(Sending)));
    var started := if r.startedAt.Some? then r.startedAt else Some(write.now);
    var r1 := if write.fault then r else r.(startedAt := started, status := Sending);
    if write.fault || write.course.Broken? {
      AloneStep(r, t, [write, fail], r1, Task(HandleStarted, Writing(SetStatus(Failed))));
      FailingAlone(r1, HandleStarted, fail);
    } else {
      AloneStep(r, t, [write, fail], r1, Task(HandleStarted, Finished));
      AloneLast(r1, Task(HandleStarted, Finished), fail, r1, Task(HandleStarted, Finished));
    }
  }

  /** The writes of the started handler once the number of recipients is to be written. */
  lemma TotalAlone(r: Row, n: nat, total: Outcome, write: Outcome, fail: Outcome)
    requires !fail.fault && r.deletedAt.None?
    ensures var started := if r.startedAt.Some? then r.startedAt else Some(write.now);
      Alone(r, Task(HandleStarted, Writing(SetTotal(n))), [total, write, fail]).0 ==
        if total.fault then (if write.fault then r else r.(status := Failed, completedAt := Some(write.now)))
        else if write.fault then r.(total := n, status := Failed, completedAt := Some(fail.now))
        else if write.course.Broken? then
          r.(total := n, startedAt := started, status := Failed, completedAt := Some(fail.now))
        else r.(total := n, startedAt := started, status := Sending)
  {
    hide Alone;
    assert [total, write, fail][1..] == [write, fail] && [write, fail][1..] == [fail];
    var t, over := Task(HandleStarted, Writing(SetTotal(n))), Task(HandleStarted, Finished);
    if total.fault {
      var r1 := if write.fault then r else r.(status := Failed, completedAt := Some(write.now));
      AloneStep(r, t, [total, write, fail], r, Task(HandleStarted, Writing(SetStatus(Failed))));
      AloneStep(r, Task(HandleStarted, Writing(SetStatus(Failed))), [write, fail], r1, over);
      AloneLast(r1, over, fail, r1, over);
    } else {
      AloneStep(r, t, [total, write, fail], r.(total := n), Task(HandleStarted, Writing(SetStatus(Sending))));
      SendingAlone(r.(total := n), write, fail);
    }
  }

  /** The handler of the started event alone: a processing blast is completed when it has no
      recipients, and otherwise gets their number and is sending, or failed when the creation,
      a write or the dispatch fails. */
  lemma StartedAlone(r: Row, read: Outcome, total: Outcome, write: Outcome, fail: Outcome)
    requires !read.fault && !fail.fault && r.deletedAt.None?
    ensures var started := if r.startedAt.Some? then r.startedAt else Some(write.now);
      Alone(r, Task(HandleStarted, Reading), [read, total, write, fail]).0 ==
        if !r.status.Processing? then r
        else if read.course.Broken? then
          (if total.fault then r else r.(status := Failed, completedAt := Some(total.now)))
        else if read.count == 0 then
          (if total.fault then r else r.(status := Completed, completedAt := Some(total.now)))
        else if total.fault then (if write.fault then r else r.(status := Failed, completedAt := Some(write.now)))
        else if write.fault then r.(total := read.count, status := Failed, completedAt := Some(fail.now))
        else if write.course.Broken? then
          r.(total := read.count, startedAt := started, status := Failed, completedAt := Some(fail.now))
        else r.(total := read.count, startedAt := started, status := Sending)
  {
    var t := Task(HandleStarted, Reading);
    var os := [read, total, write, fail];
    assert Alone(r, t, os) == Alone(RowAfter(r, t, read), TaskAfter(r, t, read), [total, write, fail]) by {
      assert os[1..] == [total, write, fail];
    }
    if r.status.Processing? && !read.course.Broken? && read.count > 0 {
      assert TaskAfter(r, t, read) == t.(pc := Writing(SetTotal(read.count)));
      TotalAlone(r, read.count, total, write, fail);
    } else {
      AloneThree(r, TaskAfter(r, t, read), [total, write, fail]);
    }
  }

  /** The handler of a batch event alone touches only a sending blast, and records its progress
      or fails it. */
  lemma BatchAlone(r: Row, b: int, read: Outcome, write: Outcome, fail: Outcome)
    requires !read.fault && !write.fault && !fail.fault && r.deletedAt.None?
    ensures Alone(r, Task(HandleBatch(b), Reading), [read, write, fail]).0 ==
      if !r.status.Sending? || read.course.Nothing? then r
      else if read.course.Broken? then r.(status := Failed, completedAt := Some(write.now))
      else if write.course.Broken? then
        r.(status := Failed, completedAt := Some(fail.now), sent := read.count, batch := b)
      else r.(sent := read.count, batch := b)
  {
    var t := Task(HandleBatch(b), Reading);
    AloneThree(r, t, [read, write, fail]);
    if r.status.Sending? && !read.course.Nothing? {
      var w := if read.course.Broken? then SetStatus(Failed) else SetProgress(read.count, b);
      assert TaskAfter(r, t, read) == t.(pc := Writing(w));
      assert RowAfter(r, t.(pc := Writing(w)), write) == Put(r, w, write.now);
    }
  }

  /** The handler of the completion event alone completes a sending blast and no other. */
  lemma CompletedAlone(r: Row, read: Outcome, write: Outcome, rest: Outcome)
    requires !read.fault && !write.fault && r.deletedAt.None?
    ensures Alone(r, Task(HandleCompleted, Reading), [read, write, rest]).0 ==
      if r.status.Sending? then r.(status := Completed, completedAt := Some(write.now)) else r
  {
    AloneThree(r, Task(HandleCompleted, Reading), [read, write, rest]);
  }
}

/**
 Granting one reward. GrantReward reads the reward, counts the user's claims, inserts a user
 reward and increments the claim counter in four separate statements without a transaction.
 A state holds the reward's counters, its user rewards and every call in flight.
 */
module Rewards {
  import opened Prelude
  import opened Tally

  /** The columns of the reward that the checks read. UpdateReward can change only `active`. */
  datatype Reward = Reward(active: bool, deleted: bool, totalAvailable: Option<int>, userLimit: int, totalClaimed: int)

  datatype Pc = Reading | Counting | Inserting | Incrementing | Over

  datatype Call = Call(user: int, pc: Pc)

  /** `rows` are the users of the reward's user_rewards; `lost` counts failed increments. */
  datatype State = State(reward: Reward, rows: seq<int>, lost: nat, calls: seq<Call>)

  /** How many calls may be in flight: at all, and for one user. */
  datatype Limits = Limits(total: nat, perUser: int -> nat)

  datatype Event =
    | Arrive(user: int)
    | Act(k: nat, fault: bool)
    | UpdateReward(active: bool)
    | DeleteReward

  function Count(calls: seq<Call>, p: Call -> bool): nat {
    if calls == [] then 0
    else Count(calls[..|calls| - 1], p) + (if p(calls[|calls| - 1]) then 1 else 0)
  }

  function RowsOf(rows: seq<int>, user: int): nat {
    if rows == [] then 0
    else RowsOf(rows[..|rows| - 1], user) + (if rows[|rows| - 1] == user then 1 else 0)
  }

  predicate Live(c: Call) { !c.pc.Over? }

  /** Past the check of the total, and so able to increment it. */
  predicate Passed(c: Call) { c.pc.Counting? || c.pc.Inserting? || c.pc.Incrementing? }

  predicate Incremental(c: Call) { c.pc.Incrementing? }

  function LiveOf(user: int): Call -> bool { (c: Call) => c.user == user && !c.pc.Over? }

  /** Past the check of the user's limit, and about to insert. */
  function InsertingOf(user: int): Call -> bool { (c: Call) => c.user == user && c.pc.Inserting? }

  /** The reward is open: TotalAvailable is not reached. */
  predicate Open(r: Reward) { r.totalAvailable.Some? ==> r.totalClaimed < r.totalAvailable.value }

  function NextPc(s: State, c: Call, fault: bool): Pc {
    match c.pc
    case Reading => if fault || s.reward.deleted || !s.reward.active || !Open(s.reward) then Over else Counting
    case Counting => if fault || RowsOf(s.rows, c.user) >= s.reward.userLimit then Over else Inserting
    case Inserting => if fault then Over else Incrementing
    case Incrementing => Over
    case Over => Over
  }

  function ActOn(s: State, k: nat, fault: bool): State
    requires k < |s.calls|
  {
    var c := s.calls[k];
    var t := s.(calls := s.calls[k := c.(pc := NextPc(s, c, fault))]);
    if c.pc.Inserting? && !fault then t.(rows := s.rows + [c.user])
    else if c.pc.Incrementing? && !fault then t.(reward := s.reward.(totalClaimed := s.reward.totalClaimed + 1))
    else if c.pc.Incrementing? then t.(lost := s.lost + 1)
    else t
  }

  function Step(l: Limits, s: State, e: Event): State {
    match e
    case Arrive(u) =>
      if Count(s.calls, Live) < l.total && Count(s.calls, LiveOf(u)) < l.perUser(u)
      then s.(calls := s.calls + [Call(u, Reading)]) else s
    case Act(k, fault) => if k < |s.calls| then ActOn(s, k, fault) else s
    case UpdateReward(active) => s.(reward := s.reward.(active := active))
    case DeleteReward => s.(reward := s.reward.(deleted := true))
  }

  function Run(l: Limits, s: State, es: seq<Event>): State {
    if es == [] then s else Step(l, Run(l, s, es[..|es| - 1]), es[|es| - 1])
  }

  /** CreateReward: nothing claimed yet. */
  function Init(totalAvailable: Option<int>, userLimit: int): State {
    State(Reward(true, false, totalAvailable, userLimit, 0), [], 0, [])
  }

  /** The most that k concurrent calls can reach when each checks against the limit: none
      when there are no calls or the limit lets none pass. */
  function Most(limit: int, k: nat): int {
    if limit <= 0 || k == 0 then 0 else limit + k - 1
  }

  // ---------------------------------------------------------------- counting calls

  /** How many calls there are that p holds of. */
  lemma {:induction false} CountIsNumber(calls: seq<Call>, p: Call -> bool)
    ensures Count(calls, p) == Number(calls, p)
  {
    if calls != [] {
      CountIsNumber(calls[..|calls| - 1], p);
      NumberSnoc(calls[..|calls| - 1], calls[|calls| - 1], p);
      assert calls == calls[..|calls| - 1] + [calls[|calls| - 1]];
    }
  }

  lemma {:induction false} RowsAreNumber(rows: seq<int>, user: int)
    ensures RowsOf(rows, user) == Number(rows, u => u == user)
  {
    if rows != [] {
      RowsAreNumber(rows[..|rows| - 1], user);
      NumberSnoc(rows[..|rows| - 1], rows[|rows| - 1], u => u == user);
      assert rows == rows[..|rows| - 1] + [rows[|rows| - 1]];
    }
  }

  lemma {:induction false} CountUpdate(calls: seq<Call>, k: nat, c: Call, p: Call -> bool)
    requires k < |calls|
    ensures Count(calls[k := c], p) == Count(calls, p) - (if p(calls[k]) then 1 else 0) + (if p(c) then 1 else 0)
  {
    if k < |calls| - 1 {
      assert calls[k := c][..|calls| - 1] == calls[..|calls| - 1][k := c];
      CountUpdate(calls[..|calls| - 1], k, c, p);
    } else {
      assert calls[k := c][..|calls| - 1] == calls[..|calls| - 1];
    }
  }

  lemma CountAppend(calls: seq<Call>, c: Call, p: Call -> bool)
    ensures Count(calls + [c], p) == Count(calls, p) + (if p(c) then 1 else 0)
  {
    assert (calls + [c])[..|calls|] == calls;
  }

  lemma {:induction false} CountImplied(calls: seq<Call>, p: Call -> bool, q: Call -> bool)
    requires forall c: Call :: p(c) ==> q(c)
    ensures Count(calls, p) <= Count(calls, q)
  {
    if calls != [] {
      CountImplied(calls[..|calls| - 1], p, q);
    }
  }

  lemma {:induction false} CountStrict(calls: seq<Call>, k: nat, p: Call -> bool, q: Call -> bool)
    requires forall c: Call :: p(c) ==> q(c)
    requires k < |calls| && q(calls[k]) && !p(calls[k])
    ensures Count(calls, p) < Count(calls, q)
  {
    if k < |calls| - 1 {
      CountStrict(calls[..|calls| - 1], k, p, q);
    } else {
      CountImplied(calls[..|calls| - 1], p, q);
    }
  }

  // ---------------------------------------------------------------- what every run keeps

  ghost predicate FewCalls(l: Limits, s: State) {
    && Count(s.calls, Live) <= l.total
    && forall u :: Count(s.calls, LiveOf(u)) <= l.perUser(u)
  }

  /** Claims made and claims still on their way stay within the overshoot. */
  predicate TotalSafe(l: Limits, s: State) {
    && s.reward.totalClaimed >= 0
    && (s.reward.totalAvailable.Some? ==>
          s.reward.totalClaimed + Count(s.calls, Passed) <= Most(s.reward.totalAvailable.value, l.total))
  }

  predicate RowsBalanced(s: State) {
    |s.rows| == s.reward.totalClaimed + s.lost + Count(s.calls, Incremental)
  }

  predicate UserSafe(l: Limits, s: State, u: int) {
    RowsOf(s.rows, u) + Count(s.calls, InsertingOf(u)) <= Most(s.reward.userLimit, l.perUser(u))
  }

  ghost predicate Inv(l: Limits, s: State) {
    && FewCalls(l, s) && TotalSafe(l, s) && RowsBalanced(s)
    && forall u :: UserSafe(l, s, u)
  }

  lemma FewCallsKept(l: Limits, s: State, e: Event)
    requires FewCalls(l, s)
    ensures FewCalls(l, Step(l, s, e))
  {
    match e
    case Arrive(u) =>
      CountAppend(s.calls, Call(u, Reading), Live);
      forall v ensures Count(Step(l, s, e).calls, LiveOf(v)) <= l.perUser(v) {
        CountAppend(s.calls, Call(u, Reading), LiveOf(v));
      }
    case Act(k, fault) =>
      if k < |s.calls| {
        var c := s.calls[k].(pc := NextPc(s, s.calls[k], fault));
        CountUpdate(s.calls, k, c, Live);
        forall v ensures Count(Step(l, s, e).calls, LiveOf(v)) <= l.perUser(v) {
          CountUpdate(s.calls, k, c, LiveOf(v));
        }
      }
    case _ =>
  }

  lemma TotalKept(l: Limits, s: State, e: Event)
    requires FewCalls(l, s) && TotalSafe(l, s)
    ensures TotalSafe(l, Step(l, s, e))
  {
    match e
    case Arrive(u) => CountAppend(s.calls, Call(u, Reading), Passed);
    case Act(k, fault) =>
      if k < |s.calls| {
        CountUpdate(s.calls, k, s.calls[k].(pc := NextPc(s, s.calls[k], fault)), Passed);
        if s.calls[k].pc.Reading? {
          CountStrict(s.calls, k, Passed, Live);
        }
      }
    case _ =>
  }

  lemma RowsKept(l: Limits, s: State, e: Event)
    requires RowsBalanced(s)
    ensures RowsBalanced(Step(l, s, e))
  {
    match e
    case Arrive(u) => CountAppend(s.calls, Call(u, Reading), Incremental);
    case Act(k, fault) =>
      if k < |s.calls| {
        CountUpdate(s.calls, k, s.calls[k].(pc := NextPc(s, s.calls[k], fault)), Incremental);
      }
    case _ =>
  }

  lemma UserKept(l: Limits, s: State, e: Event, u: int)
    requires FewCalls(l, s) && UserSafe(l, s, u)
    ensures UserSafe(l, Step(l, s, e), u)
  {
    match e
    case Arrive(v) => CountAppend(s.calls, Call(v, Reading), InsertingOf(u));
    case Act(k, fault) =>
      if k < |s.calls| {
        CountUpdate(s.calls, k, s.calls[k].(pc := NextPc(s, s.calls[k], fault)), InsertingOf(u));
        if s.calls[k].pc.Counting? && s.calls[k].user == u {
          CountStrict(s.calls, k, InsertingOf(u), LiveOf(u));
        }
        assert (s.rows + [s.calls[k].user])[..|s.rows|] == s.rows;
      }
    case _ =>
  }

  lemma StepKeeps(l: Limits, s: State, e: Event)
    requires Inv(l, s)
    ensures Inv(l, Step(l, s, e))
  {
    hide Step;
    FewCallsKept(l, s, e);
    TotalKept(l, s, e);
    RowsKept(l, s, e);
    forall u ensures UserSafe(l, Step(l, s, e), u) {
      UserKept(l, s, e, u);
    }
  }

  lemma {:induction false} RunKeeps(l: Limits, s: State, es: seq<Event>)
    requires Inv(l, s)
    ensures Inv(l, Run(l, s, es))
    ensures Run(l, s, es).reward.totalAvailable == s.reward.totalAvailable
    ensures Run(l, s, es).reward.userLimit == s.reward.userLimit
  {
    if es != [] {
      RunKeeps(l, s, es[..|es| - 1]);
      StepKeeps(l, Run(l, s, es[..|es| - 1]), es[|es| - 1]);
    }
  }

  lemma InitInv(l: Limits, totalAvailable: Option<int>, userLimit: int)
    ensures Inv(l, Init(totalAvailable, userLimit))
  {}

  /** Main result: with at most l.total calls in flight, and at most l.perUser(u) for user u,
      in every interleaving the claims pass the total by less than the calls in flight, a
      user's rewards pass the limit by less than that user's calls, a total or a limit that
      is not positive lets nothing through, and every row is claimed, about to be claimed, or
      lost to a failed increment. */
  lemma Overshoot(l: Limits, totalAvailable: Option<int>, userLimit: int, es: seq<Event>, u: int)
    ensures var s := Run(l, Init(totalAvailable, userLimit), es);
      && (totalAvailable.Some? ==>
            s.reward.totalClaimed <=
              if totalAvailable.value <= 0 || l.total == 0 then 0 else totalAvailable.value + l.total - 1)
      && |s.rows| == s.reward.totalClaimed + s.lost + Count(s.calls, Incremental)
      && RowsOf(s.rows, u) <= if userLimit <= 0 || l.perUser(u) == 0 then 0 else userLimit + l.perUser(u) - 1
  {
    InitInv(l, totalAvailable, userLimit);
    RunKeeps(l, Init(totalAvailable, userLimit), es);
    assert UserSafe(l, Run(l, Init(totalAvailable, userLimit), es), u);
  }

  /** One call at a time and no failed increment: the limits are exact. */
  lemma SerialIsExact(l: Limits, totalAvailable: Option<int>, userLimit: int, es: seq<Event>, u: int)
    requires l.total == 1 && l.perUser(u) == 1
    requires Run(l, Init(totalAvailable, userLimit), es).lost == 0
    ensures var s := Run(l, Init(totalAvailable, userLimit), es);
      && (totalAvailable.Some? ==> |s.rows| <= Most(totalAvailable.value, 1))
      && RowsOf(s.rows, u) <= Most(userLimit, 1)
  {
    Overshoot(l, totalAvailable, userLimit, es, u);
    InitInv(l, totalAvailable, userLimit);
    RunKeeps(l, Init(totalAvailable, userLimit), es);
    CountImplied(Run(l, Init(totalAvailable, userLimit), es).calls, Incremental, Passed);
  }

  // ---------------------------------------------------------------- a closed reward

  /** Past the check of the total and not yet inserted. */
  predicate MayInsert(c: Call) { c.pc.Counting? || c.pc.Inserting? }

  predicate Closed(r: Reward) { r.deleted || !r.active }

  lemma ClosedStep(l: Limits, s: State, e: Event)
    requires Closed(s.reward) && (s.reward.deleted || e != UpdateReward(true))
    ensures var t := Step(l, s, e);
      && Closed(t.reward) && (s.reward.deleted ==> t.reward.deleted)
      && |t.rows| + Count(t.calls, MayInsert) <= |s.rows| + Count(s.calls, MayInsert)
  {
    match e
    case Arrive(u) => CountAppend(s.calls, Call(u, Reading), MayInsert);
    case Act(k, fault) =>
      if k < |s.calls| {
        CountUpdate(s.calls, k, s.calls[k].(pc := NextPc(s, s.calls[k], fault)), MayInsert);
      }
    case _ =>
  }

  /** Main result: once a reward is deleted, or deactivated and not activated again, only calls
      that had read it before still grant it, in every interleaving. */
  lemma {:induction false} ClosedIsFinal(l: Limits, s: State, es: seq<Event>)
    requires Closed(s.reward) && (s.reward.deleted || UpdateReward(true) !in es)
    ensures var t := Run(l, s, es);
      && Closed(t.reward) && (s.reward.deleted ==> t.reward.deleted)
      && |t.rows| + Count(t.calls, MayInsert) <= |s.rows| + Count(s.calls, MayInsert)
  {
    hide Step;
    if es != [] {
      ClosedIsFinal(l, s, es[..|es| - 1]);
      ClosedStep(l, Run(l, s, es[..|es| - 1]), es[|es| - 1]);
    }
  }

  /** DeleteReward and deactivation close the reward for calls that come later. */
  lemma Closes(l: Limits, s: State, e: Event, es: seq<Event>)
    requires e == DeleteReward || (e == UpdateReward(false) && UpdateReward(true) !in es)
    ensures |Run(l, Step(l, s, e), es).rows| <= |s.rows| + Count(s.calls, MayInsert)
  {
    ClosedIsFinal(l, Step(l, s, e), es);
  }

  // ---------------------------------------------------------------- the bound is reached

  ghost predicate Reaches(l: Limits, s: State, t: State) {
    exists es :: Run(l, s, es) == t
  }

  lemma {:induction false} RunAppend(l: Limits, s: State, a: seq<Event>, b: seq<Event>)
    ensures Run(l, s, a + b) == Run(l, Run(l, s, a), b)
  {
    hide Step;
    if b == [] {
      assert a + b == a;
    } else {
      RunAppend(l, s, a, b[..|b| - 1]);
      assert (a + b)[..|a + b| - 1] == a + b[..|b| - 1];
    }
  }

  lemma ReachesTrans(l: Limits, s: State, t: State, v: State)
    requires Reaches(l, s, t) && Reaches(l, t, v)
    ensures Reaches(l, s, v)
  {
    hide Run;
    var a :| Run(l, s, a) == t;
    var b :| Run(l, t, b) == v;
    RunAppend(l, s, a, b);
  }

  lemma ReachesStep(l: Limits, s: State, e: Event)
    ensures Reaches(l, s, Step(l, s, e))
  {
    hide Step;
    assert [e][..0] == [];
    assert Run(l, s, [e]) == Step(l, s, e);
  }

  /** n users have claimed, and the next j have passed the check of the total. */
  function Shape(total: int, limit: int, n: nat, j: nat): State {
    State(Reward(true, false, Some(total), limit, n), seq(n, i => i), 0,
          seq(n + j, i => Call(i, if i < n then Over else Counting)))
  }

  lemma {:induction false} ShapeCalls(total: int, limit: int, n: nat, j: nat)
    ensures Count(Shape(total, limit, n, j).calls, Live) == j
    decreases n + j
  {
    var calls := Shape(total, limit, n, j).calls;
    if j > 0 {
      assert calls[..n + j - 1] == Shape(total, limit, n, j - 1).calls;
      ShapeCalls(total, limit, n, j - 1);
    } else if n > 0 {
      assert calls[..n - 1] == Shape(total, limit, n - 1, 0).calls;
      ShapeCalls(total, limit, n - 1, 0);
    }
  }

  lemma {:induction false} NobodyElse(calls: seq<Call>, u: int)
    requires forall k :: 0 <= k < |calls| ==> calls[k].user != u
    ensures Count(calls, LiveOf(u)) == 0
  {
    if calls != [] {
      NobodyElse(calls[..|calls| - 1], u);
    }
  }

  lemma {:induction false} NoRowsOf(rows: seq<int>, u: int)
    requires u !in rows
    ensures RowsOf(rows, u) == 0
  {
    if rows != [] {
      NoRowsOf(rows[..|rows| - 1], u);
    }
  }

  /** While the reward is open and there is room, one more user passes the check. */
  lemma OneMorePasses(l: Limits, total: int, limit: int, n: nat, j: nat)
    requires n < total && j < l.total && l.perUser(n + j) >= 1
    ensures Reaches(l, Shape(total, limit, n, j), Shape(total, limit, n, j + 1))
  {
    var s, t := Shape(total, limit, n, j), Shape(total, limit, n, j + 1);
    ShapeCalls(total, limit, n, j);
    NobodyElse(s.calls, n + j);
    var arrived := s.(calls := s.calls + [Call(n + j, Reading)]);
    assert Step(l, s, Arrive(n + j)) == arrived;
    assert arrived.calls[n + j := Call(n + j, Counting)] == t.calls;
    assert Step(l, arrived, Act(n + j, false)) == t;
    ReachesStep(l, s, Arrive(n + j));
    ReachesStep(l, arrived, Act(n + j, false));
    ReachesTrans(l, s, arrived, t);
  }

  /** A user who has passed the check of the total claims, whatever the total is by now. */
  lemma OneMoreClaims(l: Limits, total: int, limit: int, n: nat, j: nat)
    requires j > 0 && limit >= 1
    ensures Reaches(l, Shape(total, limit, n, j), Shape(total, limit, n + 1, j - 1))
  {
    var s, t := Shape(total, limit, n, j), Shape(total, limit, n + 1, j - 1);
    NoRowsOf(s.rows, n);
    var s1 := s.(calls := s.calls[n := Call(n, Inserting)]);
    var s2 := s.(rows := s.rows + [n], calls := s.calls[n := Call(n, Incrementing)]);
    assert s.calls[n] == Call(n, Counting);
    assert Step(l, s, Act(n, false)) == s1;
    assert s1.calls[n := Call(n, Incrementing)] == s2.calls;
    assert Step(l, s1, Act(n, false)) == s2;
    assert s2.calls[n := Call(n, Over)] == t.calls && s2.rows == t.rows;
    assert Step(l, s2, Act(n, false)) == t;
    ReachesStep(l, s, Act(n, false));
    ReachesStep(l, s1, Act(n, false));
    ReachesStep(l, s2, Act(n, false));
    ReachesTrans(l, s, s1, s2);
    ReachesTrans(l, s, s2, t);
  }

  lemma ReachesSelf(l: Limits, s: State)
    ensures Reaches(l, s, s)
  {
    assert Run(l, s, []) == s;
  }

  lemma {:induction false} ClaimInTurn(l: Limits, total: int, limit: int, n: nat)
    requires n < total && limit >= 1 && l.total >= 1 && forall u :: l.perUser(u) >= 1
    ensures Reaches(l, Shape(total, limit, 0, 0), Shape(total, limit, n, 0))
  {
    hide Reaches, Shape;
    if n == 0 {
      ReachesSelf(l, Shape(total, limit, 0, 0));
    } else {
      ClaimInTurn(l, total, limit, n - 1);
      OneMorePasses(l, total, limit, n - 1, 0);
      OneMoreClaims(l, total, limit, n - 1, 1);
      ReachesTrans(l, Shape(total, limit, n - 1, 0), Shape(total, limit, n - 1, 1), Shape(total, limit, n, 0));
      ReachesTrans(l, Shape(total, limit, 0, 0), Shape(total, limit, n - 1, 0), Shape(total, limit, n, 0));
    }
  }

  lemma {:induction false} PassTogether(l: Limits, total: int, limit: int, n: nat, j: nat)
    requires n < total && j <= l.total && forall u :: l.perUser(u) >= 1
    ensures Reaches(l, Shape(total, limit, n, 0), Shape(total, limit, n, j))
  {
    hide Reaches, Shape;
    if j == 0 {
      ReachesSelf(l, Shape(total, limit, n, 0));
    } else {
      PassTogether(l, total, limit, n, j - 1);
      OneMorePasses(l, total, limit, n, j - 1);
      ReachesTrans(l, Shape(total, limit, n, 0), Shape(total, limit, n, j - 1), Shape(total, limit, n, j));
    }
  }

  lemma {:induction false} ClaimTogether(l: Limits, total: int, limit: int, n: nat, j: nat)
    requires limit >= 1
    ensures Reaches(l, Shape(total, limit, n, j), Shape(total, limit, n + j, 0))
    decreases j
  {
    hide Reaches, Shape;
    if j == 0 {
      ReachesSelf(l, Shape(total, limit, n, 0));
    } else {
      OneMoreClaims(l, total, limit, n, j);
      ClaimTogether(l, total, limit, n + 1, j - 1);
      ReachesTrans(l, Shape(total, limit, n, j), Shape(total, limit, n + 1, j - 1), Shape(total, limit, n + j, 0));
    }
  }

  /** Main result: the bound on the total is exact. For every total of at least one, some
      interleaving of l.total calls claims exactly l.total - 1 more than the total. */
  lemma OvershootIsReached(l: Limits, total: int, limit: int)
    requires total >= 1 && limit >= 1 && l.total >= 1 && forall u :: l.perUser(u) >= 1
    ensures exists es :: Run(l, Init(Some(total), limit), es).reward.totalClaimed == Most(total, l.total)
  {
    assert Init(Some(total), limit) == Shape(total, limit, 0, 0);
    ClaimInTurn(l, total, limit, total - 1);
    PassTogether(l, total, limit, total - 1, l.total);
    ClaimTogether(l, total, limit, total - 1, l.total);
    var before, last := Shape(total, limit, total - 1, 0), Shape(total, limit, total - 1 + l.total, 0);
    ReachesTrans(l, before, Shape(total, limit, total - 1, l.total), last);
    ReachesTrans(l, Shape(total, limit, 0, 0), before, last);
    var es :| Run(l, Shape(total, limit, 0, 0), es) == last;
  }

  // ---------------------------------------------------------------- the user's bound is reached

  /** One user has n rows, and j more calls have passed the check of the user's limit. */
  function UserShape(u: int, limit: int, n: nat, j: nat): State {
    State(Reward(true, false, None, limit, n), seq(n, i => u), 0,
          seq(n + j, i => Call(u, if i < n then Over else Inserting)))
  }

  lemma {:induction false} UserShapeCalls(u: int, limit: int, n: nat, j: nat)
    ensures Count(UserShape(u, limit, n, j).calls, Live) == j == Count(UserShape(u, limit, n, j).calls, LiveOf(u))
    decreases n + j
  {
    var calls := UserShape(u, limit, n, j).calls;
    if j > 0 {
      assert calls[..n + j - 1] == UserShape(u, limit, n, j - 1).calls;
      UserShapeCalls(u, limit, n, j - 1);
    } else if n > 0 {
      assert calls[..n - 1] == UserShape(u, limit, n - 1, 0).calls;
      UserShapeCalls(u, limit, n - 1, 0);
    }
  }

  lemma {:induction false} UserShapeRows(u: int, n: nat)
    ensures RowsOf(seq(n, i => u), u) == n
  {
    if n > 0 {
      assert seq(n, i => u)[..n - 1] == seq(n - 1, i => u);
      UserShapeRows(u, n - 1);
    }
  }

  /** While the user is below the limit and may call, one more call passes both checks. */
  lemma OneMoreCounted(l: Limits, u: int, limit: int, n: nat, j: nat)
    requires n < limit && j < l.total && j < l.perUser(u)
    ensures Reaches(l, UserShape(u, limit, n, j), UserShape(u, limit, n, j + 1))
  {
    var s, t := UserShape(u, limit, n, j), UserShape(u, limit, n, j + 1);
    UserShapeCalls(u, limit, n, j);
    UserShapeRows(u, n);
    var s1 := s.(calls := s.calls + [Call(u, Reading)]);
    var s2 := s.(calls := s.calls + [Call(u, Counting)]);
    assert Step(l, s, Arrive(u)) == s1;
    assert s1.calls[n + j := Call(u, Counting)] == s2.calls;
    assert Step(l, s1, Act(n + j, false)) == s2;
    assert s2.calls[n + j := Call(u, Inserting)] == t.calls;
    assert Step(l, s2, Act(n + j, false)) == t;
    ReachesStep(l, s, Arrive(u));
    ReachesStep(l, s1, Act(n + j, false));
    ReachesStep(l, s2, Act(n + j, false));
    ReachesTrans(l, s, s1, s2);
    ReachesTrans(l, s, s2, t);
  }

  /** A call that has passed the check inserts, however many rows there are by now. */
  lemma OneMoreInserts(l: Limits, u: int, limit: int, n: nat, j: nat)
    requires j > 0
    ensures Reaches(l, UserShape(u, limit, n, j), UserShape(u, limit, n + 1, j - 1))
  {
    var s, t := UserShape(u, limit, n, j), UserShape(u, limit, n + 1, j - 1);
    var s1 := s.(rows := s.rows + [u], calls := s.calls[n := Call(u, Incrementing)]);
    assert Step(l, s, Act(n, false)) == s1;
    assert s1.calls[n := Call(u, Over)] == t.calls && s1.rows == t.rows;
    assert Step(l, s1, Act(n, false)) == t;
    ReachesStep(l, s, Act(n, false));
    ReachesStep(l, s1, Act(n, false));
    ReachesTrans(l, s, s1, t);
  }

  lemma {:induction false} InsertInTurn(l: Limits, u: int, limit: int, n: nat)
    requires n < limit && l.total >= 1 && l.perUser(u) >= 1
    ensures Reaches(l, UserShape(u, limit, 0, 0), UserShape(u, limit, n, 0))
  {
    hide Reaches, UserShape;
    if n == 0 {
      ReachesSelf(l, UserShape(u, limit, 0, 0));
    } else {
      var before, mid, after := UserShape(u, limit, n - 1, 0), UserShape(u, limit, n - 1, 1), UserShape(u, limit, n, 0);
      InsertInTurn(l, u, limit, n - 1);
      OneMoreCounted(l, u, limit, n - 1, 0);
      OneMoreInserts(l, u, limit, n - 1, 1);
      ReachesTrans(l, before, mid, after);
      ReachesTrans(l, UserShape(u, limit, 0, 0), before, after);
    }
  }

  lemma {:induction false} CountTogether(l: Limits, u: int, limit: int, n: nat, j: nat)
    requires n < limit && j <= l.total && j <= l.perUser(u)
    ensures Reaches(l, UserShape(u, limit, n, 0), UserShape(u, limit, n, j))
  {
    hide Reaches, UserShape;
    if j == 0 {
      ReachesSelf(l, UserShape(u, limit, n, 0));
    } else {
      CountTogether(l, u, limit, n, j - 1);
      OneMoreCounted(l, u, limit, n, j - 1);
      ReachesTrans(l, UserShape(u, limit, n, 0), UserShape(u, limit, n, j - 1), UserShape(u, limit, n, j));
    }
  }

  lemma {:induction false} InsertTogether(l: Limits, u: int, limit: int, n: nat, j: nat)
    ensures Reaches(l, UserShape(u, limit, n, j), UserShape(u, limit, n + j, 0))
    decreases j
  {
    hide Reaches, UserShape;
    if j == 0 {
      ReachesSelf(l, UserShape(u, limit, n, 0));
    } else {
      OneMoreInserts(l, u, limit, n, j);
      InsertTogether(l, u, limit, n + 1, j - 1);
      ReachesTrans(l, UserShape(u, limit, n, j), UserShape(u, limit, n + 1, j - 1), UserShape(u, limit, n + j, 0));
    }
  }

  /** Main result: the bound on a user is exact too. For every limit of at least one, some
      interleaving of that user's calls leaves exactly one row less than limit and calls
      together. */
  lemma UserOvershootIsReached(l: Limits, u: int, limit: int)
    requires limit >= 1 && 1 <= l.perUser(u) <= l.total
    ensures exists es :: RowsOf(Run(l, Init(None, limit), es).rows, u) == Most(limit, l.perUser(u))
  {
    var k := l.perUser(u);
    assert Init(None, limit) == UserShape(u, limit, 0, 0);
    InsertInTurn(l, u, limit, limit - 1);
    CountTogether(l, u, limit, limit - 1, k);
    InsertTogether(l, u, limit, limit - 1, k);
    var before, last := UserShape(u, limit, limit - 1, 0), UserShape(u, limit, limit - 1 + k, 0);
    ReachesTrans(l, before, UserShape(u, limit, limit - 1, k), last);
    ReachesTrans(l, UserShape(u, limit, 0, 0), before, last);
    var es :| Run(l, UserShape(u, limit, 0, 0), es) == last;
    UserShapeRows(u, limit - 1 + k);
  }
}

/**
 The fragment of SQL the waitlist builders emit: conditions with numbered placeholders,
 evaluated over a row with SQL's three truth values.
 */
module Sql {
  import opened Prelude
  import Like

  /** A row of waitlist_users; `source` and `metadata` may be NULL. */
  datatype User = User(
    id: int, campaign: int, deleted: bool, email: string, status: string, source: Option<string>,
    emailVerified: bool, referralCount: int, position: int, createdAt: int,
    metadata: Option<map<string, string>>)

  datatype Arg =
    | Id(id: int)
    | Text(text: string)
    | Texts(texts: seq<string>)
    | Flag(flag: bool)
    | Number(number: int)
    | Time(time: int)

  /** A placeholder `$n` is the number n. */
  type Hole = nat

  datatype Condition =
    | CampaignIs(hole: Hole)
    | NotDeleted
    | StatusIn(holes: seq<Hole>)
    | SourceIn(holes: seq<Hole>)
    | StatusAny(hole: Hole)
    | SourceAny(hole: Hole)
    | VerifiedIs(hole: Hole)
    | HasReferrals
    | NoReferrals
    | ReferralsAtLeast(hole: Hole)
    | PositionAtLeast(hole: Hole)
    | PositionAtMost(hole: Hole)
    | CreatedFrom(hole: Hole)
    | CreatedTo(hole: Hole)
    | MetadataILike(key: Hole, pattern: Hole)

  datatype Truth = True | False | Unknown

  function Of(b: bool): Truth { if b then True else False }

  /** The argument a placeholder stands for, when there is one. */
  function At(args: seq<Arg>, hole: Hole): Option<Arg> {
    if 1 <= hole <= |args| then Some(args[hole - 1]) else None
  }

  /** A comparison with an argument of the wrong type, or none, is never true. */
  function Eval(c: Condition, args: seq<Arg>, u: User): Truth {
    match c
    case CampaignIs(h) =>
      (match At(args, h) case Some(Id(i)) => Of(u.campaign == i) case _ => Unknown)
    case NotDeleted => Of(!u.deleted)
    case StatusIn(hs) => Of(exists i :: 0 <= i < |hs| && At(args, hs[i]) == Some(Text(u.status)))
    case SourceIn(hs) =>
      if u.source == None then Unknown
      else Of(exists i :: 0 <= i < |hs| && At(args, hs[i]) == Some(Text(u.source.value)))
    case StatusAny(h) =>
      (match At(args, h) case Some(Texts(ts)) => Of(u.status in ts) case _ => Unknown)
    case SourceAny(h) =>
      (match At(args, h)
       case Some(Texts(ts)) => if u.source == None then Unknown else Of(u.source.value in ts)
       case _ => Unknown)
    case VerifiedIs(h) =>
      (match At(args, h) case Some(Flag(b)) => Of(u.emailVerified == b) case _ => Unknown)
    case HasReferrals => Of(u.referralCount > 0)
    case NoReferrals => Of(u.referralCount == 0)
    case ReferralsAtLeast(h) =>
      (match At(args, h) case Some(Number(n)) => Of(u.referralCount >= n) case _ => Unknown)
    case PositionAtLeast(h) =>
      (match At(args, h) case Some(Number(n)) => Of(u.position >= n) case _ => Unknown)
    case PositionAtMost(h) =>
      (match At(args, h) case Some(Number(n)) => Of(u.position <= n) case _ => Unknown)
    case CreatedFrom(h) =>
      (match At(args, h) case Some(Time(t)) => Of(u.createdAt >= t) case _ => Unknown)
    case CreatedTo(h) =>
      (match At(args, h) case Some(Time(t)) => Of(u.createdAt <= t) case _ => Unknown)
    case MetadataILike(k, p) =>
      (match (At(args, k), At(args, p))
       case (Some(Text(key)), Some(Text(pattern))) =>
         if u.metadata == None || key !in u.metadata.value then Unknown
         else Of(Like.ILike(u.metadata.value[key], pattern))
       case _ => Unknown)
  }

  function Holes(c: Condition): seq<Hole> {
    match c
    case CampaignIs(h) => [h]
    case NotDeleted => []
    case StatusIn(hs) => hs
    case SourceIn(hs) => hs
    case StatusAny(h) => [h]
    case SourceAny(h) => [h]
    case VerifiedIs(h) => [h]
    case HasReferrals => []
    case NoReferrals => []
    case ReferralsAtLeast(h) => [h]
    case PositionAtLeast(h) => [h]
    case PositionAtMost(h) => [h]
    case CreatedFrom(h) => [h]
    case CreatedTo(h) => [h]
    case MetadataILike(k, p) => [k, p]
  }

  /** A WHERE clause keeps a row when every conjunct is true of it. */
  ghost predicate Holds(where: seq<Condition>, args: seq<Arg>, u: User) {
    forall i :: 0 <= i < |where| ==> Eval(where[i], args, u) == True
  }

  function AllHoles(where: seq<Condition>): seq<Hole> {
    if where == [] then [] else AllHoles(where[..|where| - 1]) + Holes(where[|where| - 1])
  }

  /** The numbers from lo to hi - 1. */
  function Numbers(lo: nat, hi: nat): (r: seq<Hole>)
    requires lo <= hi
    ensures |r| == hi - lo && forall i :: 0 <= i < |r| ==> r[i] == lo + i
  {
    seq(hi - lo, i requires 0 <= i => lo + i)
  }

  /** Reading the text from left to right the placeholders are $1, $2, ... without gap or
      repeat, and there is exactly one argument for each. */
  ghost predicate Numbered(where: seq<Condition>, args: seq<Arg>) {
    AllHoles(where) == Numbers(1, |args| + 1)
  }

  /** Arguments appended later do not change a condition whose placeholders have theirs. */
  lemma EvalStable(c: Condition, args: seq<Arg>, more: seq<Arg>, u: User)
    requires forall i :: 0 <= i < |Holes(c)| ==> 1 <= Holes(c)[i] <= |args|
    ensures Eval(c, args + more, u) == Eval(c, args, u)
  {
    hide Like.ILike;
    var hs := Holes(c);
    forall i | 0 <= i < |hs| ensures At(args + more, hs[i]) == At(args, hs[i]) {
    }
    match c
    case NotDeleted =>
    case HasReferrals =>
    case NoReferrals =>
    case StatusIn(_) =>
    case SourceIn(_) =>
    case MetadataILike(k, p) => assert hs[0] == k && hs[1] == p;
    case _ => assert hs[0] == c.hole;
  }

  lemma {:induction false} HolesIn(where: seq<Condition>, i: nat, k: nat)
    requires i < |where| && k < |Holes(where[i])|
    ensures Holes(where[i])[k] in AllHoles(where)
  {
    if i < |where| - 1 {
      HolesIn(where[..|where| - 1], i, k);
    }
  }

  /** Arguments for later parts of a query leave the WHERE clause alone. */
  lemma MoreArgs(where: seq<Condition>, args: seq<Arg>, more: seq<Arg>)
    requires Numbered(where, args)
    ensures forall u :: Holds(where, args + more, u) <==> Holds(where, args, u)
  {
    forall u, i | 0 <= i < |where| ensures Eval(where[i], args + more, u) == Eval(where[i], args, u) {
      forall k | 0 <= k < |Holes(where[i])| ensures 1 <= Holes(where[i])[k] <= |args| {
        HolesIn(where, i, k);
      }
      EvalStable(where[i], args, more, u);
    }
  }

  lemma HoldsBoth(where: seq<Condition>, c: Condition, args: seq<Arg>, u: User)
    ensures Holds(where + [c], args, u) <==> Holds(where, args, u) && Eval(c, args, u) == True
  {
    hide Eval;
    var all := where + [c];
    assert all[|where|] == c && forall i :: 0 <= i < |where| ==> all[i] == where[i];
    if Holds(all, args, u) {
      forall i | 0 <= i < |where| ensures Eval(where[i], args, u) == True {
        assert Eval(all[i], args, u) == True;
      }
    }
  }

  /** Appending a clause whose placeholders carry the next numbers, with their arguments,
      conjoins the clause and keeps the numbering. */
  lemma AppendClause(where: seq<Condition>, args: seq<Arg>, c: Condition, more: seq<Arg>)
    requires Numbered(where, args)
    requires Holes(c) == Numbers(|args| + 1, |args| + |more| + 1)
    ensures Numbered(where + [c], args + more)
    ensures forall u :: Holds(where + [c], args + more, u) <==> Holds(where, args, u) && Eval(c, args + more, u) == True
  {
    assert (where + [c])[..|where|] == where;
    assert Numbers(1, |args| + 1) + Numbers(|args| + 1, |args| + |more| + 1) == Numbers(1, |args + more| + 1);
    MoreArgs(where, args, more);
    forall u ensures Holds(where + [c], args + more, u) <==> Holds(where, args, u) && Eval(c, args + more, u) == True {
      HoldsBoth(where, c, args + more, u);
    }
  }

  // ---------------------------------------------------------------- whole queries

  datatype Field = Position | CreatedAt | ReferralCount | Email | Status | Source

  datatype Order = Order(field: Field, descending: bool)

  datatype Query = Query(
    countOnly: bool, where: seq<Condition>, order: Option<Order>, limit: Option<Hole>, offset: Option<Hole>)

  /** The rows of a table a WHERE clause keeps, in table order. */
  ghost function Filter(table: seq<User>, where: seq<Condition>, args: seq<Arg>): (r: seq<User>)
    ensures |r| <= |table|
  {
    if table == [] then []
    else (if Holds(where, args, table[0]) then [table[0]] else []) + Filter(table[1..], where, args)
  }

  /** Two clauses that hold of the same rows keep the same rows of every table. */
  lemma {:induction false} SameFilter(table: seq<User>, w: seq<Condition>, a: seq<Arg>, x: seq<Condition>, b: seq<Arg>)
    requires forall u :: Holds(w, a, u) <==> Holds(x, b, u)
    ensures Filter(table, w, a) == Filter(table, x, b)
  {
    if table != [] {
      SameFilter(table[1..], w, a, x, b);
    }
  }
}

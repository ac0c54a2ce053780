/**
 The segment filter compiler: hand-numbered placeholders, clause by clause. The result
 means exactly what the criteria say, and its arguments line up with its placeholders.
 */
module SegmentQuery {
  import opened Prelude
  import opened Sql
  import Like

  datatype Criteria = Criteria(
    statuses: seq<string>, sources: seq<string>, emailVerified: Option<bool>, hasReferrals: Option<bool>,
    minReferrals: Option<int>, minPosition: Option<int>, maxPosition: Option<int>,
    dateFrom: Option<int>, dateTo: Option<int>, customFields: map<string, string>)

  const NO_CRITERIA := Criteria([], [], None, None, None, None, None, None, None, map[])

  // ---------------------------------------------------------------- what criteria mean

  ghost predicate FieldMatches(key: string, value: string, u: User) {
    u.metadata.Some? && key in u.metadata.value && Like.ILike(u.metadata.value[key], "%" + value + "%")
  }

  ghost predicate FieldsMatch(fields: map<string, string>, u: User) {
    forall k :: k in fields ==> FieldMatches(k, fields[k], u)
  }

  /** A user is in the segment when every given criterion accepts it. A NULL source is in no
      list of sources, and a missing custom field contains nothing. */
  ghost predicate Matches(campaign: int, c: Criteria, u: User) {
    && u.campaign == campaign && !u.deleted
    && (c.statuses == [] || u.status in c.statuses)
    && (c.sources == [] || (u.source.Some? && u.source.value in c.sources))
    && (c.emailVerified.Some? ==> u.emailVerified == c.emailVerified.value)
    && (c.hasReferrals.Some? ==> (if c.hasReferrals.value then u.referralCount > 0 else u.referralCount == 0))
    && (c.minReferrals.Some? ==> u.referralCount >= c.minReferrals.value)
    && (c.minPosition.Some? ==> u.position >= c.minPosition.value)
    && (c.maxPosition.Some? ==> u.position <= c.maxPosition.value)
    && (c.dateFrom.Some? ==> u.createdAt >= c.dateFrom.value)
    && (c.dateTo.Some? ==> u.createdAt <= c.dateTo.value)
    && FieldsMatch(c.customFields, u)
  }

  /** The clause and arguments built so far mean the criteria handled so far. */
  ghost predicate Means(where: seq<Condition>, args: seq<Arg>, argCount: nat, campaign: int, done: Criteria) {
    && argCount == |args|
    && Numbered(where, args)
    && forall u :: Holds(where, args, u) <==> Matches(campaign, done, u)
  }

  // ---------------------------------------------------------------- one criterion at a time

  function TextArgs(values: seq<string>): (r: seq<Arg>)
    ensures |r| == |values| && forall i :: 0 <= i < |r| ==> r[i] == Text(values[i])
  {
    seq(|values|, i requires 0 <= i < |values| => Text(values[i]))
  }

  /** The placeholders of an IN list are true of exactly the listed texts. */
  lemma InList(args: seq<Arg>, values: seq<string>, holes: seq<Hole>, text: string)
    requires holes == Numbers(|args| + 1, |args| + |values| + 1)
    ensures (exists i :: 0 <= i < |holes| && At(args + TextArgs(values), holes[i]) == Some(Text(text)))
            <==> text in values
  {
    var all := args + TextArgs(values);
    forall i | 0 <= i < |values| ensures At(all, holes[i]) == Some(Text(values[i])) {
    }
    if text in values {
      var i :| 0 <= i < |values| && values[i] == text;
      assert At(all, holes[i]) == Some(Text(text));
    }
  }

  /** One more clause, with its arguments, takes care of one more criterion. */
  lemma Extend(where: seq<Condition>, args: seq<Arg>, n: nat, campaign: int, done: Criteria,
               clause: Condition, more: seq<Arg>, next: Criteria)
    requires Means(where, args, n, campaign, done)
    requires Holes(clause) == Numbers(n + 1, n + |more| + 1)
    requires forall u :: Matches(campaign, next, u) <==>
      Matches(campaign, done, u) && Eval(clause, args + more, u) == True
    ensures Means(where + [clause], args + more, n + |more|, campaign, next)
  {
    hide Holds, Matches, Numbered, Eval;
    AppendClause(where, args, clause, more);
  }

  lemma StatusesHandled(where: seq<Condition>, args: seq<Arg>, n: nat, campaign: int, done: Criteria,
                        values: seq<string>, holes: seq<Hole>)
    requires Means(where, args, n, campaign, done) && done.statuses == [] && values != []
    requires holes == Numbers(n + 1, n + 1 + |values|)
    ensures Means(where + [StatusIn(holes)], args + TextArgs(values), n + |values|, campaign, done.(statuses := values))
  {
    hide FieldsMatch, Holds, Numbered, At;
    forall u: User { InList(args, values, holes, u.status); }
    Extend(where, args, n, campaign, done, StatusIn(holes), TextArgs(values), done.(statuses := values));
  }

  lemma SourcesHandled(where: seq<Condition>, args: seq<Arg>, n: nat, campaign: int, done: Criteria,
                       values: seq<string>, holes: seq<Hole>)
    requires Means(where, args, n, campaign, done) && done.sources == [] && values != []
    requires holes == Numbers(n + 1, n + 1 + |values|)
    ensures Means(where + [SourceIn(holes)], args + TextArgs(values), n + |values|, campaign, done.(sources := values))
  {
    hide FieldsMatch, Holds, Numbered, At;
    forall u: User | u.source.Some? { InList(args, values, holes, u.source.value); }
    Extend(where, args, n, campaign, done, SourceIn(holes), TextArgs(values), done.(sources := values));
  }

  lemma ReferralsHandled(where: seq<Condition>, args: seq<Arg>, n: nat, campaign: int, done: Criteria, x: bool)
    requires Means(where, args, n, campaign, done) && done.hasReferrals == None
    ensures Means(where + [if x then HasReferrals else NoReferrals], args, n, campaign, done.(hasReferrals := Some(x)))
  {
    hide FieldsMatch, Holds, Numbered;
    assert args + [] == args;
    Extend(where, args, n, campaign, done, if x then HasReferrals else NoReferrals, [], done.(hasReferrals := Some(x)));
  }

  lemma VerifiedHandled(where: seq<Condition>, args: seq<Arg>, n: nat, campaign: int, done: Criteria, x: bool)
    requires Means(where, args, n, campaign, done) && done.emailVerified == None
    ensures Means(where + [VerifiedIs(n + 1)], args + [Flag(x)], n + 1, campaign, done.(emailVerified := Some(x)))
  {
    hide FieldsMatch, Holds, Numbered;
    assert At(args + [Flag(x)], n + 1) == Some(Flag(x));
    Extend(where, args, n, campaign, done, VerifiedIs(n + 1), [Flag(x)], done.(emailVerified := Some(x)));
  }

  lemma MinReferralsHandled(where: seq<Condition>, args: seq<Arg>, n: nat, campaign: int, done: Criteria, x: int)
    requires Means(where, args, n, campaign, done) && done.minReferrals == None
    ensures Means(where + [ReferralsAtLeast(n + 1)], args + [Number(x)], n + 1, campaign,
                  done.(minReferrals := Some(x)))
  {
    hide FieldsMatch, Holds, Numbered;
    assert At(args + [Number(x)], n + 1) == Some(Number(x));
    Extend(where, args, n, campaign, done, ReferralsAtLeast(n + 1), [Number(x)], done.(minReferrals := Some(x)));
  }

  lemma MinPositionHandled(where: seq<Condition>, args: seq<Arg>, n: nat, campaign: int, done: Criteria, x: int)
    requires Means(where, args, n, campaign, done) && done.minPosition == None
    ensures Means(where + [PositionAtLeast(n + 1)], args + [Number(x)], n + 1, campaign, done.(minPosition := Some(x)))
  {
    hide FieldsMatch, Holds, Numbered;
    assert At(args + [Number(x)], n + 1) == Some(Number(x));
    Extend(where, args, n, campaign, done, PositionAtLeast(n + 1), [Number(x)], done.(minPosition := Some(x)));
  }

  lemma MaxPositionHandled(where: seq<Condition>, args: seq<Arg>, n: nat, campaign: int, done: Criteria, x: int)
    requires Means(where, args, n, campaign, done) && done.maxPosition == None
    ensures Means(where + [PositionAtMost(n + 1)], args + [Number(x)], n + 1, campaign, done.(maxPosition := Some(x)))
  {
    hide FieldsMatch, Holds, Numbered;
    assert At(args + [Number(x)], n + 1) == Some(Number(x));
    Extend(where, args, n, campaign, done, PositionAtMost(n + 1), [Number(x)], done.(maxPosition := Some(x)));
  }

  lemma DateFromHandled(where: seq<Condition>, args: seq<Arg>, n: nat, campaign: int, done: Criteria, x: int)
    requires Means(where, args, n, campaign, done) && done.dateFrom == None
    ensures Means(where + [CreatedFrom(n + 1)], args + [Time(x)], n + 1, campaign, done.(dateFrom := Some(x)))
  {
    hide FieldsMatch, Holds, Numbered;
    assert At(args + [Time(x)], n + 1) == Some(Time(x));
    Extend(where, args, n, campaign, done, CreatedFrom(n + 1), [Time(x)], done.(dateFrom := Some(x)));
  }

  lemma DateToHandled(where: seq<Condition>, args: seq<Arg>, n: nat, campaign: int, done: Criteria, x: int)
    requires Means(where, args, n, campaign, done) && done.dateTo == None
    ensures Means(where + [CreatedTo(n + 1)], args + [Time(x)], n + 1, campaign, done.(dateTo := Some(x)))
  {
    hide FieldsMatch, Holds, Numbered;
    assert At(args + [Time(x)], n + 1) == Some(Time(x));
    Extend(where, args, n, campaign, done, CreatedTo(n + 1), [Time(x)], done.(dateTo := Some(x)));
  }

  lemma MoreFields(fields: map<string, string>, key: string, value: string, u: User)
    requires key !in fields
    ensures FieldsMatch(fields[key := value], u) <==> FieldsMatch(fields, u) && FieldMatches(key, value, u)
  {
    hide FieldMatches;
    var all := fields[key := value];
    if FieldsMatch(all, u) {
      forall k | k in fields ensures FieldMatches(k, fields[k], u) {
        assert all[k] == fields[k];
      }
      assert all[key] == value;
    }
  }

  lemma FieldClauseMeans(args: seq<Arg>, key: string, value: string)
    ensures forall u ::
      (Eval(MetadataILike(|args| + 1, |args| + 2), args + [Text(key), Text("%" + value + "%")], u) == True)
      <==> FieldMatches(key, value, u)
  {
    hide Like.ILike;
    var all := args + [Text(key), Text("%" + value + "%")];
    assert At(all, |args| + 1) == Some(Text(key)) && At(all, |args| + 2) == Some(Text("%" + value + "%"));
  }

  lemma FieldHandled(where: seq<Condition>, args: seq<Arg>, n: nat, campaign: int, done: Criteria,
                     key: string, value: string)
    requires Means(where, args, n, campaign, done) && key !in done.customFields
    ensures Means(where + [MetadataILike(n + 1, n + 2)], args + [Text(key), Text("%" + value + "%")], n + 2, campaign,
                  done.(customFields := done.customFields[key := value]))
  {
    hide FieldsMatch, Holds, Numbered, FieldMatches;
    FieldClauseMeans(args, key, value);
    forall u { MoreFields(done.customFields, key, value, u); }
    Extend(where, args, n, campaign, done, MetadataILike(n + 1, n + 2), [Text(key), Text("%" + value + "%")],
           done.(customFields := done.customFields[key := value]));
  }

  // ---------------------------------------------------------------- the builder

  method InHoles(values: seq<string>, argCount: nat) returns (holes: seq<Hole>)
    ensures holes == Numbers(argCount, argCount + |values|)
  {
    holes := [];
    for i := 0 to |values|
      invariant holes == Numbers(argCount, argCount + i)
    {
      holes := holes + [argCount + i];
    }
  }

  lemma StartMeans(campaign: int)
    ensures Means([CampaignIs(1), NotDeleted], [Id(campaign)], 1, campaign, NO_CRITERIA)
  {
    var where := [CampaignIs(1), NotDeleted];
    assert where[..1] == [CampaignIs(1)] && where[..1][..0] == [];
    assert AllHoles(where[..1]) == [1] && AllHoles(where) == [1];
    assert Numbers(1, 2) == [1];
    forall u ensures Holds(where, [Id(campaign)], u) <==> Matches(campaign, NO_CRITERIA, u) {
      assert where[0] == CampaignIs(1) && where[1] == NotDeleted;
    }
  }

  /** The clauses from the campaign condition to the verification filter. `done` is the part
      of the criteria handled so far. */
  method ListConditions(campaign: int, c: Criteria) returns (where: seq<Condition>, args: seq<Arg>, argCount: nat)
    ensures Means(where, args, argCount, campaign,
                  NO_CRITERIA.(statuses := c.statuses, sources := c.sources, emailVerified := c.emailVerified))
  {
    hide Means, Matches;
    args, argCount := [Id(campaign)], 1;
    where := [CampaignIs(1), NotDeleted];
    StartMeans(campaign);
    ghost var done := NO_CRITERIA;

    if |c.statuses| > 0 {
      argCount := argCount + 1;
      var holes := InHoles(c.statuses, argCount);
      StatusesHandled(where, args, argCount - 1, campaign, done, c.statuses, holes);
      where, args := where + [StatusIn(holes)], args + TextArgs(c.statuses);
      argCount := argCount + (|c.statuses| - 1);
    }
    done := done.(statuses := c.statuses);
    if |c.sources| > 0 {
      argCount := argCount + 1;
      var holes := InHoles(c.sources, argCount);
      SourcesHandled(where, args, argCount - 1, campaign, done, c.sources, holes);
      where, args := where + [SourceIn(holes)], args + TextArgs(c.sources);
      argCount := argCount + (|c.sources| - 1);
    }
    done := done.(sources := c.sources);
    if c.emailVerified.Some? {
      VerifiedHandled(where, args, argCount, campaign, done, c.emailVerified.value);
      argCount := argCount + 1;
      where, args := where + [VerifiedIs(argCount)], args + [Flag(c.emailVerified.value)];
    }
    done := done.(emailVerified := c.emailVerified);
  }

  /** The clauses from the referral filters to the date range. */
  method FixedConditions(campaign: int, c: Criteria) returns (where: seq<Condition>, args: seq<Arg>, argCount: nat)
    ensures Means(where, args, argCount, campaign, c.(customFields := map[]))
  {
    hide Means, Matches;
    where, args, argCount := ListConditions(campaign, c);
    ghost var done := NO_CRITERIA.(statuses := c.statuses, sources := c.sources, emailVerified := c.emailVerified);
    if c.hasReferrals.Some? {
      ReferralsHandled(where, args, argCount, campaign, done, c.hasReferrals.value);
      where := where + [if c.hasReferrals.value then HasReferrals else NoReferrals];
    }
    done := done.(hasReferrals := c.hasReferrals);
    if c.minReferrals.Some? {
      MinReferralsHandled(where, args, argCount, campaign, done, c.minReferrals.value);
      argCount := argCount + 1;
      where, args := where + [ReferralsAtLeast(argCount)], args + [Number(c.minReferrals.value)];
    }
    done := done.(minReferrals := c.minReferrals);
    if c.minPosition.Some? {
      MinPositionHandled(where, args, argCount, campaign, done, c.minPosition.value);
      argCount := argCount + 1;
      where, args := where + [PositionAtLeast(argCount)], args + [Number(c.minPosition.value)];
    }
    done := done.(minPosition := c.minPosition);
    if c.maxPosition.Some? {
      MaxPositionHandled(where, args, argCount, campaign, done, c.maxPosition.value);
      argCount := argCount + 1;
      where, args := where + [PositionAtMost(argCount)], args + [Number(c.maxPosition.value)];
    }
    done := done.(maxPosition := c.maxPosition);
    if c.dateFrom.Some? {
      DateFromHandled(where, args, argCount, campaign, done, c.dateFrom.value);
      argCount := argCount + 1;
      where, args := where + [CreatedFrom(argCount)], args + [Time(c.dateFrom.value)];
    }
    done := done.(dateFrom := c.dateFrom);
    if c.dateTo.Some? {
      DateToHandled(where, args, argCount, campaign, done, c.dateTo.value);
      argCount := argCount + 1;
      where, args := where + [CreatedTo(argCount)], args + [Time(c.dateTo.value)];
    }
    done := done.(dateTo := c.dateTo);
    assert done == c.(customFields := map[]);
  }

  /** Handling one of the remaining keys takes it out of the remaining ones. */
  lemma KeyDone(fields: map<string, string>, rest: set<string>, key: string)
    requires key in rest && rest <= fields.Keys
    ensures (fields - rest)[key := fields[key]] == fields - (rest - {key})
    ensures key !in fields - rest
  {
  }

  /** The whole WHERE clause; custom fields are ranged over in no particular order. */
  method Conditions(campaign: int, c: Criteria) returns (where: seq<Condition>, args: seq<Arg>, argCount: nat)
    ensures Means(where, args, argCount, campaign, c)
  {
    hide Means, Matches;
    where, args, argCount := FixedConditions(campaign, c);
    var rest := c.customFields.Keys;
    assert c.customFields - rest == map[];
    while rest != {}
      invariant rest <= c.customFields.Keys
      invariant Means(where, args, argCount, campaign, c.(customFields := c.customFields - rest))
      decreases rest
    {
      var key :| key in rest;
      var value := c.customFields[key];
      KeyDone(c.customFields, rest, key);
      FieldHandled(where, args, argCount, campaign, c.(customFields := c.customFields - rest), key, value);
      argCount := argCount + 1;
      where := where + [MetadataILike(argCount, argCount + 1)];
      args := args + [Text(key), Text("%" + value + "%")];
      argCount := argCount + 1;
      rest := rest - {key};
    }
    assert c.(customFields := c.customFields - {}) == c;
  }

  // ---------------------------------------------------------------- the whole query

  /** All placeholders of a query in the order of its text. */
  function QueryHoles(q: Query): seq<Hole> {
    AllHoles(q.where) + (if q.limit.Some? then [q.limit.value] else [])
    + (if q.offset.Some? then [q.offset.value] else [])
  }

  /** The pagination placeholder carries the given number, and is there when it is positive. */
  ghost predicate Paged(hole: Option<Hole>, args: seq<Arg>, n: int) {
    if n > 0 then hole.Some? && At(args, hole.value) == Some(Number(n)) else hole == None
  }

  /** Main result: for every criteria the built query keeps exactly the matching users, its
      placeholders read $1, $2, ... with one argument each, and ordering and pagination are
      there exactly when asked for. */
  method BuildSegmentFilterQuery(campaign: int, c: Criteria, countOnly: bool, limit: int, offset: int)
    returns (q: Query, args: seq<Arg>)
    ensures forall u :: Holds(q.where, args, u) <==> Matches(campaign, c, u)
    ensures QueryHoles(q) == Numbers(1, |args| + 1)
    ensures q.countOnly == countOnly
    ensures q.order == if countOnly then None else Some(Order(Position, false))
    ensures Paged(q.limit, args, if countOnly then 0 else limit)
    ensures Paged(q.offset, args, if countOnly then 0 else offset)
  {
    hide Holds, Matches;
    var where, args0, argCount := Conditions(campaign, c);
    args := args0;
    q := Query(countOnly, where, None, None, None);
    if !countOnly {
      q := q.(order := Some(Order(Position, false)));
      if limit > 0 {
        argCount := argCount + 1;
        q := q.(limit := Some(argCount));
        args := args + [Number(limit)];
      }
      if offset > 0 {
        argCount := argCount + 1;
        q := q.(offset := Some(argCount));
        args := args + [Number(offset)];
      }
    }
    MoreArgs(where, args0, args[|args0|..]);
    assert args == args0 + args[|args0|..];
  }

  // ---------------------------------------------------------------- answers on a table

  /** The users of a table in a segment, in table order. */
  ghost function Matching(table: seq<User>, campaign: int, c: Criteria): seq<User> {
    if table == [] then []
    else (if Matches(campaign, c, table[0]) then [table[0]] else []) + Matching(table[1..], campaign, c)
  }

  /** A query that means the criteria selects the matching users of every table; so the count
      query and the unpaginated select of one segment agree on how many there are. */
  lemma {:induction false} QuerySelectsMatching(table: seq<User>, q: Query, args: seq<Arg>, campaign: int, c: Criteria)
    requires forall u :: Holds(q.where, args, u) <==> Matches(campaign, c, u)
    ensures Filter(table, q.where, args) == Matching(table, campaign, c)
  {
    hide Holds, Matches;
    if table != [] {
      QuerySelectsMatching(table[1..], q, args, campaign, c);
    }
  }

  /** The two queries the store runs for a segment: how many users, and all of them. */
  datatype Asked = Asked(count: Query, countArgs: seq<Arg>, select: Query, selectArgs: seq<Arg>)

  /** On every table both queries see the same rows, and the select is not paginated. */
  ghost predicate SameRows(q: Asked) {
    && q.count.countOnly && !q.select.countOnly && q.select.limit == q.select.offset == None
    && forall table :: Filter(table, q.count.where, q.countArgs) == Filter(table, q.select.where, q.selectArgs)
  }

  /** Main result: for every segment the count query built by CountUsersMatchingCriteria counts
      exactly the rows of the select built by GetUsersForBlast. */
  method AskSegment(campaign: int, c: Criteria) returns (q: Asked)
    ensures SameRows(q)
    ensures forall table :: Filter(table, q.select.where, q.selectArgs) == Matching(table, campaign, c)
  {
    hide Holds, Matches;
    var count, countArgs := BuildSegmentFilterQuery(campaign, c, true, 0, 0);
    var select, selectArgs := BuildSegmentFilterQuery(campaign, c, false, 0, 0);
    q := Asked(count, countArgs, select, selectArgs);
    forall table: seq<User>
      ensures Filter(table, q.count.where, q.countArgs) == Filter(table, q.select.where, q.selectArgs)
      ensures Filter(table, q.select.where, q.selectArgs) == Matching(table, campaign, c)
    {
      QuerySelectsMatching(table, count, countArgs, campaign, c);
      QuerySelectsMatching(table, select, selectArgs, campaign, c);
    }
  }
}

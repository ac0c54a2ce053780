/**
 The user listings and their counts must select the same rows. The source repeats the
 condition code word for word in the four builders; one method stands for it here.
 */
module ListQuery {
  import opened Prelude
  import opened Sql
  import opened SegmentQuery
  import Like

  datatype Params = Params(
    campaign: int, statuses: seq<string>, sources: seq<string>, hasReferrals: Option<bool>,
    minPosition: Option<int>, maxPosition: Option<int>, dateFrom: Option<int>, dateTo: Option<int>,
    customFields: map<string, string>, sortBy: string, sortOrder: string, limit: int, offset: int)

  /** The filters as segment criteria. `hasReferrals = false` filters nothing here, unlike in
      a segment. */
  function Filters(p: Params): Criteria {
    NO_CRITERIA.(statuses := p.statuses, sources := p.sources,
                 hasReferrals := if p.hasReferrals == Some(true) then Some(true) else None,
                 minPosition := p.minPosition, maxPosition := p.maxPosition,
                 dateFrom := p.dateFrom, dateTo := p.dateTo, customFields := p.customFields)
  }

  /** The free tier's listing knows no custom fields. */
  function BasicFilters(p: Params): Criteria {
    Filters(p).(customFields := map[])
  }

  /** A user is listed when every filter given accepts it: a NULL source is in no list of
      sources, `hasReferrals` matters only when true, and a custom field contains its text. */
  ghost predicate Accepts(p: Params, basic: bool, u: User) {
    && u.campaign == p.campaign && !u.deleted
    && (p.statuses != [] ==> u.status in p.statuses)
    && (p.sources != [] ==> u.source.Some? && u.source.value in p.sources)
    && (p.hasReferrals == Some(true) ==> u.referralCount > 0)
    && (p.minPosition.Some? ==> p.minPosition.value <= u.position)
    && (p.maxPosition.Some? ==> u.position <= p.maxPosition.value)
    && (p.dateFrom.Some? ==> p.dateFrom.value <= u.createdAt)
    && (p.dateTo.Some? ==> u.createdAt <= p.dateTo.value)
    && (!basic ==> forall key :: key in p.customFields ==>
          && u.metadata.Some? && key in u.metadata.value
          && Like.ILike(u.metadata.value[key], "%" + p.customFields[key] + "%"))
  }

  lemma FiltersMean(p: Params, u: User)
    ensures Matches(p.campaign, Filters(p), u) <==> Accepts(p, false, u)
    ensures Matches(p.campaign, BasicFilters(p), u) <==> Accepts(p, true, u)
  {
    hide Like.ILike;
  }

  lemma AnyStatusHandled(where: seq<Condition>, args: seq<Arg>, n: nat, campaign: int, done: Criteria,
                         values: seq<string>)
    requires Means(where, args, n, campaign, done) && done.statuses == [] && values != []
    ensures Means(where + [StatusAny(n + 1)], args + [Texts(values)], n + 1, campaign, done.(statuses := values))
  {
    hide FieldsMatch, Holds, Numbered;
    assert At(args + [Texts(values)], n + 1) == Some(Texts(values));
    Extend(where, args, n, campaign, done, StatusAny(n + 1), [Texts(values)], done.(statuses := values));
  }

  lemma AnySourceHandled(where: seq<Condition>, args: seq<Arg>, n: nat, campaign: int, done: Criteria,
                         values: seq<string>)
    requires Means(where, args, n, campaign, done) && done.sources == [] && values != []
    ensures Means(where + [SourceAny(n + 1)], args + [Texts(values)], n + 1, campaign, done.(sources := values))
  {
    hide FieldsMatch, Holds, Numbered;
    assert At(args + [Texts(values)], n + 1) == Some(Texts(values));
    Extend(where, args, n, campaign, done, SourceAny(n + 1), [Texts(values)], done.(sources := values));
  }

  // ---------------------------------------------------------------- the listing

  /** The column of a field; only these can be sorted by. */
  function Column(f: Field): string {
    match f
    case Position => "position"
    case CreatedAt => "created_at"
    case ReferralCount => "referral_count"
    case Email => "email"
    case Status => "status"
    case Source => "source"
  }

  function SortField(sortBy: string): Field {
    if sortBy == "created_at" then CreatedAt
    else if sortBy == "referral_count" then ReferralCount
    else if sortBy == "email" then Email
    else if sortBy == "status" then Status
    else if sortBy == "source" then Source
    else Position
  }

  /** The listing is sorted by the column asked for when there is such a column, and by
      position otherwise, so no other text gets into the query. */
  lemma SortedByColumn(sortBy: string)
    ensures (exists f: Field :: Column(f) == sortBy) ==> Column(SortField(sortBy)) == sortBy
    ensures !(exists f: Field :: Column(f) == sortBy) ==> Column(SortField(sortBy)) == "position"
  {
    assert Column(CreatedAt) == "created_at" && Column(ReferralCount) == "referral_count" && Column(Email) == "email";
    assert Column(Status) == "status" && Column(Source) == "source";
    if f: Field :| Column(f) == sortBy {
      match f
      case _ =>
    }
  }

  /** Sorting and pagination, the same in both listings. */
  method Paginate(p: Params, ghost done: Criteria, where: seq<Condition>, before: seq<Arg>, argCount0: nat)
    returns (q: Query, args: seq<Arg>)
    requires Means(where, before, argCount0, p.campaign, done)
    ensures forall u :: Holds(q.where, args, u) <==> Matches(p.campaign, done, u)
    ensures QueryHoles(q) == Numbers(1, |args| + 1)
    ensures !q.countOnly && q.order == Some(Order(SortField(p.sortBy), p.sortOrder == "desc"))
    ensures q.limit.Some? && At(args, q.limit.value) == Some(Number(p.limit))
    ensures q.offset.Some? && At(args, q.offset.value) == Some(Number(p.offset))
  {
    hide Matches, Holds;
    var argCount := argCount0;
    args := before;
    q := Query(false, where, Some(Order(SortField(p.sortBy), p.sortOrder == "desc")), None, None);
    argCount := argCount + 1;
    q := q.(limit := Some(argCount));
    args := args + [Number(p.limit)];
    argCount := argCount + 1;
    q := q.(offset := Some(argCount));
    args := args + [Number(p.offset)];
    MoreArgs(where, before, [Number(p.limit), Number(p.offset)]);
    assert args == before + [Number(p.limit), Number(p.offset)];
  }

  method RangeConditions(p: Params, ghost done0: Criteria, where0: seq<Condition>, args0: seq<Arg>, argCount0: nat)
    returns (where: seq<Condition>, args: seq<Arg>, argCount: nat)
    requires Means(where0, args0, argCount0, p.campaign, done0)
    requires done0 ==
      NO_CRITERIA.(statuses := p.statuses, sources := p.sources, hasReferrals := Filters(p).hasReferrals)
    ensures Means(where, args, argCount, p.campaign, BasicFilters(p))
  {
    hide Means, Matches;
    where, args, argCount := where0, args0, argCount0;
    ghost var done := done0;
    if p.minPosition.Some? {
      MinPositionHandled(where, args, argCount, p.campaign, done, p.minPosition.value);
      argCount := argCount + 1;
      where, args := where + [PositionAtLeast(argCount)], args + [Number(p.minPosition.value)];
    }
    done := done.(minPosition := p.minPosition);
    if p.maxPosition.Some? {
      MaxPositionHandled(where, args, argCount, p.campaign, done, p.maxPosition.value);
      argCount := argCount + 1;
      where, args := where + [PositionAtMost(argCount)], args + [Number(p.maxPosition.value)];
    }
    done := done.(maxPosition := p.maxPosition);
    if p.dateFrom.Some? {
      DateFromHandled(where, args, argCount, p.campaign, done, p.dateFrom.value);
      argCount := argCount + 1;
      where, args := where + [CreatedFrom(argCount)], args + [Time(p.dateFrom.value)];
    }
    done := done.(dateFrom := p.dateFrom);
    if p.dateTo.Some? {
      DateToHandled(where, args, argCount, p.campaign, done, p.dateTo.value);
      argCount := argCount + 1;
      where, args := where + [CreatedTo(argCount)], args + [Time(p.dateTo.value)];
    }
    done := done.(dateTo := p.dateTo);
    assert done == BasicFilters(p);
  }

  /** The conditions all four builders share: everything but the custom fields. */
  method BasicConditions(p: Params) returns (where: seq<Condition>, args: seq<Arg>, argCount: nat)
    ensures Means(where, args, argCount, p.campaign, BasicFilters(p))
  {
    hide Means, Matches;
    args, argCount := [Id(p.campaign)], 1;
    where := [CampaignIs(1), NotDeleted];
    StartMeans(p.campaign);
    ghost var done := NO_CRITERIA;
    if |p.statuses| > 0 {
      AnyStatusHandled(where, args, argCount, p.campaign, done, p.statuses);
      argCount := argCount + 1;
      where, args := where + [StatusAny(argCount)], args + [Texts(p.statuses)];
    }
    done := done.(statuses := p.statuses);
    if |p.sources| > 0 {
      AnySourceHandled(where, args, argCount, p.campaign, done, p.sources);
      argCount := argCount + 1;
      where, args := where + [SourceAny(argCount)], args + [Texts(p.sources)];
    }
    done := done.(sources := p.sources);
    if p.hasReferrals.Some? && p.hasReferrals.value {
      ReferralsHandled(where, args, argCount, p.campaign, done, true);
      where := where + [HasReferrals];
    }
    done := done.(hasReferrals := Filters(p).hasReferrals);
    where, args, argCount := RangeConditions(p, done, where, args, argCount);
  }

  method FieldConditions(p: Params, where0: seq<Condition>, args0: seq<Arg>, argCount0: nat)
    returns (where: seq<Condition>, args: seq<Arg>, argCount: nat)
    requires Means(where0, args0, argCount0, p.campaign, BasicFilters(p))
    ensures Means(where, args, argCount, p.campaign, Filters(p))
  {
    hide Means, Matches;
    where, args, argCount := where0, args0, argCount0;
    var rest := p.customFields.Keys;
    assert p.customFields - rest == map[];
    while rest != {}
      invariant rest <= p.customFields.Keys
      invariant Means(where, args, argCount, p.campaign, Filters(p).(customFields := p.customFields - rest))
      decreases rest
    {
      var key :| key in rest;
      var value := p.customFields[key];
      KeyDone(p.customFields, rest, key);
      FieldHandled(where, args, argCount, p.campaign, Filters(p).(customFields := p.customFields - rest), key, value);
      argCount := argCount + 1;
      where := where + [MetadataILike(argCount, argCount + 1)];
      args := args + [Text(key), Text("%" + value + "%")];
      argCount := argCount + 1;
      rest := rest - {key};
    }
    assert p.customFields - {} == p.customFields;
  }

  /** The conditions of the extended listing and its count, in the order of their code. */
  method ListConditions(p: Params) returns (where: seq<Condition>, args: seq<Arg>, argCount: nat)
    ensures Means(where, args, argCount, p.campaign, Filters(p))
  {
    hide Means, Matches;
    where, args, argCount := BasicConditions(p);
    where, args, argCount := FieldConditions(p, where, args, argCount);
  }

  /** Main result: the listing keeps exactly the users its filters accept, its placeholders
      read $1, $2, ... with one argument each, and limit and offset are always bound. */
  method ListWithExtendedFilters(p: Params) returns (q: Query, args: seq<Arg>)
    ensures forall u :: Holds(q.where, args, u) <==> Matches(p.campaign, Filters(p), u)
    ensures forall u :: Holds(q.where, args, u) <==> Accepts(p, false, u)
    ensures QueryHoles(q) == Numbers(1, |args| + 1)
    ensures !q.countOnly && q.order == Some(Order(SortField(p.sortBy), p.sortOrder == "desc"))
    ensures q.limit.Some? && At(args, q.limit.value) == Some(Number(p.limit))
    ensures q.offset.Some? && At(args, q.offset.value) == Some(Number(p.offset))
  {
    hide Matches, Holds, Accepts;
    forall u { FiltersMean(p, u); }
    var where, before, argCount := ListConditions(p);
    q, args := Paginate(p, Filters(p), where, before, argCount);
  }

  /** The listing without custom fields, whatever the parameters say of them. */
  method ListBasic(p: Params) returns (q: Query, args: seq<Arg>)
    ensures forall u :: Holds(q.where, args, u) <==> Matches(p.campaign, BasicFilters(p), u)
    ensures forall u :: Holds(q.where, args, u) <==> Accepts(p, true, u)
    ensures QueryHoles(q) == Numbers(1, |args| + 1)
    ensures !q.countOnly && q.order == Some(Order(SortField(p.sortBy), p.sortOrder == "desc"))
    ensures q.limit.Some? && At(args, q.limit.value) == Some(Number(p.limit))
    ensures q.offset.Some? && At(args, q.offset.value) == Some(Number(p.offset))
  {
    hide Matches, Holds, Accepts;
    forall u { FiltersMean(p, u); }
    var where, before, argCount := BasicConditions(p);
    q, args := Paginate(p, BasicFilters(p), where, before, argCount);
  }

  // ---------------------------------------------------------------- the count

  /** The count query repeats the listing's conditions. */
  method CountWithExtendedFilters(p: Params) returns (q: Query, args: seq<Arg>)
    ensures forall u :: Holds(q.where, args, u) <==> Matches(p.campaign, Filters(p), u)
    ensures forall u :: Holds(q.where, args, u) <==> Accepts(p, false, u)
    ensures QueryHoles(q) == Numbers(1, |args| + 1)
    ensures q == Query(true, q.where, None, None, None)
  {
    hide Matches, Holds, Accepts;
    forall u { FiltersMean(p, u); }
    var where, argCount;
    where, args, argCount := ListConditions(p);
    q := Query(true, where, None, None, None);
  }

  method CountBasic(p: Params) returns (q: Query, args: seq<Arg>)
    ensures forall u :: Holds(q.where, args, u) <==> Matches(p.campaign, BasicFilters(p), u)
    ensures forall u :: Holds(q.where, args, u) <==> Accepts(p, true, u)
    ensures QueryHoles(q) == Numbers(1, |args| + 1)
    ensures q == Query(true, q.where, None, None, None)
  {
    hide Matches, Holds, Accepts;
    forall u { FiltersMean(p, u); }
    var where, argCount;
    where, args, argCount := BasicConditions(p);
    q := Query(true, where, None, None, None);
  }

  lemma QueriesAgree(table: seq<User>, campaign: int, c: Criteria, list: Query, listArgs: seq<Arg>,
                     count: Query, countArgs: seq<Arg>)
    requires forall u :: Holds(list.where, listArgs, u) <==> Matches(campaign, c, u)
    requires forall u :: Holds(count.where, countArgs, u) <==> Matches(campaign, c, u)
    ensures Filter(table, list.where, listArgs) == Filter(table, count.where, countArgs)
  {
    hide Holds, Matches;
    SameFilter(table, list.where, listArgs, count.where, countArgs);
  }

  /** Main result: for every filter set and every table, the listing and its count built for
      the same request select the same rows, so the count is the length of the list before
      pagination. */
  method ListAndCount(p: Params, basic: bool)
    returns (list: Query, listArgs: seq<Arg>, count: Query, countArgs: seq<Arg>)
    ensures forall table :: Filter(table, list.where, listArgs) == Filter(table, count.where, countArgs)
    ensures !list.countOnly && list.limit.Some? && list.offset.Some?
    ensures count.countOnly && count.limit == count.offset == None
    ensures QueryHoles(list) == Numbers(1, |listArgs| + 1) && QueryHoles(count) == Numbers(1, |countArgs| + 1)
  {
    hide Matches, Holds;
    if basic {
      list, listArgs := ListBasic(p);
      count, countArgs := CountBasic(p);
      forall table ensures Filter(table, list.where, listArgs) == Filter(table, count.where, countArgs) {
        QueriesAgree(table, p.campaign, BasicFilters(p), list, listArgs, count, countArgs);
      }
    } else {
      list, listArgs := ListWithExtendedFilters(p);
      count, countArgs := CountWithExtendedFilters(p);
      forall table ensures Filter(table, list.where, listArgs) == Filter(table, count.where, countArgs) {
        QueriesAgree(table, p.campaign, Filters(p), list, listArgs, count, countArgs);
      }
    }
  }
}

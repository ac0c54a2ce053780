/** Blast recipients: users of several segments, deduplicated by email, and their preview. */
module Recipients {
  import opened Prelude
  import opened RecipientTable
  import opened Sql
  import SegmentQuery

  datatype Error = SegmentNotFound

  // ---------------------------------------------------------------- deduplication

  function Emails(users: seq<User>): set<string> {
    set i | 0 <= i < |users| :: users[i].email
  }

  /** The users kept: the first of every email. */
  function Dedup(users: seq<User>): seq<User> {
    if users == [] then []
    else
      var init, last := users[..|users| - 1], users[|users| - 1];
      if last.email in Emails(init) then Dedup(init) else Dedup(init) + [last]
  }

  function Flatten(answers: seq<seq<User>>): seq<User> {
    if answers == [] then [] else Flatten(answers[..|answers| - 1]) + answers[|answers| - 1]
  }

  ghost predicate DistinctEmails(users: seq<User>) {
    forall i, j :: 0 <= i < j < |users| ==> users[i].email != users[j].email
  }

  ghost predicate IdDeterminesEmail(users: seq<User>) {
    forall i, j :: 0 <= i < |users| && 0 <= j < |users| && users[i].id == users[j].id ==>
      users[i].email == users[j].email
  }

  lemma EmailsAppend(users: seq<User>, last: User)
    ensures Emails(users + [last]) == Emails(users) + {last.email}
  {
    var all := users + [last];
    forall e ensures e in Emails(all) <==> e in Emails(users) || e == last.email {
      if e in Emails(users) {
        var i :| 0 <= i < |users| && users[i].email == e;
        assert all[i].email == e;
      }
      if e == last.email {
        assert all[|users|].email == e;
      }
    }
  }

  /** Deduplication keeps one user for every email that occurs, and only users that occur. */
  lemma {:induction false} DedupLaws(users: seq<User>)
    ensures DistinctEmails(Dedup(users))
    ensures Emails(Dedup(users)) == Emails(users)
    ensures forall u :: u in Dedup(users) ==> u in users
  {
    if users != [] {
      var init, last := users[..|users| - 1], users[|users| - 1];
      DedupLaws(init);
      assert users == init + [last];
      EmailsAppend(init, last);
      EmailsAppend(Dedup(init), last);
      if last.email !in Emails(init) {
        forall i | 0 <= i < |Dedup(init)| ensures Dedup(init)[i].email != last.email {
          assert Dedup(init)[i].email in Emails(Dedup(init));
        }
      }
    }
  }

  lemma {:induction false} DistinctCount(users: seq<User>)
    requires DistinctEmails(users)
    ensures |Emails(users)| == |users|
  {
    if users != [] {
      var init, last := users[..|users| - 1], users[|users| - 1];
      DistinctCount(init);
      EmailsAppend(init, last);
      assert users == init + [last];
      assert last.email !in Emails(init);
    }
  }

  lemma KeptIdsDistinct(users: seq<User>)
    requires IdDeterminesEmail(users)
    ensures DistinctIds(Dedup(users))
  {
    DedupLaws(users);
    var kept := Dedup(users);
    forall i, j | 0 <= i < j < |kept| ensures kept[i].id != kept[j].id {
      assert kept[i] in users && kept[j] in users;
    }
  }

  // ---------------------------------------------------------------- the store

  /** The answers up to the first missing segment. */
  function Found<T>(answers: seq<Option<T>>): (r: seq<T>)
    ensures None !in answers ==> |r| == |answers| && forall i :: 0 <= i < |r| ==> answers[i] == Some(r[i])
  {
    if answers == [] || answers[0].None? then [] else [answers[0].value] + Found(answers[1..])
  }

  lemma {:induction false} FoundAppend<T>(answers: seq<Option<T>>, i: nat)
    requires i < |answers| && None !in answers[..i + 1]
    ensures Found(answers[..i + 1]) == Found(answers[..i]) + [answers[i].value]
  {
    if i > 0 {
      assert answers[..i + 1][1..] == answers[1..][..i];
      assert answers[..i][1..] == answers[1..][..i - 1];
      assert None !in answers[1..][..i];
      FoundAppend(answers[1..], i - 1);
    } else {
      assert answers[..1][1..] == [] && answers[..0] == [];
    }
  }

  method AddUsers(ghost before: seq<User>, users: seq<User>, kept0: seq<User>, seen0: set<string>)
    returns (kept: seq<User>, seen: set<string>)
    requires kept0 == Dedup(before) && seen0 == Emails(before)
    ensures kept == Dedup(before + users) && seen == Emails(before + users)
  {
    kept, seen := kept0, seen0;
    assert before + users[..0] == before;
    for j := 0 to |users|
      invariant kept == Dedup(before + users[..j]) && seen == Emails(before + users[..j])
    {
      var user := users[j];
      ghost var all := before + users[..j];
      assert before + users[..j + 1] == all + [user];
      assert (all + [user])[..|all|] == all;
      EmailsAppend(all, user);
      if user.email !in seen {
        seen := seen + {user.email};
        kept := kept + [user];
      }
    }
    assert before + users[..|users|] == before + users;
  }

  /** The loop over segments and their users, with its `seenEmails` map. */
  method CollectUsers(answers: seq<Option<seq<User>>>) returns (allUsers: seq<User>, missing: bool)
    ensures missing <==> None in answers
    ensures !missing ==> allUsers == Dedup(Flatten(Found(answers)))
  {
    var seenEmails: set<string> := {};
    allUsers, missing := [], false;
    for i := 0 to |answers|
      invariant None !in answers[..i]
      invariant allUsers == Dedup(Flatten(Found(answers[..i])))
      invariant seenEmails == Emails(Flatten(Found(answers[..i])))
    {
      assert answers[..i + 1] == answers[..i] + [answers[i]];
      if answers[i] == None {
        return [], true;
      }
      var users := answers[i].value;
      ghost var before := Flatten(Found(answers[..i]));
      allUsers, seenEmails := AddUsers(before, users, allUsers, seenEmails);
      FoundAppend(answers, i);
    }
    assert answers[..|answers|] == answers;
  }

  class RecipientStore {
    var recipients: seq<Recipient>

    /** One transaction: every user in turn, batch number i / batchSize. */
    method CreateBlastRecipientsBulk(blast: int, users: seq<User>, batchSize: int)
      requires batchSize > 0
      modifies this
      ensures recipients == InsertUsers(old(recipients), blast, users, batchSize, |users|)
    {
      for i := 0 to |users|
        invariant recipients == InsertUsers(old(recipients), blast, users, batchSize, i)
      {
        var batchNumber := i / batchSize;
        if !Present(recipients, blast, users[i].id) {
          recipients := recipients + [Recipient(blast, users[i].id, users[i].email, batchNumber, Pending)];
        }
      }
    }

    /** `answers` are the store's users for each segment, None for a segment not found. */
    method CreateBlastRecipientsFromMultipleSegments(blast: int, answers: seq<Option<seq<User>>>, batchSize: int)
      returns (r: Result<nat, Error>)
      requires batchSize > 0
      modifies this
      ensures None in answers ==> r == Err(SegmentNotFound) && recipients == old(recipients)
      ensures None !in answers ==>
        var users := Dedup(Flatten(Found(answers)));
        && r == Ok(|users|)
        && recipients == InsertUsers(old(recipients), blast, users, batchSize, |users|)
    {
      var allUsers, missing := CollectUsers(answers);
      if missing {
        return Err(SegmentNotFound);
      }
      if |allUsers| == 0 {
        return Ok(0);
      }
      CreateBlastRecipientsBulk(blast, allUsers, batchSize);
      return Ok(|allUsers|);
    }
  }

  // ---------------------------------------------------------------- fresh creation and rerun

  /** The row has the ID and the email of one and the same user. */
  ghost predicate IsFor(r: Recipient, users: seq<User>) {
    exists u :: u in users && u.id == r.user && u.email == r.email
  }

  ghost function RowEmails(rows: seq<Recipient>): set<string> {
    set k | 0 <= k < |rows| :: rows[k].email
  }

  /** The rows are the blast's recipients for a list of users: each is for one of them, every
      email occurs and no other, none occurs twice and no user does. */
  ghost predicate AreRecipients(rows: seq<Recipient>, blast: int, users: seq<User>) {
    && (forall k :: 0 <= k < |rows| ==> rows[k].blast == blast && rows[k].status.Pending? && IsFor(rows[k], users))
    && RowEmails(rows) == Emails(users)
    && forall j, k :: 0 <= j < k < |rows| ==> rows[j].email != rows[k].email && rows[j].user != rows[k].user
  }

  lemma RowsAreRecipients(blast: int, users: seq<User>, kept: seq<User>, batchSize: int)
    requires batchSize > 0 && DistinctEmails(kept) && DistinctIds(kept)
    requires Emails(kept) == Emails(users) && forall u :: u in kept ==> u in users
    ensures AreRecipients(RowsFor(blast, kept, batchSize, |kept|), blast, users)
  {
    var rows := RowsFor(blast, kept, batchSize, |kept|);
    forall k | 0 <= k < |rows|
      ensures rows[k].blast == blast && rows[k].status.Pending? && rows[k].email == kept[k].email
      ensures rows[k].user == kept[k].id && IsFor(rows[k], users)
    {
      RowForIs(blast, kept, batchSize, k);
      assert kept[k] in kept;
    }
    assert RowEmails(rows) == Emails(kept) by {
      forall e ensures e in RowEmails(rows) <==> e in Emails(kept) {
        if k :| 0 <= k < |kept| && kept[k].email == e {
          assert rows[k].email == e;
        }
      }
    }
  }

  /** Main result: creating recipients for a fresh blast inserts one row for each distinct
      email, with the ID and the email of a user who has it; no insert conflicts, the rows are
      numbered into batches in turn, and the returned count is how many there are. */
  lemma FreshCreation(table: seq<Recipient>, blast: int, answers: seq<seq<User>>, batchSize: int)
    requires batchSize > 0 && IdDeterminesEmail(Flatten(answers))
    requires forall k :: 0 <= k < |table| ==> table[k].blast != blast
    ensures var users := Dedup(Flatten(answers));
      var after := InsertUsers(table, blast, users, batchSize, |users|);
      && after == table + RowsFor(blast, users, batchSize, |users|)
      && DistinctEmails(users) && DistinctIds(users)
      && |after| - |table| == |users| == |Emails(Flatten(answers))|
      && AreRecipients(after[|table|..], blast, Flatten(answers))
      && forall i :: |table| <= i < |after| ==>
           after[i].batch * batchSize <= i - |table| < after[i].batch * batchSize + batchSize
  {
    hide AreRecipients;
    var users := Dedup(Flatten(answers));
    DedupLaws(Flatten(answers));
    DistinctCount(users);
    KeptIdsDistinct(Flatten(answers));
    FreshInsert(table, blast, users, batchSize, |users|);
    RowsAreRecipients(blast, Flatten(answers), users, batchSize);
    var rows := RowsFor(blast, users, batchSize, |users|);
    assert (table + rows)[|table|..] == rows;
    forall i | |table| <= i < |table + rows|
      ensures var r := (table + rows)[i]; r.batch * batchSize <= i - |table| < r.batch * batchSize + batchSize
    {
      RowForIs(blast, users, batchSize, i - |table|);
    }
  }

  /** The user kept for an email is the one in the first segment that has the email. */
  ghost predicate Wins(answers: seq<seq<User>>, u: User) {
    exists i :: 0 <= i < |answers| && u in answers[i]
      && forall j :: 0 <= j < i ==> u.email !in Emails(answers[j])
  }

  lemma EmailsConcat(a: seq<User>, b: seq<User>, e: string)
    ensures e in Emails(a + b) <==> e in Emails(a) || e in Emails(b)
  {
    if e in Emails(a) {
      var i :| 0 <= i < |a| && a[i].email == e;
      assert (a + b)[i].email == e;
    }
    if e in Emails(b) {
      var i :| 0 <= i < |b| && b[i].email == e;
      assert (a + b)[|a| + i].email == e;
    }
  }

  lemma {:induction false} EmailsOfFlatten(answers: seq<seq<User>>, e: string)
    ensures e in Emails(Flatten(answers)) <==> exists j :: 0 <= j < |answers| && e in Emails(answers[j])
  {
    if answers != [] {
      var init, last := answers[..|answers| - 1], answers[|answers| - 1];
      EmailsOfFlatten(init, e);
      EmailsConcat(Flatten(init), last, e);
      assert forall j :: 0 <= j < |init| ==> init[j] == answers[j];
    }
  }

  /** Deduplicating one more segment adds its users whose email is new. */
  lemma {:induction false} DedupConcat(a: seq<User>, b: seq<User>, u: User)
    requires DistinctEmails(b)
    ensures u in Dedup(a + b) <==> u in Dedup(a) || (u in b && u.email !in Emails(a))
  {
    if b == [] {
      assert a + b == a;
    } else {
      var init, last := b[..|b| - 1], b[|b| - 1];
      assert (a + b)[..|a + b| - 1] == a + init && (a + b)[|a + b| - 1] == last;
      DedupConcat(a, init, u);
      EmailsConcat(a, init, last.email);
      assert last.email !in Emails(init);
      assert b == init + [last];
    }
  }

  lemma {:induction false} DedupKeepsWinners(answers: seq<seq<User>>, u: User)
    requires forall i :: 0 <= i < |answers| ==> DistinctEmails(answers[i])
    ensures u in Dedup(Flatten(answers)) <==> Wins(answers, u)
  {
    if answers != [] {
      var init, last := answers[..|answers| - 1], answers[|answers| - 1];
      assert forall j :: 0 <= j < |init| ==> init[j] == answers[j];
      DedupKeepsWinners(init, u);
      DedupConcat(Flatten(init), last, u);
      EmailsOfFlatten(init, u.email);
      if Wins(answers, u) {
        var i :| 0 <= i < |answers| && u in answers[i] && forall j :: 0 <= j < i ==> u.email !in Emails(answers[j]);
        if i < |init| {
          assert u in init[i];
        }
      }
      if u in last && u.email !in Emails(Flatten(init)) {
        assert answers[|init|] == last;
      }
    }
  }

  lemma SameMembersSameEmails(a: seq<User>, b: seq<User>)
    requires forall v :: v in a ==> v in b
    ensures Emails(a) <= Emails(b)
  {
    forall e | e in Emails(a) ensures e in Emails(b) {
      var i :| 0 <= i < |a| && a[i].email == e;
      assert a[i] in b;
      var k :| 0 <= k < |b| && b[k] == a[i];
      assert b[k].email == e;
    }
  }

  lemma SameWinners(a: seq<seq<User>>, b: seq<seq<User>>, u: User)
    requires |a| == |b| && Wins(a, u)
    requires forall i :: 0 <= i < |a| ==> forall v :: v in a[i] <==> v in b[i]
    ensures Wins(b, u)
  {
    var i :| 0 <= i < |a| && u in a[i] && forall j :: 0 <= j < i ==> u.email !in Emails(a[j]);
    forall j | 0 <= j < i ensures u.email !in Emails(b[j]) {
      SameMembersSameEmails(b[j], a[j]);
    }
    assert u in b[i];
  }

  /** Main result: running the creation again on the same population changes nothing, even
      when the store returns the users of a segment in another order. */
  lemma RerunChangesNothing(table: seq<Recipient>, blast: int, answers: seq<seq<User>>, again: seq<seq<User>>,
                            batchSize: int, laterSize: int)
    requires batchSize > 0 && laterSize > 0 && |again| == |answers| && IdDeterminesEmail(Flatten(answers))
    requires forall k :: 0 <= k < |table| ==> table[k].blast != blast
    requires forall i :: 0 <= i < |answers| ==>
      && DistinctEmails(answers[i]) && DistinctEmails(again[i])
      && (forall u :: u in again[i] <==> u in answers[i])
    ensures var users, users2 := Dedup(Flatten(answers)), Dedup(Flatten(again));
      var after := InsertUsers(table, blast, users, batchSize, |users|);
      InsertUsers(after, blast, users2, laterSize, |users2|) == after
  {
    hide AreRecipients;
    var users, users2 := Dedup(Flatten(answers)), Dedup(Flatten(again));
    FreshCreation(table, blast, answers, batchSize);
    var after := table + RowsFor(blast, users, batchSize, |users|);
    forall i | 0 <= i < |users2| ensures Present(after, blast, users2[i].id) {
      var u := users2[i];
      DedupKeepsWinners(again, u);
      SameWinners(again, answers, u);
      DedupKeepsWinners(answers, u);
      var k :| 0 <= k < |users| && users[k] == u;
      assert after[|table| + k] == RowFor(blast, users, batchSize, k);
    }
    RepeatInsert(after, blast, users2, laterSize, |users2|);
  }

  // ---------------------------------------------------------------- preview

  /** What the preview asks the store about a segment: its count, then its users. */
  datatype Answer = Answer(count: int, users: seq<User>)

  datatype Preview = Preview(totalCount: int, duplicatesCount: int, bySegment: seq<int>)

  function SumCounts(answers: seq<Answer>): int {
    if answers == [] then 0 else SumCounts(answers[..|answers| - 1]) + answers[|answers| - 1].count
  }

  function UsersOf(answers: seq<Answer>): (r: seq<seq<User>>)
    ensures |r| == |answers| && forall i :: 0 <= i < |r| ==> r[i] == answers[i].users
  {
    seq(|answers|, i requires 0 <= i < |answers| => answers[i].users)
  }

  method CountNew(ghost before: seq<User>, users: seq<User>, total0: int, seen0: set<string>)
    returns (total: int, seen: set<string>)
    requires seen0 == Emails(before) && total0 == |seen0|
    ensures seen == Emails(before + users) && total == |seen|
  {
    total, seen := total0, seen0;
    assert before + users[..0] == before;
    for j := 0 to |users|
      invariant seen == Emails(before + users[..j]) && total == |seen|
    {
      assert before + users[..j + 1] == before + users[..j] + [users[j]];
      EmailsAppend(before + users[..j], users[j]);
      if users[j].email !in seen {
        seen := seen + {users[j].email};
        total := total + 1;
      }
    }
    assert before + users[..|users|] == before + users;
  }

  lemma NoAnswers(answers: seq<Option<Answer>>)
    requires answers == []
    ensures Found(answers) == [] && SumCounts(Found(answers)) == 0
    ensures Flatten(UsersOf(Found(answers))) == [] && Emails([]) == {}
  {}

  lemma OneMoreAnswer(answers: seq<Answer>, a: Answer)
    ensures SumCounts(answers + [a]) == SumCounts(answers) + a.count
    ensures Flatten(UsersOf(answers + [a])) == Flatten(UsersOf(answers)) + a.users
  {
    assert (answers + [a])[..|answers|] == answers;
    assert UsersOf(answers + [a])[..|answers|] == UsersOf(answers);
  }

  /** `answers` are the store's for each segment, None for a segment not found, which ends the
      preview with an error. */
  method PreviewBlastRecipients(answers: seq<Option<Answer>>) returns (r: Result<Preview, Error>)
    ensures None in answers ==> r == Err(SegmentNotFound)
    ensures None !in answers ==>
      var given := Found(answers);
      && r.Ok?
      && r.value.totalCount == |Emails(Flatten(UsersOf(given)))|
      && r.value.duplicatesCount == SumCounts(given) - r.value.totalCount
      && |r.value.bySegment| == |given| && forall i :: 0 <= i < |given| ==> r.value.bySegment[i] == given[i].count
  {
    hide Found, Flatten, SumCounts, UsersOf, Emails;
    var seenEmails: set<string> := {};
    var total, before, counts := 0, 0, [];
    ghost var seen: seq<User> := [];
    NoAnswers(answers[..0]);
    for i := 0 to |answers|
      invariant None !in answers[..i]
      invariant seen == Flatten(UsersOf(Found(answers[..i])))
      invariant seenEmails == Emails(seen) && total == |seenEmails|
      invariant before == SumCounts(Found(answers[..i]))
      invariant |counts| == i && forall k :: 0 <= k < i ==> counts[k] == Found(answers[..i])[k].count
    {
      assert answers[..i + 1] == answers[..i] + [answers[i]];
      if answers[i].None? { return Err(SegmentNotFound); }
      var answer := answers[i].value;
      FoundAppend(answers, i);
      OneMoreAnswer(Found(answers[..i]), answer);
      counts := counts + [answer.count];
      before := before + answer.count;
      total, seenEmails := CountNew(seen, answer.users, total, seenEmails);
      seen := seen + answer.users;
    }
    assert answers[..|answers|] == answers;
    r := Ok(Preview(total, before - total, counts));
  }

  /** The queries for each of the segments. */
  method AskSegments(campaigns: seq<int>, criteria: seq<SegmentQuery.Criteria>) returns (asked: seq<SegmentQuery.Asked>)
    requires |campaigns| == |criteria|
    ensures |asked| == |criteria|
    ensures forall i :: 0 <= i < |asked| ==> SegmentQuery.SameRows(asked[i])
    ensures forall i, table :: 0 <= i < |asked| ==>
      Filter(table, asked[i].select.where, asked[i].selectArgs)
      == SegmentQuery.Matching(table, campaigns[i], criteria[i])
  {
    hide SegmentQuery.SameRows, SegmentQuery.Matching, Filter;
    asked := [];
    for i := 0 to |criteria|
      invariant |asked| == i
      invariant forall k :: 0 <= k < i ==> SegmentQuery.SameRows(asked[k])
      invariant forall k, table :: 0 <= k < i ==>
        Filter(table, asked[k].select.where, asked[k].selectArgs)
        == SegmentQuery.Matching(table, campaigns[k], criteria[k])
    {
      var q := SegmentQuery.AskSegment(campaigns[i], criteria[i]);
      asked := asked + [q];
    }
  }

  ghost predicate Selects(users: seq<User>, table: seq<User>, q: SegmentQuery.Asked) {
    multiset(users) == multiset(Filter(table, q.select.where, q.selectArgs))
  }

  /** An answer of the store to the two queries on a table; rows may come in any order. */
  ghost predicate Answers(a: Answer, table: seq<User>, q: SegmentQuery.Asked) {
    && a.count == |Filter(table, q.count.where, q.countArgs)|
    && Selects(a.users, table, q)
  }

  lemma {:induction false} FlattenLength(answers: seq<Answer>)
    requires forall i :: 0 <= i < |answers| ==> answers[i].count == |answers[i].users|
    ensures |Flatten(UsersOf(answers))| == SumCounts(answers)
  {
    if answers != [] {
      FlattenLength(answers[..|answers| - 1]);
      assert UsersOf(answers)[..|answers| - 1] == UsersOf(answers[..|answers| - 1]);
    }
  }

  lemma {:induction false} EmailsAtMost(users: seq<User>)
    ensures |Emails(users)| <= |users|
  {
    if users != [] {
      EmailsAtMost(users[..|users| - 1]);
      EmailsAppend(users[..|users| - 1], users[|users| - 1]);
      assert users == users[..|users| - 1] + [users[|users| - 1]];
    }
  }

  lemma CountIsLength(a: Answer, table: seq<User>, q: SegmentQuery.Asked)
    requires SegmentQuery.SameRows(q) && Answers(a, table, q)
    ensures a.count == |a.users|
  {
    assert |a.users| == |multiset(a.users)|;
    assert |Filter(table, q.select.where, q.selectArgs)| == |multiset(Filter(table, q.select.where, q.selectArgs))|;
  }

  lemma SameRowsSameEmails(a: seq<User>, b: seq<User>)
    requires multiset(a) == multiset(b)
    ensures Emails(a) == Emails(b)
  {
    forall v ensures v in a <==> v in b {
      assert v in a <==> v in multiset(a);
      assert v in b <==> v in multiset(b);
    }
    SameMembersSameEmails(a, b);
    SameMembersSameEmails(b, a);
  }

  /** Lists with the same rows in other orders have as many rows and the same emails. */
  lemma {:induction false} SamePopulation(a: seq<seq<User>>, b: seq<seq<User>>)
    requires |a| == |b| && forall i :: 0 <= i < |a| ==> multiset(a[i]) == multiset(b[i])
    ensures |Flatten(a)| == |Flatten(b)| && Emails(Flatten(a)) == Emails(Flatten(b))
  {
    if a != [] {
      var n := |a| - 1;
      SamePopulation(a[..n], b[..n]);
      assert |a[n]| == |multiset(a[n])| == |multiset(b[n])| == |b[n]|;
      SameRowsSameEmails(a[n], b[n]);
      forall e ensures e in Emails(Flatten(a)) <==> e in Emails(Flatten(b)) {
        EmailsConcat(Flatten(a[..n]), a[n], e);
        EmailsConcat(Flatten(b[..n]), b[n], e);
      }
    }
  }

  /** Main result: on one table the preview's total is the count that creation returns, whose
      own queries may answer in another order, and its duplicates are all rows less the
      distinct emails, never negative. */
  lemma PreviewAgrees(asked: seq<SegmentQuery.Asked>, table: seq<User>, answers: seq<Answer>, created: seq<seq<User>>)
    requires |asked| == |answers| == |created|
    requires forall i :: 0 <= i < |asked| ==> SegmentQuery.SameRows(asked[i])
    requires forall i :: 0 <= i < |asked| ==> Answers(answers[i], table, asked[i])
    requires forall i :: 0 <= i < |asked| ==> Selects(created[i], table, asked[i])
    ensures |Emails(Flatten(UsersOf(answers)))| == |Dedup(Flatten(created))|
    ensures SumCounts(answers) == |Flatten(created)|
    ensures SumCounts(answers) - |Emails(Flatten(UsersOf(answers)))| >= 0
  {
    hide SegmentQuery.SameRows, Filter;
    forall i | 0 <= i < |answers|
      ensures answers[i].count == |answers[i].users| && multiset(answers[i].users) == multiset(created[i])
    {
      CountIsLength(answers[i], table, asked[i]);
    }
    FlattenLength(answers);
    SamePopulation(UsersOf(answers), created);
    EmailsAtMost(Flatten(created));
    DedupLaws(Flatten(created));
    DistinctCount(Dedup(Flatten(created)));
  }
}

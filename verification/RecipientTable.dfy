/**
 The blast_recipients table: inserting users in batches under UNIQUE (blast_id, user_id) with
 ON CONFLICT DO NOTHING, and selecting a batch.
 */
module RecipientTable {
  import opened Batches
  import opened Sql

  datatype RecipientStatus = Pending | Queued | Sending | Sent | Delivered | Opened | Clicked | Bounced | Failed

  datatype Recipient = Recipient(blast: int, user: int, email: string, batch: int, status: RecipientStatus)

  ghost predicate DistinctIds(users: seq<User>) {
    forall i, j :: 0 <= i < j < |users| ==> users[i].id != users[j].id
  }

  // ---------------------------------------------------------------- insertion

  predicate Present(table: seq<Recipient>, blast: int, user: int) {
    exists k :: 0 <= k < |table| && table[k].blast == blast && table[k].user == user
  }

  /** INSERT ... ON CONFLICT (blast_id, user_id) DO NOTHING. */
  function Insert(table: seq<Recipient>, r: Recipient): seq<Recipient> {
    if Present(table, r.blast, r.user) then table else table + [r]
  }

  /** A new row is pending, by the column's default. */
  function RowFor(blast: int, users: seq<User>, batchSize: int, i: nat): Recipient
    requires i < |users| && batchSize > 0
  {
    Recipient(blast, users[i].id, users[i].email, i / batchSize, Pending)
  }

  /** The table after inserting the first n users of a list. */
  function InsertUsers(table: seq<Recipient>, blast: int, users: seq<User>, batchSize: int, n: nat): seq<Recipient>
    requires n <= |users| && batchSize > 0
  {
    if n == 0 then table
    else Insert(InsertUsers(table, blast, users, batchSize, n - 1), RowFor(blast, users, batchSize, n - 1))
  }

  function RowsFor(blast: int, users: seq<User>, batchSize: int, n: nat): (r: seq<Recipient>)
    requires n <= |users| && batchSize > 0
    ensures |r| == n && forall i :: 0 <= i < n ==> r[i] == RowFor(blast, users, batchSize, i)
  {
    if n == 0 then [] else RowsFor(blast, users, batchSize, n - 1) + [RowFor(blast, users, batchSize, n - 1)]
  }

  /** The row holds the user, waiting to be mailed, in the batch that item i falls in. */
  ghost predicate IsRowFor(r: Recipient, blast: int, u: User, i: nat, batchSize: int) {
    && r.blast == blast && r.user == u.id && r.email == u.email && r.status.Pending?
    && r.batch * batchSize <= i < r.batch * batchSize + batchSize
  }

  /** The row is the first of the list's users with that ID. */
  ghost predicate Inserted(r: Recipient, blast: int, users: seq<User>, batchSize: int, n: nat) {
    exists i :: 0 <= i < n && i < |users| && IsRowFor(r, blast, users[i], i, batchSize)
      && forall j :: 0 <= j < i ==> users[j].id != users[i].id
  }

  lemma RowForIs(blast: int, users: seq<User>, batchSize: int, i: nat)
    requires i < |users| && batchSize > 0
    ensures IsRowFor(RowFor(blast, users, batchSize, i), blast, users[i], i, batchSize)
  {
    BatchOf(i, batchSize, i / batchSize);
  }

  lemma InsertedLater(r: Recipient, blast: int, users: seq<User>, batchSize: int, n: nat)
    requires n > 0 && Inserted(r, blast, users, batchSize, n - 1)
    ensures Inserted(r, blast, users, batchSize, n)
  {}

  lemma InsertOne(before: seq<Recipient>, blast: int, users: seq<User>, batchSize: int, n: nat)
    requires 0 < n <= |users| && batchSize > 0
    requires forall i :: 0 <= i < n - 1 ==> Present(before, blast, users[i].id)
    ensures var after := Insert(before, RowFor(blast, users, batchSize, n - 1));
      && |before| <= |after| <= |before| + 1 && after[..|before|] == before
      && (forall i :: 0 <= i < n ==> Present(after, blast, users[i].id))
      && (|after| > |before| ==>
            && Inserted(after[|before|], blast, users, batchSize, n) && !Present(before, blast, after[|before|].user))
  {
    var r := RowFor(blast, users, batchSize, n - 1);
    var after := Insert(before, r);
    RowForIs(blast, users, batchSize, n - 1);
    forall i | 0 <= i < n ensures Present(after, blast, users[i].id) {
      if Present(before, blast, users[i].id) {
        var k :| 0 <= k < |before| && before[k].blast == blast && before[k].user == users[i].id;
        assert after[k] == before[k];
      } else {
        assert after[|before|] == r;
      }
    }
  }

  /** Main result: inserting a list of users keeps the table, makes each of them a recipient of
      the blast, adds only rows with the ID and the email of one and the same of them, the
      first with that ID, and never two rows for one user. */
  lemma {:induction false} InsertMeans(table: seq<Recipient>, blast: int, users: seq<User>, batchSize: int, n: nat)
    requires n <= |users| && batchSize > 0
    ensures var after := InsertUsers(table, blast, users, batchSize, n);
      && |table| <= |after| && after[..|table|] == table
      && (forall i :: 0 <= i < n ==> Present(after, blast, users[i].id))
      && (forall k :: |table| <= k < |after| ==> Inserted(after[k], blast, users, batchSize, n))
      && (forall j, k :: 0 <= j < k && |table| <= k < |after| && after[j].blast == blast ==>
            after[j].user != after[k].user)
  {
    hide IsRowFor, RowFor, Inserted;
    if n > 0 {
      var before, r := InsertUsers(table, blast, users, batchSize, n - 1), RowFor(blast, users, batchSize, n - 1);
      InsertMeans(table, blast, users, batchSize, n - 1);
      forall k | |table| <= k < |before| ensures Inserted(before[k], blast, users, batchSize, n) {
        InsertedLater(before[k], blast, users, batchSize, n);
      }
      InsertOne(before, blast, users, batchSize, n);
    }
  }

  /** For a blast without recipients and distinct users no insert conflicts. */
  lemma {:induction false} FreshInsert(table: seq<Recipient>, blast: int, users: seq<User>, batchSize: int, n: nat)
    requires n <= |users| && batchSize > 0 && DistinctIds(users)
    requires forall k :: 0 <= k < |table| ==> table[k].blast != blast
    ensures InsertUsers(table, blast, users, batchSize, n) == table + RowsFor(blast, users, batchSize, n)
  {
    if n > 0 {
      FreshInsert(table, blast, users, batchSize, n - 1);
    }
  }

  /** Users who are all recipients already are all skipped. */
  lemma {:induction false} RepeatInsert(table: seq<Recipient>, blast: int, users: seq<User>, batchSize: int, n: nat)
    requires n <= |users| && batchSize > 0
    requires forall i :: 0 <= i < |users| ==> Present(table, blast, users[i].id)
    ensures InsertUsers(table, blast, users, batchSize, n) == table
  {
    if n > 0 {
      RepeatInsert(table, blast, users, batchSize, n - 1);
    }
  }

  // ---------------------------------------------------------------- batches

  /** SELECT ... WHERE batch_number = $2: the rows of a batch, whatever their status, as
      positions in the table. */
  function OfBatch(rows: seq<Recipient>, n: int): (ids: seq<nat>)
    ensures forall j :: 0 <= j < |ids| ==> ids[j] < |rows| && rows[ids[j]].batch == n
    ensures forall i, j :: 0 <= i < j < |ids| ==> ids[i] < ids[j]
    ensures ids == [] <==> forall k :: 0 <= k < |rows| ==> rows[k].batch != n
  {
    if rows == [] then []
    else OfBatch(rows[..|rows| - 1], n) + (if rows[|rows| - 1].batch == n then [|rows| - 1] else [])
  }

  lemma {:induction false} OfBatchMembers(rows: seq<Recipient>, n: int, k: nat)
    ensures k in OfBatch(rows, n) <==> k < |rows| && rows[k].batch == n
  {
    if rows != [] {
      OfBatchMembers(rows[..|rows| - 1], n, k);
    }
  }

  /** If the rows of batch b are those from lo to hi then the batch has hi - lo rows. */
  lemma {:induction false} BatchIsRun(rows: seq<Recipient>, b: int, lo: nat, hi: nat)
    requires lo <= hi <= |rows|
    requires forall k :: 0 <= k < |rows| ==> (rows[k].batch == b <==> lo <= k < hi)
    ensures |OfBatch(rows, b)| == hi - lo
  {
    if rows != [] {
      var last := |rows| - 1;
      BatchIsRun(rows[..last], b, Min(lo, last), Min(hi, last));
    }
  }

  lemma BatchLength(blast: int, users: seq<User>, size: int, b: nat, lo: nat)
    requires size > 0 && lo == b * size
    ensures |OfBatch(RowsFor(blast, users, size, |users|), b)| == Min(lo + size, |users|) - Min(lo, |users|)
  {
    var rows := RowsFor(blast, users, size, |users|);
    forall k | 0 <= k < |rows| ensures rows[k].batch == b <==> lo <= k < lo + size {
      BatchOf(k, size, b);
      assert rows[k] == RowFor(blast, users, size, k);
    }
    BatchIsRun(rows, b, Min(lo, |users|), Min(lo + size, |users|));
  }

  /** Main result: the batches 0 to (n - 1) / size are all non-empty, all but the last hold
      exactly `size` recipients, and there are no others. */
  lemma BatchSizes(blast: int, users: seq<User>, size: int, b: nat)
    requires users != [] && size > 0
    ensures var rows, last := RowsFor(blast, users, size, |users|), (|users| - 1) / size;
      && (b < last ==> |OfBatch(rows, b)| == size)
      && (b == last ==> 0 < |OfBatch(rows, b)| <= size)
      && (b > last ==> OfBatch(rows, b) == [])
  {
    hide OfBatch;
    assert b * size >= 0;
    BatchLength(blast, users, size, b, b * size);
    BatchBounds(|users|, size, b);
  }
}

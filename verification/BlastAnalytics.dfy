/** The recipient counts of a blast and what its analytics make of them. */
module BlastAnalytics {
  import opened RecipientTable
  import opened Tally

  /** COUNT(*) FILTER (WHERE status = ...). */
  function Count(rows: seq<RecipientStatus>, st: RecipientStatus): nat {
    if rows == [] then 0 else Count(rows[..|rows| - 1], st) + (if rows[|rows| - 1] == st then 1 else 0)
  }

  datatype Analytics = Analytics(
    sentTo: int, deliveredTo: int, openedBy: int, clickedBy: int, bounced: int, failed: int)

  function GetBlastAnalytics(rows: seq<RecipientStatus>): Analytics {
    var s, d, o, c := Count(rows, Sent), Count(rows, Delivered), Count(rows, Opened), Count(rows, Clicked);
    Analytics(s + d + o + c, d + o + c, o + c, c,
              Count(rows, Bounced), Count(rows, Failed))
  }

  /** The recipients with a status in the set. */
  function NumberIn(rows: seq<RecipientStatus>, sts: set<RecipientStatus>): nat {
    Number(rows, st => st in sts)
  }

  lemma NumberInSnoc(rows: seq<RecipientStatus>, sts: set<RecipientStatus>)
    requires rows != []
    ensures NumberIn(rows, sts) == NumberIn(rows[..|rows| - 1], sts) + (if rows[|rows| - 1] in sts then 1 else 0)
  {
    NumberSnoc(rows[..|rows| - 1], rows[|rows| - 1], st => st in sts);
    assert rows == rows[..|rows| - 1] + [rows[|rows| - 1]];
  }

  lemma NobodyYet()
    ensures forall sts :: NumberIn([], sts) == 0
  {}

  /** Main result: each figure counts the recipients who got at least that far, or whose email
      bounced or failed; and those figures with the recipients still waiting make up the table. */
  lemma {:induction false} FiguresMean(rows: seq<RecipientStatus>)
    ensures var a := GetBlastAnalytics(rows);
      && a.clickedBy == NumberIn(rows, {Clicked})
      && a.openedBy == NumberIn(rows, {Opened, Clicked})
      && a.deliveredTo == NumberIn(rows, {Delivered, Opened, Clicked})
      && a.sentTo == NumberIn(rows, {Sent, Delivered, Opened, Clicked})
      && a.bounced == NumberIn(rows, {Bounced})
      && a.failed == NumberIn(rows, {Failed})
      && a.sentTo + a.bounced + a.failed + NumberIn(rows, {Pending, Queued, Sending}) == |rows|
  {
    hide NumberIn;
    if rows == [] {
      NobodyYet();
    } else {
      FiguresMean(rows[..|rows| - 1]);
      NumberInSnoc(rows, {Clicked});
      NumberInSnoc(rows, {Opened, Clicked});
      NumberInSnoc(rows, {Delivered, Opened, Clicked});
      NumberInSnoc(rows, {Sent, Delivered, Opened, Clicked});
      NumberInSnoc(rows, {Bounced});
      NumberInSnoc(rows, {Failed});
      NumberInSnoc(rows, {Pending, Queued, Sending});
    }
  }

  lemma {:induction false} NotSent(rows: seq<RecipientStatus>)
    ensures Count(rows, Pending) + Count(rows, Queued) + Count(rows, Sending)
         == NumberIn(rows, {Pending, Queued, Sending})
  {
    hide NumberIn;
    if rows == [] {
      NobodyYet();
    } else {
      NotSent(rows[..|rows| - 1]);
      NumberInSnoc(rows, {Pending, Queued, Sending});
    }
  }

  /** For every recipient table clicked <= opened <= delivered <= sent, and the figures with
      the recipients not yet sent make up the whole table. */
  lemma Funnel(rows: seq<RecipientStatus>)
    ensures var a := GetBlastAnalytics(rows);
      && 0 <= a.clickedBy <= a.openedBy <= a.deliveredTo <= a.sentTo
      && a.sentTo + a.bounced + a.failed + Count(rows, Pending) + Count(rows, Queued) + Count(rows, Sending) == |rows|
  {
    FiguresMean(rows);
    NotSent(rows);
  }
}

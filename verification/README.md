# Waitlist platform: verified model

A Dafny model of the logic at the centre of the waitlist backend, with proofs of what that
logic keeps. `dafny verify dfyconfig.toml` checks all of it. Each module stands for one part
of the system:

- **Time-bucket charts** (`Calendar`, `SignupCharts`, `SourceCharts`, `SourceRows`, `SourceTotals`): hour,
  day, week and month buckets over the proleptic Gregorian calendar (month lengths and leap
  years as in section 5.7 and Appendix C of RFC 3339), the gap-filling loops, the in-place
  exchange sort of the sources and the string-keyed lookup table. An instant is a number of
  nanoseconds since the Unix epoch.
- **Kafka worker pool** (`Consumer`, `ConsumerShutdown`, `ConsumerObject`): the fetch loop,
  the bounded channel, N workers, and a `Stop` that races with `Start`, as single steps that
  interleave freely; and the goroutines' own sequential code, with the others interfering
  between any two statements.
- **Filter-to-SQL builders** (`Like`, `Sql`, `SegmentQuery`, `ListQuery`): conditions with
  hand-numbered placeholders, evaluated over rows with SQL's three truth values.
- **Email blasts** (`Batches`, `RecipientTable`, `Recipients`, `BlastStatus`, `BlastLifecycle`,
  `BlastSchedule`, `BlastStore`, `BlastDelivery`, `BlastRuns`, `BlastCompletion`, `BlastMail`,
  `BlastWorker`, `BlastHandlers`, `BlastAnalytics`, `Paging`): recipient deduplication and
  batching, the status machine under interleaved and under serial calls, when the scheduler
  starts a blast, delivery by batch events (when it completes, how often it mails, and that
  the worker's code is what its steps in the machine are), recipient figures, and the
  paginated listing.
- **Rewards** (`Rewards`, `RewardStore`): check, count, insert and increment as four
  statements without a transaction.
- **Codecs and flattening** (`Text`, `ArrayCodecs`, `Flatten`): PostgreSQL array text, UUIDs,
  and flattening of nested webhook data. `Prelude` holds the result
  types and `Tally` what it means to count.

## What the proofs say about the code

Most expected properties hold for all inputs. These do not hold as one would expect; each has
a concrete input and, where the failing family can be told beforehand, its exact condition:

- A NULL and an empty `utm_source` share one chart key. A bucket that has both loses the
  empty one's signups (`SourceTotals.BlankSourcesCollide`); the chart's total is right if and
  only if no bucket has both (`SourceTotals.TotalConserved`).
- A custom-field filter is a substring test if and only if its value has no `%`, `_` or
  backslash (`Like.SubstringIffPlain`).
- A terminal blast status is not final when calls interleave
  (`BlastLifecycle.CancelledThenProcessing`). It is final if and only if no call in flight
  still holds an unguarded write of a non-terminal status
  (`BlastLifecycle.TerminalAbsorbingIff`). When calls run one at a time it is always final.
- A scheduled blast can start before its time (`BlastSchedule.StartsEarly`): the scheduler's
  write does not look at the time again. It starts only at or after the time it was last
  scheduled for if and only if that time has come already or no pass of the scheduler is about
  to write because of an earlier one (`BlastSchedule.OnTimeIff`).
- Recipients are numbered from batch 0, but the worker and `ResumeBlast` dispatch batches from
  1 on. Batch 0 is never mailed and its rows stay pending (`BlastDelivery.BatchZeroNeverMailed`),
  so the chain of batch events of an undisturbed blast ends without completing it
  (`BlastWorker.Deliver`).
- A blast whose audience is never found empty can be completed if and only if it has no
  recipients yet or a completion is already under way (`BlastCompletion.CompletableIff`).
  Paused and resumed before its started event is handled, it completes without creating a
  recipient (`BlastCompletion.ResumedBeforeStarted`); paused and resumed while that handler is
  about to create the recipients, it completes with recipients none of whom is mailed
  (`BlastCompletion.CompletedWithRecipients`).
- A recipient can be mailed more than once: as often as the event of its batch is taken up,
  and never more (`BlastMail.MailedAtMostTaken`, `BlastMail.MailedAsOftenAsTaken`). A resume
  after a stop in the middle of a batch starts that batch again (`BlastMail.ResumeMailsAgain`),
  which mails a recipient twice (`BlastMail.MailedTwiceByResume`).
- The reward total and a user's limit can each be exceeded by the number of concurrent calls
  less one, and are (`Rewards.OvershootIsReached`, `Rewards.UserOvershootIsReached`).
- A text array survives being written and read if and only if it meets the condition of
  `ArrayCodecs.RoundTripIff`.
- Keys with underscores can make a flattened payload depend on map order
  (`Flatten.CollidingKeys`); it does if and only if two leaves with different values join to
  the same key (`Flatten.OrderMattersIff`).

Where documentation and code disagree, the model follows the code. `internal/workers/interfaces.go`
lines 13-18 say a failed event is redelivered; the code only leaves it uncommitted, and that is
all that is stated here. The listing's `HasReferrals` filters nothing when false
(`internal/store/waitlist_user.go` line 773), unlike the segment's.
`internal/emailblasts/processor/processor.go` line 499 says the scheduler picks up a batch whose
dispatch failed on resume; `GetScheduledBlasts` selects only scheduled blasts, so it does not.

## Model

| member | source | states |
|---|---|---|
| `Calendar.CivilRoundTrip` | internal/analytics/processor/processor.go:584-604 | every valid date is recovered from its day number, so the calendar under the truncation has no gaps and no overlaps |
| `Calendar.DayNumberOfCivil` | internal/analytics/processor/processor.go:584-604 | every day number is recovered from its date, before and after the epoch |
| `Calendar.NextMonthStart` | internal/analytics/processor/processor.go:606-619 | the first of the following month is a calendar month away, across leap Februaries and year ends |
| `Calendar.TruncateIsStart` | internal/analytics/processor/processor.go:584-604 | truncation lands on a full hour, a midnight, a Monday midnight or a first of the month, also when day-(weekday-1) is zero or negative |
| `Calendar.BucketContains` | internal/analytics/processor/processor.go:584-619 | every instant lies at or after its truncation and before the next bucket |
| `Calendar.BucketIsInterval` | internal/analytics/processor/processor.go:584-619 | an instant truncates to a bucket start if and only if it lies between that start and the next: the buckets tile the time line |
| `Calendar.AdvanceIsStart` | internal/analytics/processor/processor.go:606-619 | advancing a bucket start gives a later bucket start, so the fill loop makes progress |
| `Calendar.StartTruncatesToItself` | internal/analytics/processor/processor.go:584-604 | bucket starts are the fixed points of truncation |
| `Calendar.TruncateLaws` | internal/analytics/processor/processor.go:584-619 | truncation is idempotent and monotone, and the advanced bucket start is itself a truncation |
| `Calendar.NoStartBetween` | internal/analytics/processor/processor.go:550-561 | no bucket start lies strictly between one and its successor, so stepping from the first lands on the last |
| `Calendar.StartsAreWholeSeconds` | internal/analytics/processor/processor.go:540-546 | Unix seconds tell bucket starts apart, so they are safe map keys |
| `Calendar.DatesCountOn` | internal/analytics/processor/processor.go:584-604 | 1970-01-01 is instant zero, and days and hours count on from the first of the month |
| `Calendar.MonthsAreBuckets` | internal/analytics/processor/processor.go:599-615 | for period "month" every hour of every day of a month, with the lengths of RFC 3339 written out, truncates to the first of the month, and the next bucket is that many days later, the first of the next month |
| `Calendar.HoursAndDaysAreBuckets` | internal/analytics/processor/processor.go:584-619 | for "hour" and "day" an instant truncates to its hour and to its midnight, and the next bucket is 3600 or 86400 seconds later |
| `Calendar.WeeksAreBuckets` | internal/analytics/processor/processor.go:590-618 | for "week" buckets are the seven days from Mondays, counted from Monday 1970-01-05; a text that names no period counts as a day |
| `Calendar.AddDays` | internal/analytics/processor/processor.go:328-329 | adding days moves an instant by whole days, so the default range begins 30 days before now |
| `SignupCharts.GroupRowsIsGrouping` | internal/store/analytics.go:239-250 | grouping signups by bucket yields rows with distinct bucket starts, the right counts, and a row for every signup |
| `SignupCharts.CountPerBucketMeaning` | internal/analytics/processor/processor.go:549-563 | the reference series names every bucket start in range exactly once, strictly increasing, each with the number of signups in that bucket |
| `SignupCharts.TotalIsCount` | internal/analytics/processor/processor.go:363-367 | the sum over the series is the number of signups from the first bucket to the end of the last |
| `SignupCharts.SeriesOfGrouping` | internal/analytics/processor/processor.go:530-564 | filling gaps from any grouping of the signups, in any row order, gives the direct count per bucket |
| `SignupCharts.WholeRange` | internal/analytics/processor/processor.go:305-374 | signups that lie in [from, to] are all counted: the end buckets lose nobody |
| `SignupCharts.GenerateEmptyPeriods` | internal/analytics/processor/processor.go:567-581 | without rows every bucket of the range is there with count zero |
| `SignupCharts.IndexRows` | internal/analytics/processor/processor.go:540-546 | the lookup map holds for every bucket the count of its last row |
| `SignupCharts.FillGaps` | internal/analytics/processor/processor.go:530-564 | the loop yields the series over the indexed rows from truncate(from) to truncate(to), also when there are no rows |
| `SignupCharts.SumCounts` | internal/analytics/processor/processor.go:363-367 | the total is the sum of all counts |
| `SignupCharts.CountInRange` | internal/store/analytics.go:239-250 | the query keeps every signup of the range as often as it occurs |
| `SignupCharts.PeriodNamed` | internal/analytics/processor/processor.go:342-351 | the answer names one of the four periods, the one its buckets are of |
| `SignupCharts.ReferenceIsChart` | internal/analytics/processor/processor.go:530-564 | the reference series has a point for every bucket of the range, in order, each with the number of the given signups that lie in the range and the bucket |
| `SignupCharts.GetSignupsOverTime` | internal/analytics/processor/processor.go:305-374 | not found, wrong account and inverted range answer their errors; otherwise the data has every bucket from that of `from` to that of `to` in order, each with the number of signups in [from, to] that lie in it, and Total is the number of signups in [from, to]; without dates the range is the last 30 days |
| `SourceCharts.SortedIsUnique` | internal/analytics/processor/processor.go:465-478 | a set has one ascending order with the empty text last, so map iteration order cannot show in the source list |
| `SourceCharts.ExchangeSort` | internal/analytics/processor/processor.go:470-478 | the in-place exchange sort leaves the same elements in ascending order with the empty text last |
| `SourceCharts.ExchangeFrom` | internal/analytics/processor/processor.go:471-478 | one pass of the outer loop puts the least remaining source in place and permutes the rest |
| `SourceCharts.UniqueSources` | internal/analytics/processor/processor.go:455-478 | the sources are exactly those of the rows, sorted, without repetition |
| `SourceCharts.SourceKeyInjective` | internal/analytics/processor/processor.go:525-527 | two table keys are equal only for the same time and the same source, for all texts and negative times |
| `SourceCharts.IndexRows` | internal/analytics/processor/processor.go:487-495 | the lookup table holds for every bucket and source key the count of its last row |
| `SourceCharts.FillBucket` | internal/analytics/processor/processor.go:503-517 | one bucket yields one row per source in source order, with the looked-up count or zero |
| `SourceCharts.FillBuckets` | internal/analytics/processor/processor.go:498-519 | the outer loop yields the buckets one after the other |
| `SourceCharts.FillGapsBySource` | internal/analytics/processor/processor.go:450-522 | the chart is the series of all sources over all buckets of the range, empty without rows |
| `SourceRows.GroupRowsIsGrouping` | internal/store/analytics.go:274-285 | grouping signups by bucket and source yields rows by bucket and then by source, NULL sources last, with distinct keys, the right positive counts, and a row for every signup |
| `SourceRows.CountInRange` | internal/store/analytics.go:281-282 | the WHERE clause keeps every signup of the range, whatever its source, as often as it occurs |
| `SourceTotals.TableShows` | internal/analytics/processor/processor.go:487-495 | a table entry is the number of signups of its bucket and source, except that with NULL sources in the bucket the blank entry shows only those |
| `SourceTotals.SourceCountsConserved` | internal/analytics/processor/processor.go:450-522 | over a range every source keeps all its signups, and the blank one is short of exactly the overwritten ones |
| `SourceTotals.LostIffMixed` | internal/analytics/processor/processor.go:487-495 | signups are overwritten if and only if some bucket has both NULL and empty sources |
| `SourceTotals.TotalConserved` | internal/analytics/processor/processor.go:377-447 | the chart's total plus the overwritten signups is the number of signups, and it is exact if and only if no bucket mixes NULL and empty sources |
| `SourceTotals.BlankSourcesCollide` | internal/store/analytics.go:274-285 | one NULL and one empty source in the same bucket give a total below two |
| `SourceTotals.SeriesIsDateMajor` | internal/analytics/processor/processor.go:498-520 | the chart has buckets times sources rows, and row i*sources+k is bucket i, source k |
| `SourceTotals.SeriesIsChart` | internal/analytics/processor/processor.go:450-522 | the filled series has one row for every bucket of the range and every source that a signup of the range has, in order, each with the number of the given signups of that source in the range and the bucket, the blank row showing those without a source or else those with an empty one |
| `SourceTotals.GetSignupsBySource` | internal/analytics/processor/processor.go:377-447 | not found, wrong account and inverted range answer their errors; otherwise the data is that chart of the given signups, the sources are exactly those of signups in [from, to], sorted with the blank one last, and the total is the number of signups in [from, to] less the overwritten ones |
| `Consumer.InitInv` | internal/workers/consumer.go:89-95 | the invariants hold of a fresh consumer |
| `Consumer.StepKeeps` | internal/workers/consumer.go:120-261 | every step of the fetch loop, a worker, Start or Stop keeps channel safety, the stop protocol, first-in first-out order, the single place of every message, and the exact balance of commits |
| `Consumer.RunKeeps` | internal/workers/consumer.go:120-261 | the invariants hold after every schedule |
| `ConsumerShutdown.Safety` | internal/workers/consumer.go:172-238 | in every interleaving nothing is sent on or closes a closed channel, the queue stays within capacity, workers take messages in send order, every fetched message is in exactly one place, none reaches Process twice, at most one is dropped, and every unparseable or succeeded one, and no other, is committed, has had its commit fail, or is about to be committed, once |
| `ConsumerShutdown.DrainedMeansProcessed` | internal/workers/consumer.go:142-169 | when Start returns because all workers are done, the queue is empty, every sent message was processed exactly once, every fetched one was processed, skipped or dropped, and every one that succeeded or was skipped has been committed unless its commit failed |
| `ConsumerShutdown.LogTellsSchedule` | internal/workers/consumer.go:172-238 | in every run the numbers of messages fetched, sent, dropped, skipped, started, succeeded, failed, committed and refused are those of the schedule's actions of each kind |
| `ConsumerShutdown.EverythingCommitted` | internal/workers/consumer.go:192-236 | when no commit fails and the workers are done, every message that succeeded or could not be parsed has been committed exactly once, and no other |
| `ConsumerShutdown.MessagesPass` | internal/workers/consumer.go:172-236 | an idle consumer can always take the next message from Kafka to its end, and nothing else changes: it is processed and its commit call made, or its processing fails and it is not committed |
| `ConsumerShutdown.SkippedPass` | internal/workers/consumer.go:191-196 | a message that is no event has its commit call made without being processed, and the loop goes on |
| `ConsumerShutdown.ErrorsPass` | internal/workers/consumer.go:180-188 | a failed fetch ends the loop of a consumer that is stopping or cancelled, and of no other |
| `ConsumerShutdown.DrainEnds` | internal/workers/consumer.go:148-169 | Start ends drained when all workers have exited, and at the drain timeout whatever they do |
| `ConsumerShutdown.NoLostStop` | internal/workers/consumer.go:243-261 | once Stop waits, either the fetch context is cancelled or the fetch loop has fetched nothing and returns at its next check, even when Stop saw no cancel function |
| `ConsumerShutdown.AtMostOneMoreFetch` | internal/workers/consumer.go:172-187 | after the stop flag is set at most one more message is fetched |
| `ConsumerShutdown.StepDecreases` | internal/workers/consumer.go:142-238 | after the stop flag is set every step of every goroutine strictly decreases the work left |
| `ConsumerShutdown.ShutdownIsBounded` | internal/workers/consumer.go:142-261 | no run after the stop flag is longer than the work left |
| `ConsumerShutdown.ShutdownProgresses` | internal/workers/consumer.go:142-261 | until Start and Stop have returned some step is possible, and a pending fetch is left waiting only with its context cancelled |
| `ConsumerShutdown.StuckMeansStopped` | internal/workers/consumer.go:142-261 | a stopping run that cannot go on has Start and Stop both returned |
| `ConsumerShutdown.StopAloneBlocks` | internal/workers/consumer.go:243-261 | without a Start, Stop waits on doneCh and only a Start can move the system |
| `ConsumerObject.Pool.constructor` | internal/workers/consumer.go:89-95 | a new consumer is the initial state and satisfies the invariants |
| `ConsumerObject.OthersStable` | internal/workers/consumer.go:120-261 | no step of another goroutine moves a goroutine, closes its channels behind the fetch loop, or takes back the stop flag |
| `ConsumerObject.Pool.Others` | internal/workers/consumer.go:120-261 | after any number of steps of the other goroutines the invariants hold and what the goroutine relies on is unchanged |
| `ConsumerObject.Pool.FetchLoop` | internal/workers/consumer.go:172-205 | the loop as sequential code, with any steps of the workers and of Stop between two statements: the invariants hold at every such point, every statement is a step of a run from the start, and the loop returns only once the stop flag is set |
| `ConsumerObject.Pool.SendToWorkers` | internal/workers/consumer.go:198-204 | at the select the channel is still open whatever the others did, so the send cannot panic; the message is sent, dropped with the context done, or left waiting while the channel is full and the context not done |
| `ConsumerObject.Pool.WorkerLoop` | internal/workers/consumer.go:208-240 | the same for a worker: it exits exactly when it finds the channel closed and empty, and every event whose Process succeeded gets its one commit call, kept by the invariants at every point |
| `ConsumerObject.Pool.Start` | internal/workers/consumer.go:120-169 | the same for all of Start: when it returns doneCh is closed, and when it returns because the workers are done the queue is empty, everything sent was processed exactly once, and what succeeded or was skipped is committed unless its commit failed |
| `ConsumerObject.Pool.CloseEvents` | internal/workers/consumer.go:145-146 | the channel is closed once: it is still open when the fetch loop has returned |
| `ConsumerObject.Pool.Stop` | internal/workers/consumer.go:243-261 | the same for Stop: while it waits the context is cancelled or nothing has been fetched, and when it returns Start has finished |
| `Like.PlainSubstring` | internal/store/segment.go:299-305 | a pattern made from a value without wildcards matches exactly the texts that contain it |
| `Like.SubstringIffPlain` | internal/store/segment.go:299-305 | ILIKE on %value% is a case-insensitive substring test for every text if and only if the value has no %, _ or backslash |
| `Like.EscapedSubstring` | internal/store/segment.go:299-305 | with its special characters escaped any value would be searched for literally |
| `Like.UnderscoresCount` | internal/store/segment.go:299-305 | an underscore in a value stands for exactly one character |
| `Like.LetterByLetter` | internal/store/segment.go:299-305 | comparing without case turns each capital letter into its small one and leaves every other character |
| `Sql.EvalStable` | internal/store/segment.go:211-323 | arguments appended later do not change a condition built earlier |
| `Sql.AppendClause` | internal/store/segment.go:222-305 | a clause with the next placeholder numbers and its arguments conjoins exactly that clause and keeps the numbering, NULL included |
| `Sql.MoreArgs` | internal/store/segment.go:307-320 | pagination arguments leave the WHERE clause's meaning alone |
| `Sql.SameFilter` | internal/store/waitlist_user.go:1015-1080 | two clauses that hold of the same rows select the same rows of every table |
| `SegmentQuery.Extend` | internal/store/segment.go:222-305 | one more clause with its arguments handles one more criterion and keeps argCount equal to the number of arguments |
| `SegmentQuery.StatusesHandled` | internal/store/segment.go:222-234 | the IN list with counted placeholders accepts exactly the listed statuses |
| `SegmentQuery.SourcesHandled` | internal/store/segment.go:236-248 | the IN list accepts exactly the listed sources and never a NULL source |
| `SegmentQuery.VerifiedHandled` | internal/store/segment.go:250-255 | the clause accepts exactly the users with that verification flag |
| `SegmentQuery.ReferralsHandled` | internal/store/segment.go:257-264 | true keeps users with referrals, false those without, with no argument used |
| `SegmentQuery.MinReferralsHandled` | internal/store/segment.go:266-271 | the clause accepts exactly the users with that many referrals |
| `SegmentQuery.MinPositionHandled` | internal/store/segment.go:273-278 | the clause accepts exactly positions from the bound on |
| `SegmentQuery.MaxPositionHandled` | internal/store/segment.go:280-284 | the clause accepts exactly positions up to the bound |
| `SegmentQuery.DateFromHandled` | internal/store/segment.go:286-291 | the clause accepts exactly users created at or after the bound |
| `SegmentQuery.DateToHandled` | internal/store/segment.go:293-297 | the clause accepts exactly users created at or before the bound |
| `SegmentQuery.FieldHandled` | internal/store/segment.go:299-305 | the two placeholders of a custom field are its key and its pattern; NULL metadata or a missing key never matches |
| `SegmentQuery.KeyDone` | internal/store/segment.go:299-305 | taking the custom fields one at a time, in any order, handles each once |
| `SegmentQuery.InHoles` | internal/store/segment.go:225-228 | the placeholder loop numbers the list consecutively from argCount |
| `SegmentQuery.ListConditions` | internal/store/segment.go:212-255 | the clauses up to the verification filter mean those criteria, with argCount right |
| `SegmentQuery.FixedConditions` | internal/store/segment.go:257-297 | the clauses up to the date range mean all criteria but the custom fields |
| `SegmentQuery.Conditions` | internal/store/segment.go:211-305 | the whole WHERE clause means the criteria, whatever order the custom fields are visited in |
| `SegmentQuery.BuildSegmentFilterQuery` | internal/store/segment.go:211-323 | for every criteria the query keeps exactly the matching users, placeholders read $1, $2, ... with one argument each, and order, limit and offset are there exactly when asked for |
| `SegmentQuery.QuerySelectsMatching` | internal/store/segment.go:185-208 | on every table a query that means the criteria selects exactly the matching users |
| `SegmentQuery.AskSegment` | internal/store/segment.go:185-195 | the count query and the unpaginated select built for one segment see the same rows of every table, exactly the matching users |
| `ListQuery.AnyStatusHandled` | internal/store/waitlist_user.go:758-763 | status = ANY accepts exactly the listed statuses |
| `ListQuery.AnySourceHandled` | internal/store/waitlist_user.go:765-770 | source = ANY accepts exactly the listed sources and never a NULL source |
| `ListQuery.BasicConditions` | internal/store/waitlist_user.go:871-920 | the conditions all four builders share mean the filters without custom fields |
| `ListQuery.RangeConditions` | internal/store/waitlist_user.go:777-801 | the position and date bounds mean those filters |
| `ListQuery.FieldConditions` | internal/store/waitlist_user.go:803-810 | the custom-field clauses mean the custom fields in any order |
| `ListQuery.ListConditions` | internal/store/waitlist_user.go:1015-1072 | the conditions of the extended builders mean all filters |
| `ListQuery.Paginate` | internal/store/waitlist_user.go:812-840 | order and direction are the requested ones or the defaults, limit and offset are always bound to their own arguments |
| `ListQuery.SortedByColumn` | internal/store/waitlist_user.go:812-831 | the listing is sorted by the column asked for when it is one of the six, and by position otherwise |
| `ListQuery.FiltersMean` | internal/store/waitlist_user.go:758-810 | the filters, written out on a user's columns, are the criteria the clauses are proved to mean; `hasReferrals` matters only when true |
| `ListQuery.ListWithExtendedFilters` | internal/store/waitlist_user.go:750-849 | the listing keeps exactly the users whose columns every given filter accepts, placeholders in range and in order |
| `ListQuery.CountWithExtendedFilters` | internal/store/waitlist_user.go:1015-1080 | the count query keeps exactly the same users |
| `ListQuery.ListBasic` | internal/store/waitlist_user.go:871-959 | the same for the listing without custom fields |
| `ListQuery.CountBasic` | internal/store/waitlist_user.go:962-1012 | the same for its count |
| `ListQuery.ListAndCount` | internal/waitlist/processor/processor.go:490-547 | for every request and every table, the listing and the count built for it, extended or basic, select the same rows, so the count is the length of the list before pagination |
| `Recipients.DedupLaws` | internal/store/email_blast.go:366-394 | deduplication keeps one user for every email that occurs and nobody else |
| `Recipients.KeptIdsDistinct` | internal/store/email_blast.go:366-394 | when a user ID determines the email, the users kept have distinct IDs too |
| `RecipientTable.FreshInsert` | internal/store/email_blast.go:325-357 | for a blast without recipients and distinct users the conflict clause never fires |
| `RecipientTable.RepeatInsert` | internal/store/email_blast.go:325-357 | users who are recipients already are all skipped by the conflict clause |
| `RecipientTable.InsertMeans` | internal/store/email_blast.go:325-357 | whatever the table holds, inserting a list of users keeps its rows, makes every one of them a recipient, adds only pending rows with the ID and email of the first user with that ID, in the batch its place falls in, and never a second row for a user |
| `Recipients.FreshCreation` | internal/store/email_blast.go:360-408 | creation for a fresh blast adds rows each with the ID and the email of one and the same user of the segments, every email of the segments exactly once, no user twice, batch numbers in turn, and the returned count is the rows inserted |
| `Recipients.RerunChangesNothing` | internal/store/email_blast.go:325-408 | running it again on the same population, in any row order and with any batch size, changes nothing |
| `Recipients.DedupKeepsWinners` | internal/store/email_blast.go:371-394 | the user kept for an email is the one of the first segment that has the email |
| `RecipientTable.BatchSizes` | internal/store/email_blast.go:344-350 | batches 0 to (n-1)/batchSize are non-empty, all but the last are full, and there are no others |
| `Recipients.RecipientStore.CreateBlastRecipientsBulk` | internal/store/email_blast.go:332-357 | the table gets every user in turn with batch number i/batchSize unless the user is a recipient already |
| `Recipients.RecipientStore.CreateBlastRecipientsFromMultipleSegments` | internal/store/email_blast.go:361-408 | a missing segment is an error and changes nothing; otherwise the deduplicated users are inserted and counted |
| `Recipients.CollectUsers` | internal/store/email_blast.go:366-394 | the loop over segments with its seen-emails map collects exactly the deduplicated users |
| `Recipients.AddUsers` | internal/store/email_blast.go:388-393 | the inner loop adds exactly the users whose email is new |
| `Recipients.PreviewBlastRecipients` | internal/store/email_blast.go:669-723 | a missing segment is an error; otherwise the total is the number of distinct emails, the duplicates are the summed counts less that, and every segment reports its count |
| `Recipients.AskSegments` | internal/store/email_blast.go:680-711 | for every segment the queries are built that the two store calls run, and they see the same rows |
| `Recipients.PreviewAgrees` | internal/store/email_blast.go:669-723 | on one table the preview's total is the count creation returns, though creation's own queries may answer in another order, and the duplicates are all rows less the distinct emails, never negative |
| `BlastLifecycle.CreatedIsSafe` | internal/store/email_blast.go:27-31 | a created blast is scheduled when it is given a time and a draft otherwise, with the given columns and nothing else set, and satisfies the row invariants |
| `BlastLifecycle.RowFrame` | internal/store/email_blast.go:113-176 | no statement changes a set start time or a deleted row, none deletes a processing, sending or paused blast, and a refused statement changes nothing |
| `BlastLifecycle.StepKeeps` | internal/emailblasts/processor/processor.go:278-540 | every step of every call, with database and dispatch failures anywhere, keeps the invariants |
| `BlastLifecycle.RunKeeps` | internal/emailblasts/processor/processor.go:278-540 | in every interleaving of API calls, scheduler and worker: terminal implies completed_at; processing, sending or paused implies started_at; scheduled implies scheduled_at; started_at never changes once set; a deleted row is not active and never changes |
| `BlastLifecycle.NoThreatStays` | internal/store/email_blast.go:167-176 | a terminal blast with no pending unguarded non-terminal write stays terminal in every run |
| `BlastLifecycle.TerminalAbsorbingIff` | internal/store/email_blast.go:167-176 | a terminal blast stays terminal in all runs if and only if no call in flight holds an unguarded write of a non-terminal status |
| `BlastLifecycle.CancelledThenProcessing` | internal/emailblasts/processor/processor.go:400-540 | a run from a new blast in which a cancel between the read and the write of a send leaves it processing with completed_at set |
| `BlastLifecycle.SerialCalls` | internal/emailblasts/processor/processor.go:278-540 | when calls run one at a time, completed_at is set exactly when the status is terminal, and cancelled, completed and failed are absorbing, failed-dispatch revert and worker events included |
| `BlastLifecycle.SeriallyInTurn` | internal/emailblasts/processor/processor.go:278-540 | calls run one at a time each start on the row the ones before left |
| `BlastSchedule.ScheduledTimeIsLast` | internal/store/email_blast.go:633-654 | in every interleaving the scheduled time is that of the schedule call last accepted, or the one the blast had |
| `BlastSchedule.OnTimeIff` | internal/workers/blast/scheduler.go:80-122 | with a clock that never goes back, the scheduler writes processing only at or after the time last scheduled for, in every run until the next schedule call, if and only if that time has come already or no scheduler pass is about to write |
| `BlastSchedule.StartsEarly` | internal/workers/blast/scheduler.go:97-104 | a run from a new blast that is found due, sent, put back to draft, scheduled for later, and then started early by the scheduler's pending write |
| `BlastSchedule.SchedulerAlone` | internal/workers/blast/scheduler.go:80-122 | a pass of the scheduler alone leaves a blast that is due processing, or failed when the dispatch fails, and any other untouched, whichever writes are refused |
| `BlastSchedule.StartedAlone` | internal/workers/blast/processor.go:90-155 | the row the started handler leaves when it runs alone, whichever of its writes are refused: completed without recipients, sending with their number, or failed |
| `BlastSchedule.BatchAlone` | internal/workers/blast/processor.go:162-258 | the row a batch handler leaves when it runs alone: only a sending blast is touched, and gets its progress or fails |
| `BlastSchedule.CompletedAlone` | internal/workers/blast/processor.go:261-287 | the completion handler completes a sending blast and touches no other |
| `BlastStore.CallsEnd` | internal/emailblasts/processor/processor.go:278-540 | every API call and scheduler pass ends within a read and two writes |
| `BlastStore.EmailBlasts.UpdateEmailBlast` | internal/emailblasts/processor/processor.go:278-320 | the code's errors in its order; a draft gets the given name and batch size and keeps every other column; and the row is what the call does alone in the state machine |
| `BlastStore.EmailBlasts.DeleteEmailBlast` | internal/emailblasts/processor/processor.go:323-354 | the same; a blast that is not active is marked deleted now |
| `BlastStore.EmailBlasts.ScheduleBlast` | internal/emailblasts/processor/processor.go:357-397 | the same; a time in the past is refused before the blast is read, and a draft becomes scheduled for exactly the given time |
| `BlastStore.EmailBlasts.SendBlastNow` | internal/emailblasts/processor/processor.go:400-442 | the same, from draft or scheduled; a failed dispatch leaves the blast a draft and answers an error, and the first start time is kept |
| `BlastStore.EmailBlasts.PauseBlast` | internal/emailblasts/processor/processor.go:445-469 | the same, from sending or processing only; nothing but the status changes |
| `BlastStore.EmailBlasts.ResumeBlast` | internal/emailblasts/processor/processor.go:472-504 | the same, from paused only, to sending, whether or not the batch event can be dispatched |
| `BlastStore.EmailBlasts.CancelBlast` | internal/emailblasts/processor/processor.go:507-540 | the same, from every non-terminal status, with the completion time set |
| `BlastDelivery.StepKeeps` | internal/workers/blast/processor.go:90-334 | every handler step, resume and status write keeps batch 0 pending, batch events from 1 on, and handlers on recipients of their own batch |
| `BlastDelivery.BatchZeroNeverMailed` | internal/workers/blast/processor.go:147-151 | in every run every batch event is for a batch from 1 on, no email goes to a recipient of batch 0, and all of them stay pending |
| `BlastDelivery.ResizedInDraft` | internal/store/email_blast.go:115-122 | the batch size changes only while the blast is a draft, to the size asked for |
| `BlastCompletion.CompletionCheck` | internal/workers/blast/processor.go:318-334 | the completion check passes exactly when the blast has no recipients at all |
| `BlastCompletion.CompletableIff` | internal/workers/blast/processor.go:90-334 | in every state the invariants allow, some run in which the segments are not found empty completes the blast if and only if it has no recipients yet or a completion is dispatched, under way or recorded; for an active blast pause, resume and the handlers are enough |
| `BlastCompletion.NeverCompletes` | internal/workers/blast/processor.go:261-334 | the half for a blast that has a recipient and no completion under way: no run in which its segments are not found empty dispatches or records completion, and someone stays pending |
| `BlastCompletion.CompletedWithRecipients` | internal/workers/blast/processor.go:108-151 | when pause, resume and the empty batch event come between the started handler's status check and its creation of the recipients, the blast completes with recipients and nothing mailed |
| `BlastCompletion.ResumeCompletesIff` | internal/emailblasts/processor/processor.go:472-504 | a paused blast whose audience is never found empty can be completed if and only if it has no recipients yet or a completion is under way; without recipients its resume and the events that follow complete it |
| `BlastCompletion.ResumedBeforeStarted` | internal/emailblasts/processor/processor.go:472-504 | a blast whose audience is never found empty, paused and resumed before its started event is handled, completes with no recipient and no email |
| `BlastMail.MailedAtMostTaken` | internal/workers/blast/processor.go:195-230 | in every run a recipient is mailed at most once for each time the event of its batch is taken up, hence at most once without redelivery or a resume of the same batch |
| `BlastMail.TakenMeansMailed` | internal/workers/blast/processor.go:195-230 | taking up a batch event mails the batch from its first recipient on, whatever the recipients' statuses |
| `BlastMail.MailedAsOftenAsTaken` | internal/workers/blast/processor.go:195-230 | the bound is exact: for every j some run takes up the first batch event j times and mails a recipient j times |
| `BlastMail.ResumeMailsAgain` | internal/emailblasts/processor/processor.go:491-500 | resuming a blast stopped in the middle of a batch mails that batch again from its first recipient on |
| `BlastMail.MailedTwiceByResume` | internal/emailblasts/processor/processor.go:472-504 | a run from a new blast in which a recipient is mailed, the blast paused and resumed, and the same recipient mailed a second time |
| `BlastHandlers.SoloIsRun` | internal/workers/blast/processor.go:90-334 | the steps of one handler alone are a run of the machine in which nobody else moves |
| `BlastHandlers.StartedSolo` | internal/workers/blast/processor.go:90-155 | what the machine's started handler leaves when it runs alone, for every combination of failing calls |
| `BlastHandlers.BatchSolo` | internal/workers/blast/processor.go:162-258 | the machine's batch handler alone marks and mails the recipients of its batch in order up to the first check that stops it, and then records the progress and looks ahead, for every combination of failing calls, emails and updates |
| `BlastHandlers.StartedAlike` | internal/workers/blast/processor.go:90-155 | the worker's code for a started event and the machine's handler alone leave the same status, recipients and events, whichever calls fail |
| `BlastHandlers.BatchAlike` | internal/workers/blast/processor.go:162-258 | the worker's code for a batch event and the machine's handler alone leave the same status, recipients, progress and events, whichever calls, emails and updates fail |
| `BlastHandlers.OthersSolo` | internal/emailblasts/processor/processor.go:445-504 | a completion event, a pause and a resume alone act only on a blast in their own statuses, and do what those of their statements that succeed do |
| `BlastHandlers.RefusedRead` | internal/workers/blast/processor.go:101-109 | a handler or call whose read of the blast fails ends and changes nothing |
| `BlastWorker.Worker.HandleBlastStarted` | internal/workers/blast/processor.go:90-155 | a blast not processing is left alone; otherwise recipients are created and batch 1 is dispatched, an empty blast is completed, and any failing call fails the blast, or leaves the status it had reached when that write fails too, without dispatching |
| `BlastWorker.Worker.HandleBlastBatch` | internal/workers/blast/processor.go:162-258 | a blast not sending is left alone; otherwise the batch is marked up to the first check that stops it, progress is recorded only at its end, and then the next batch event or the completion follows; which calls fail decides the error, the status and the events exactly |
| `BlastWorker.Worker.MailBatch` | internal/workers/blast/processor.go:208-230 | every recipient before the stop gets the outcome of its email unless the update fails, nobody else changes, and the loop stops exactly at the first tenth-email check of a batch after the first that does not find the blast sending |
| `BlastWorker.StopsWithinTen` | internal/workers/blast/processor.go:208-216 | once a blast is no longer seen sending, a batch from the second on sends fewer than ten more emails and ends early only after a multiple of ten; the first batch is always mailed to its end |
| `BlastWorker.Deliver` | internal/workers/blast/processor.go:90-258 | with nothing interfering the chain of batch events ends with every batch but batch 0 mailed, no event left and the blast still sending |
| `BlastAnalytics.FiguresMean` | internal/emailblasts/processor/processor.go:574-600 | each figure is the number of recipients who got at least that far, or whose email bounced, or failed, and those still waiting make up the rest |
| `BlastAnalytics.Funnel` | internal/store/email_blast.go:530-554 | clicked <= opened <= delivered <= sent, and sent, bounced, failed, pending, queued and sending make up the table |
| `Paging.ListEmailBlasts` | internal/emailblasts/processor/processor.go:225-268 | a page below 1 becomes 1, a limit below 1 becomes 25 and above 100 becomes 100, and the answer is that page with the total and the number of pages |
| `Paging.PagesCover` | internal/emailblasts/processor/processor.go:241-268 | for every positive limit pages 1 to TotalPages make up the whole list, each but the last has as many blasts as the limit, the last has some, and later pages are empty |
| `Rewards.StepKeeps` | internal/rewards/processor/processor.go:264-349 | every step of a grant, with failures anywhere, and every reward update or deletion keeps the bounds |
| `Rewards.RunKeeps` | internal/store/reward.go:114-136 | the bounds hold in every run, and no update changes the total or the user limit |
| `Rewards.Overshoot` | internal/rewards/processor/processor.go:264-349 | with at most k calls in flight claims stay within TotalAvailable + k - 1, a user's rows within UserLimit + that user's calls - 1, both at zero when the limit is not positive, and rows are claims plus failed increments plus grants before their increment |
| `Rewards.SerialIsExact` | internal/rewards/processor/processor.go:264-349 | one call at a time and no failed increment: the limits are exact |
| `Rewards.OvershootIsReached` | internal/rewards/processor/processor.go:282-341 | for every total of at least one some interleaving of k calls reaches TotalAvailable + k - 1 |
| `Rewards.UserOvershootIsReached` | internal/rewards/processor/processor.go:288-341 | for every user limit of at least one some interleaving of that user's k calls leaves UserLimit + k - 1 rows |
| `Rewards.ClosedIsFinal` | internal/rewards/processor/processor.go:186-262 | once a reward is deleted, or inactive and not activated again, in every interleaving only calls that had read it before add rows |
| `Rewards.Closes` | internal/rewards/processor/processor.go:186-262 | a deletion or deactivation closes the reward for every call that comes later |
| `RewardStore.ClaimsAreRows` | internal/rewards/processor/processor.go:288-300 | counting the reward among the user's rows is counting the user among the reward's rows |
| `RewardStore.RowsAreNumber` | internal/rewards/processor/processor.go:288-300 | that count is the number of the table's rows for the user and the reward |
| `RewardStore.CountClaims` | internal/rewards/processor/processor.go:294-300 | the loop counts the user's rows for the reward |
| `RewardStore.RewardTables.GrantReward` | internal/rewards/processor/processor.go:264-349 | the errors written out in the code's order, failing statements included, change nothing; otherwise one row is added with the request's or the reward's expiry, and the counter goes up by one unless that write fails |
| `RewardStore.AloneIsGrant` | internal/rewards/processor/processor.go:264-349 | a call alone in the machine of the interleavings grants exactly when GrantReward does for the reward's own campaign, whichever statements fail, and leaves the same rows and counter |
| `Text.SplitJoin` | internal/store/models.go:130-166 | splitting undoes joining when no part holds the separator |
| `Text.JoinInjective` | internal/integrations/service/zapier.go:124-130 | lists of parts without the separator are determined by their join |
| `Text.JoinSnoc` | internal/store/models.go:130-138 | one more part goes to the end after a separator |
| `Text.LessIsFirstDifference` | internal/analytics/processor/processor.go:472-476 | the order of the sources is decided by the first character in which two texts differ |
| `ArrayCodecs.TrimWrapped` | internal/store/models.go:157-158 | trimming takes off exactly the braces that were put on if and only if the joined text has no brace at either end |
| `ArrayCodecs.PartsBetweenBraces` | internal/store/models.go:141-167 | from any text Scan takes the parts between commas of what its outer braces, however many, enclose |
| `ArrayCodecs.RoundTripIff` | internal/store/models.go:122-167 | reading what was written gives the array back if and only if it is nil, or empty, or no element has a comma, it is not the single empty text, and the joined text neither starts nor ends with a brace |
| `ArrayCodecs.SharingChannelArray.Value` | internal/store/models.go:224-237 | channels are written as their names |
| `ArrayCodecs.SharingChannelArray.Scan` | internal/store/models.go:240-276 | the receiver's names become the parsed parts, or stay as they were |
| `ArrayCodecs.Convert` | internal/store/models.go:270-274 | the loop makes one channel of every part in order |
| `ArrayCodecs.UuidRoundTrip` | internal/store/models.go:72-75 | every UUID is parsed back from its canonical text |
| `ArrayCodecs.CanonicalText` | internal/store/models.go:72-75 | a UUID is written in lower case in groups of 8, 4, 4, 4 and 12 digits |
| `ArrayCodecs.ParsedIff` | internal/store/models.go:109-118 | a text is parsed to a UUID if and only if, in any case, it is the canonical text, alone or after urn:uuid:, or between any two characters, or its 32 digits |
| `ArrayCodecs.UuidArrayRoundTrip` | internal/store/models.go:63-120 | every array of UUIDs, nil and empty included, is read back as it was written |
| `ArrayCodecs.CopyStrings` | internal/store/models.go:122-167 | Scan after Value on two array objects copies the array if and only if it meets that condition |
| `ArrayCodecs.CopyChannels` | internal/store/models.go:223-276 | the same condition on the names decides for channel arrays |
| `ArrayCodecs.CopyUuids` | internal/store/models.go:63-120 | UUID arrays are always copied |
| `ArrayCodecs.UuidArray.Value` | internal/store/models.go:64-77 | UUIDs are written as their canonical texts |
| `ArrayCodecs.UuidArray.Scan` | internal/store/models.go:80-120 | all parts parsed, or the index of the first bad part, which leaves the parts before it and nil UUIDs after |
| `ArrayCodecs.UuidArray.Fill` | internal/store/models.go:109-118 | the parsing loop stops at the first part that is not a UUID |
| `Flatten.FlattenMap` | internal/integrations/service/zapier.go:124-138 | the result is one that some order of visiting the keys, at every level, leads to |
| `Flatten.FlattenPayload` | internal/integrations/service/zapier.go:105-121 | the data is walked over the base fields: each of id, event, occurred_at, account_id and, when set, campaign_id keeps its value unless a leaf is written to its key, and there is nothing but fields and leaves |
| `Flatten.YieldsFlattened` | internal/integrations/service/zapier.go:124-138 | every walk keeps the old keys and adds those of the leaves, each with the value of a leaf written there |
| `Flatten.LeafLast` | internal/integrations/service/zapier.go:124-138 | any leaf can be the last one written to its key |
| `Flatten.OrderMattersIff` | internal/integrations/service/zapier.go:124-138 | two visiting orders can give different results if and only if two leaves with different values join to the same key |
| `Flatten.DistinctPathsAreConsistent` | internal/integrations/service/zapier.go:124-138 | with distinct paths the order never matters |
| `Flatten.EveryLeafOnce` | internal/integrations/service/zapier.go:124-138 | when leaves that meet have equal values, as with distinct paths, every walk puts every leaf at its path, keeps every base entry no leaf is written to, and adds nothing else |
| `Flatten.FullPathIsJoin` | internal/integrations/service/zapier.go:125-129 | the key of a leaf is its path joined with underscores, empty keys at the start left out |
| `Flatten.CleanKeysGiveDistinctPaths` | internal/integrations/service/zapier.go:125-129 | paths are distinct whenever no key is empty or has an underscore |
| `Flatten.CollidingKeys` | internal/integrations/service/zapier.go:124-138 | {"a": {"b": 1}, "a_b": 2} has two visiting orders with different results |

## Left out

- HTTP handlers, routing, authentication, payments, AI and email clients: input and output only.
- The PostgreSQL server and driver: a statement is one atomic step on rows; a Go slice argument is taken as an SQL array; text comparison is by code point and case folding is ASCII only.
- The database session's time zone: DATE_TRUNC is taken to work in UTC, as the Go side does.
- SQL row order: ties of ORDER BY are arbitrary, grouped rows may come in any order (NULL source last within a bucket), and the blast listing is one fixed list across its pages.
- JSON parsing of filter criteria (ParseFilterCriteria) and of events: an event is parseable or not, criteria are given as values.
- Kafka offsets: a commit is a fact about one message; offset watermarks, rebalancing and redelivery are not modelled.
- The consumer's goroutines: a method of the object that returns early stands for a goroutine observed up to a point where it loops or waits; the wait group is zero exactly when all workers have exited.
- Consumer memory model: steps are sequentially consistent and Start is called once; Start's own context argument is shadowed in the code and so has no effect here.
- Consumer settings: DrainTimeout is the free choice of the timeout branch; logging and closing the reader have no state.
- Blast error messages, names of creators, throttling and the sent, failed and opened counters beyond progress: they decide no branch.
- BlastCompletion.CompletableIff: its runs are those in which the segments are not found empty; a second started event that finds them empty completes a blast whatever its recipients.
- Deletion during delivery: a deleted blast is a failing read; recipients of a deleted blast are not removed.
- Recipients.RerunChangesNothing: takes the emails within one segment to be distinct, as the campaign's unique index makes them.
- BlastStore.EmailBlasts.DeleteEmailBlast: answers the deleted row where the source answers only success.
- Reward data snapshot, delivery and revocation: they do not take part in the limits; deleting a waitlist user, which cascades to its rewards, is not modelled.
- The UUID library: uuid.Parse is modelled on the four forms it documents (dashed, urn:uuid: prefixed, between two further characters, 32 digits); its source is not part of this model.
- JSON arrays inside webhook data count as leaves, as in the code; their contents are not modelled.
- Float rates and percentages of the analytics: only the integer counts are stated.
- SearchWaitlistUsers and GetWaitlistUsersByCampaignWithFilters: they add no condition that the modelled builders do not have.
- Plain create, read and delete operations, settings, validity maps, templates, the position calculator and the webhook retry: no property across operations.

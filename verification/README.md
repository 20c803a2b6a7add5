# CronMon: a Dafny model of the dead man's switch

CronMon watches jobs. Each job pings a check; a check that stays silent past its deadline goes down and alerts every
channel attached to it. This project models the part of CronMon that has to get this right:

- the per-check state machine (new, up, down, paused) driven by pings, form edits, pause toggles, deletes and the
  scheduler, with requests that read a private copy and commit it later;
- the write-through cache over the relational store, both as values and as objects on the heap;
- the bounded alert queue, the worker that drains it, and the start-up and shutdown order around them;
- the store: tables with foreign keys, retention, the channel link table, and the migration runner;
- time: whole-second text timestamps and cron deadlines.

## How it is laid out

| part | files |
|---|---|
| text, time, cron | `Text`, `TimeCodec`, `Schedule` |
| records, rows, transitions | `Model`, `CheckRows`, `Transitions`, `WriteThrough` |
| the protocol and what its runs keep | `Protocol`, `Coherence`, `Reduction`, `Entries`, `StatusHistory`, `Alternation`, `Deadlines`, `DueDates`, `Detection` |
| the store | `Ranking`, `Tables`, `Integrity`, `Retention`, `Database`, `AttachDetach`, `Migrations` |
| objects and who may reach them | `Records`, `StateCache`, `Ownership`, `Handlers`, `Scheduler` |
| the alert pipeline | `AlertQueue`, `Pipeline`, `Shutdown`, `Drain`, `Delivery`, `ChannelRows`, `Worker` |
| protocol and pipeline together | `Announcements`, `Phases`, `Announced`, `Overtaking`, `Overtaken`, `OvertakenRun`, `Unsettled`, `Life`, `Calls`, `ChannelOrder`, `EndToEnd` |

The same operation appears at most twice: as a function on values, about which the run-wide properties are proved, and
as a method that updates fields in place and whose postcondition equates the state it leaves with that function. What such a
function computes is also stated without it, in terms of texts, numbers, fields and table rows: a number by its digits
(`Text.ParseIntSpells`), a deadline by the occurrences of its schedule (`Schedule.DeadlineExactly`), the alerts of a ping
and of a pass event by event (`Handlers.HandlePing`, `Scheduler.EvaluateAll`), a migration by the script it executes
(`Migrations.ExecutesExactly`), a record by the fields a request writes (`Transitions.RespondWrites`).

`Protocol` has two granularities. `Begin` and `Commit` are a request's `Get` and its `Set`, with anything in between;
`Atomic` is the same request as one step. All run-wide properties are about runs that mix both:

- coherence, well-formedness, no resurrection and "down only past the deadline" hold of every run;
- what a status means, what a pause means and that transitions alternate each hold after every event of a run exactly if
  all commits of the run pass a test on the record they started from and the entry they replace
  (`StatusMeaningExactly`, `PausedMeaningExactly`, `TransitionsAlternateExactly`); runs in which no stale copy is
  committed pass all three;
- that a deadline covers the grace holds exactly if no start ping has a clock reading before the last ping it finds
  (`CoverExactly`). A ping reads the clock before its `Get`, so a clock that never goes back is not enough
  (`OvertakenStartUncovers`); it is if no start ping is overtaken by a completion in between (`DeadlineCoversGrace`).

A write that calls for an alert and the sending of that alert are different steps. The protocol logs the calls;
`Announcements` joins the protocol with the pipeline, in which a handler or a pass lists the channels and sends later,
with anything in between, and in which the process can crash. Transitions can therefore alternate while the alerts of a
channel do not: `OvertakenRun.Overtakes` is such a run. What decides is whether a check makes a transition while an
earlier one is still to be announced. If it never does, a channel that is attached throughout and finds room in the
queue hears exactly the transitions, in order (`ChannelOrder.HeardIsPrefix`), and its rows are those (`EndToEnd`); if it
does once, the run can go on out of order (`Unsettled.UnsettledCanOvertake`). These theorems are about one life of the
process, which may begin on the store that any run left (`Life.LivesBegin`), and let other checks and channels come, go
and fail.

## Assumptions

- The cron library is a parameter: which expressions parse, at which whole minutes one occurs, and its next occurrence.
  Every accepted expression has a next occurrence, and `next` is the least one.
- Instants are nanoseconds since the start of year 0. `Grace` in minutes fits a duration, so deadlines do not wrap.
- Stored text reads back for the years 0 to 9999 only; `TimeCodec.RoundTrip` says exactly when. A restart happens in
  the model when every row can be read back.
- Check ids are fresh and never reused. The database starts empty where a run starts from the beginning.
- A statement on the store takes effect as a whole or fails and changes nothing. Which ones fail is a free choice.
- SQL scripts of migrations are executed by a parameter from schema and script to schema or error.

## Where the documentation and the code differ

The model follows the code.

- `doc/ARCHITECTURE.md:401` says a dropped alert is queued again on the next tick. It is final: a check that is already
  down is skipped (`internal/scheduler/scheduler.go:145`).
- `doc/ARCHITECTURE.md:280` says notifications are not deleted with their check. They are: `check_id` cascades
  (`internal/db/migrations/001_initial.sql:45`). Only `channel_id` is set to NULL.
- `doc/ARCHITECTURE.md:217` and `doc/CRONMON_DESIGN.md:176` say any ping sets `last_ping_at`. A start ping does not
  (`internal/handler/ping.go:116-124`), and `doc/ARCHITECTURE.md:477` gives a deadline it does not use either: a start
  ping sets the deadline to now plus the grace.

## Model

| member | source | states |
|---|---|---|
| Text.ParseIntSpells | internal/handler/check.go:211-215 | a form text reads as a number exactly if it is an optional sign, any zeros and the decimal digits of the number, and the number fits 64 bits; nothing else is read |
| Text.DecimalDigits | internal/handler/check.go:211-215 | decimal text: the ten digits, and of a number with one more digit the text with that digit at the end |
| Text.PrecedesMeans | internal/db/db.go:67-70 | byte order: one text comes before another exactly if at the first place where they differ it has ended or has the smaller byte |
| Text.SpacesAre | internal/db/db.go:127-144 | the white space that trimming removes, character by character |
| TimeCodec.RoundTrip | internal/repository/repository.go:23-59 | reading back the stored text of an instant gives it floored to the second, for years up to 9999 and for no later year |
| TimeCodec.Canonical | internal/repository/repository.go:23-59 | a readable text in the UTC form is the very text that is written for the instant it denotes |
| TimeCodec.TextOrder | internal/repository/ping_repo.go:65-70 | byte order of stored texts is chronological order of the floored instants, so ORDER BY created_at is by time |
| TimeCodec.TextOrderEndsAtYear9999 | internal/repository/repository.go:23-28 | the condition on years is needed: five-digit years sort before four-digit ones |
| TimeCodec.DaysCounted | internal/repository/repository.go:23-59 | the days before a year are 365 for each year, one more for each fourth year except the hundredths that are not four-hundredths: the Gregorian calendar |
| TimeCodec.MonthsCounted | internal/repository/repository.go:23-59 | the days before each month, with one more from March on in a leap year |
| TimeCodec.KnownDates | internal/repository/repository.go:23-28 | two instants and their texts, digit for digit: the Unix epoch and a leap day at 12:34:56 |
| Schedule.NextAfterIsLeast | internal/schedule/schedule.go:47-55 | NextAfter is the one occurrence strictly later than t with none in between |
| Schedule.NextAfterStable | internal/schedule/schedule.go:47-55 | any reference between t and the next occurrence has that same next occurrence |
| Schedule.DeadlineFromFloor | internal/schedule/schedule.go:57-67 | a deadline computed from a stored, floored reference is the deadline computed from the original |
| Schedule.DeadlineShape | internal/schedule/schedule.go:57-67 | a computed deadline is a whole second and lies after its reference by more than the grace |
| Schedule.DeadlineExactly | internal/schedule/schedule.go:57-67 | the deadline is d exactly if the schedule parses and d less the grace, in minutes of 60,000,000,000 ns, is the first occurrence later than the reference |
| CheckRows.ScanRow | internal/repository/check_repo.go:34-85 | scanning the row written for a record gives the record with floored timestamps, and fails exactly beyond year 9999 |
| CheckRows.RowColumns | internal/repository/check_repo.go:87-109 | the row of a record column by column: texts and numbers as they are, times in text, nil as NULL, the flag as 0 or 1 |
| CheckRows.FlooredTwice | internal/repository/check_repo.go:34-109 | storing and reading twice loses no more than once |
| CheckRows.UpdatedKeepsCreation | internal/repository/check_repo.go:160-180 | UPDATE over the row of a record gives the row of the new record exactly when the two have the same id and creation text |
| Transitions.ParseCheckForm | internal/handler/check.go:192-219 | a form is accepted exactly if it has a name, a schedule that parses and a grace that reads as an integer (`Text.ParseIntSpells`) of at least 1; the settings are then those of the form |
| Transitions.FormAccepted | internal/handler/check.go:192-219 | a form is accepted with certain settings exactly if it has a name, a schedule that parses and a grace text that spells their grace, a number from 1 to 2^63 - 1, and the other settings are the form's own |
| Transitions.CreateWrites | internal/handler/check.go:37-77 | every field of a created check: the form's name, schedule, grace, tags and flag; new, never pinged, no slug, created and updated now |
| Transitions.Responds | internal/handler/check.go:79-126 | which requests are answered: a ping unless the check is paused, an edit exactly with an acceptable form, a pause always |
| Transitions.RespondWrites | internal/handler/ping.go:116-148 | every field a request writes, and that it leaves all others: a start ping the deadline; a completion status up, the last ping and the deadline; an edit the settings as the form spells them and the deadline; a pause the status and the saved status, never the deadline |
| Transitions.NewCheckWellFormed | internal/handler/check.go:37-77 | every accepted create form yields a well-formed new check with a deadline |
| Transitions.RespondWellFormed | internal/handler/ping.go:116-148 | no request breaks well-formedness of a record or changes its id or creation time |
| WriteThrough.SetCoherent | internal/cache/check_cache.go:95-135 | Set keeps cache and table in agreement when the record has the creation text of the entry it replaces; it succeeds exactly when the store accepts and the check exists |
| WriteThrough.SetIncoherent | internal/repository/check_repo.go:160-165 | and only then: otherwise the table keeps the old creation time while the cache takes the new one |
| WriteThrough.WritesExactly | internal/cache/check_cache.go:93-152 | Set, Create and Delete entry by entry: when each succeeds, fails or finds nothing, what it then does to the one entry and row, and that it otherwise changes nothing |
| WriteThrough.TickCoherent | internal/scheduler/scheduler.go:138-172 | an evaluation pass with any failing updates keeps cache and table in agreement |
| WriteThrough.HydrateCoherent | internal/cache/check_cache.go:59-77 | a cache rebuilt from the table agrees with it, entry by entry the old cache floored to the second |
| Coherence.RunInv | internal/cache/check_cache.go:95-152 | in every interleaved run every private copy is well formed and has its check's creation time, and cache and table agree |
| Coherence.CoherenceHolds | internal/cache/check_cache.go:95-152 | after every interleaved run, stale commits and store failures included, cache and table have the same ids and each row is its entry written at whole seconds |
| Coherence.RecordsWellFormed | internal/handler/check.go:149-182 | in every interleaved run, for stored records and private copies: paused iff a saved status is set and it is never paused, effectively new iff never completed, a deadline is always set, the grace is at least 1, the schedule parses |
| Coherence.NeverResurrected | internal/cache/check_cache.go:121-152 | a deleted check never comes back in cache or table, whatever late commits follow |
| Reduction.Reduces | internal/handler/ping.go:77-153 | an interleaved run in which no stale copy is committed ends with the same cache, table and transition log as the atomic run that places each request at its Set and each early return at its Get |
| Reduction.AtomicIsBeginCommit | internal/handler/ping.go:77-128 | a request in one step is its Get directly followed by its Set |
| Entries.EntryStep | internal/handler/check.go:79-182 | one step of any run moves the entry of a check to exactly the record its event computes, a commit to the copy it holds; only its own delete removes it |
| Entries.Appears | internal/cache/check_cache.go:107-119 | a check that appears is new, comes from a create, and its id was never used |
| Entries.StaleExactly | internal/cache/check_cache.go:79-135 | what stale means: a private copy begins fresh, stays as it is, and becomes stale exactly by a write to its own check, another request's or a pass's |
| StatusHistory.StatusMeaningExactly | internal/handler/ping.go:130-148 | after every event of an interleaved run the status means what it says (looking through pauses: new iff no completion was ever accepted, down iff a pass since the last accepted completion found the unpaused check past its deadline, up otherwise), exactly if every commit of an edit, pause or start ping starts from a record with the entry's effective status |
| StatusHistory.StatusMeaning | internal/handler/ping.go:130-148 | the same without a condition for runs that commit no stale copy, atomic runs among them |
| StatusHistory.PausedMeaningExactly | internal/handler/check.go:149-182 | after every event of an interleaved run a check is paused iff an odd number of toggles was carried out on it, exactly if every commit starts from a record that agrees with the entry on being paused |
| StatusHistory.PausedMeaning | internal/handler/check.go:149-182 | the same without a condition for runs that commit no stale copy |
| Alternation.TransitionsAlternateExactly | internal/scheduler/scheduler.go:141-172 | the down and up transitions of a check strictly alternate after every event of an interleaved run, beginning with down, through pauses, edits, failures and restarts, exactly if every commit starts from a record that agrees with the entry it replaces on being effectively down |
| Alternation.TransitionsAlternate | internal/handler/ping.go:130-160 | they do in every run that commits no stale copy, atomic runs among them |
| Alternation.CallsAreTransitions | internal/handler/ping.go:130-160 | the log is what its name says: a step that meets that test calls for down or up exactly if it takes the check's effective status to down or from down |
| Alternation.StaleCommitRepeatsDown | internal/handler/check.go:79-126 | the test at work, for any check and any clock readings: an edit that straddles an evaluation undoes a down transition and a later pass makes it again |
| Deadlines.CoverExactly | internal/handler/ping.go:116-148 | after every event of an interleaved run a pinged check's deadline is at least its last ping plus its grace, and so for every private copy, exactly if no start ping reads a record whose last ping is later than its own clock reading |
| Deadlines.DeadlineCoversGrace | internal/handler/ping.go:77-148 | with each ping's clock reading a step of its own before its Get: it is, if the clock never goes back and no start ping is overtaken, between its reading and its Get, by a completion of its check that read the clock later; through stale commits, restarts and any other interleaving |
| Deadlines.OvertakenStartUncovers | internal/handler/ping.go:77-128 | that condition is needed, for any accepted form and any readings: a start ping reads, a success ping reads later and is done, the start ping does its Get and Set; the clock never goes back, and the deadline is less than the grace after the last ping |
| Deadlines.ResaveRestoresDeadline | internal/handler/check.go:93-113 | in any interleaving, saving the edit form with unchanged schedule and grace gives the deadline the last completion gave, whatever starts, pauses, passes, failures, restarts and late commits lie between, as long as none of them writes another schedule, grace or last ping to the check; it is a whole second |
| DueDates.RespondDue | internal/handler/ping.go:116-148 | the deadline a request writes: after a completion the grace after the first occurrence later than its reading; after an edit the same from the last ping, or from its reading if there was none, with the new terms; after a start ping its reading plus the grace; after a pause the old one |
| DueDates.DeadlineMeaning | internal/handler/ping.go:116-148 | in every interleaved run, with stale commits, failures and restarts, the deadline of every check and of every record a request holds is exactly that of its source: the last completion, edit, creation or start ping that was written, as it was in force when the record was read |
| Detection.DetectionBound | internal/scheduler/scheduler.go:100-172 | with passes at most I apart and no other write to it, an up check is taken down by a pass not later than its deadline plus I (or by the first pass when that is later), after the deadline, or after its floor if the process restarted in between; others may do anything |
| Detection.DownOnlyPastDeadline | internal/scheduler/scheduler.go:141-162 | in every interleaved run a pass takes a check down only strictly after the deadline stored for it at that moment, in cache and table |
| Detection.OverdueByFloor | internal/repository/repository.go:23-37 | flooring makes a check overdue early by less than a second, and only when floor(deadline) < now <= deadline |
| Detection.RestartSimulates | main.go:69-86 | from every reachable state, restart and start-up pass take down every check the running process would, any extra one is overdue by its floor only, and nothing else differs but sub-second parts |
| Ranking.NewestDescends | internal/repository/ping_repo.go:64-70 | the listing is strictly descending under (created_at, id) |
| Ranking.NewestOfPrefix | internal/repository/ping_repo.go:95-104 | the first n of a listing, listed again, come out in the same order |
| Retention.KeepsNewest | internal/repository/ping_repo.go:93-111 | DeleteOldest(id, n) keeps exactly min(n, count) pings of the check, each later than every one it drops |
| Retention.TouchesNothingElse | internal/repository/ping_repo.go:93-111 | it changes no row it keeps, no ping of another check and no other table |
| Retention.ListingKept | internal/repository/ping_repo.go:64-111 | every listing of at most n keys, of any check, is the same before and after |
| Retention.PingsKept | internal/repository/ping_repo.go:64-111 | so is every listing of at most n pings as the records read back, kind, time and address |
| Retention.StripKept | internal/handler/dashboard.go:225-323 | the 30-cell strip of any check is the same before and after a delete that keeps at least 30 |
| Retention.StripAfterCleanup | internal/scheduler/scheduler.go:207-216 | and so after a cleanup pass over any checks, failing or not |
| Retention.Idempotent | internal/repository/ping_repo.go:93-111 | a second DeleteOldest drops nothing |
| Retention.LaterIsChronological | internal/repository/ping_repo.go:64-70 | newest first by text is newest first by second, then by id |
| Retention.RecentExact | internal/repository/ping_repo.go:64-70 | a listing of keys holds as many as there are or as the limit allows, strictly descending, each later than every one left out |
| Retention.BuildPingSquares | internal/handler/dashboard.go:303-323 | the grid, filled in place from both ends: 30 cells, ping k of the listing in cell 29 - k with the text of its kind and time, empty cells on the left |
| Database.CleanupOldPings | internal/scheduler/scheduler.go:207-216 | each listed check whose delete goes through keeps min(1000, count) pings, each later than every one dropped, every other check all; listings of at most 1000 and every check's 30-cell strip are unchanged |
| Database.Database.ListPings | internal/repository/ping_repo.go:64-90 | stored pings of the check field by field, strictly newest first by text and id, at most the limit, and none left out that is not older than all shown; an error if one of them does not scan |
| Database.Database.CreateCheck | internal/repository/check_repo.go:87-109 | fails for an id that is present, and otherwise adds the row of the record |
| Database.Database.SaveCheck | internal/repository/check_repo.go:160-189 | not found for an unknown id; otherwise the row is that of the record with id and created_at kept, and no other row changes |
| Database.Database.RemoveCheck | internal/repository/check_repo.go:191-205 | not found for an unknown id; otherwise the row goes, and with it exactly the pings, links and notifications of that check |
| Database.Database.CreatePing | internal/repository/ping_repo.go:45-62 | fails for an unknown check; otherwise one new row under the next id, with the given check, kind, time in text and address, and no other row changes |
| Database.Database.DeleteOldestPings | internal/repository/ping_repo.go:95-111 | the pings that remain after the retention statement |
| Database.Database.CreateNote | internal/repository/notification_repo.go:52-79 | fails when the check or the named channel does not exist; otherwise appends one row under the next id with the given check, channel, alert, time in text and error |
| Database.Database.RemoveChannel | internal/repository/channel_repo.go:104-118 | not found for an unknown id; otherwise channel and links go, and each notification stays, its reference NULL if it was to that channel |
| Tables.ChannelAdded | internal/repository/channel_repo.go:51-70 | a channel is refused unless it is email, slack or webhook; otherwise one row under the next id with the given kind, name, configuration and time in text |
| Database.Database.AttachToCheck | internal/repository/channel_repo.go:148-157 | succeeds exactly if the link exists or check and channel do; then exactly that link is added |
| Database.Database.DetachFromCheck | internal/repository/channel_repo.go:159-168 | exactly that link is gone; a missing one is no error |
| Database.Database.ListAttached | internal/repository/channel_repo.go:120-146 | an error, or in a sound store exactly the channels linked to the check, each once, as stored, strictly ascending by creation text and then id |
| Integrity.ExecuteSound | internal/db/migrations/001_initial.sql:21-50 | every statement without a slug and every dispatch, failing or not, keeps every reference pointing at an existing row, keys unique and CHECKs true |
| Integrity.AlwaysSound | internal/db/migrations/001_initial.sql:4-50 | the same after any sequence of them from the empty database |
| Integrity.DeleteChannelKeepsHistory | internal/repository/channel_repo.go:104-118 | deleting a channel keeps every notification in place and clears exactly the references to that channel |
| Integrity.DeleteCheckCascades | internal/db/migrations/001_initial.sql:21-50 | deleting a check takes exactly its own pings, links and notifications with it |
| Integrity.DispatchRecords | internal/notify/worker.go:95-153 | dispatch adds one row iff the check exists and one of the two writes goes through: the check, the alert, the time in text, the channel iff it exists and the first write succeeded, and the send error, or the text that no notifier is registered for the kind |
| Integrity.ListsAttachedOnce | internal/repository/channel_repo.go:120-146 | listing names each channel that the check has a link to exactly once, with its stored record, oldest first and among equals by id |
| Integrity.ListingUnique | internal/repository/channel_repo.go:120-146 | and there is only one such listing |
| Records.CloneCheck | internal/cache/check_cache.go:27-49 | the copy denotes the same record and shares no object with it |
| StateCache.StateCache.Get | internal/cache/check_cache.go:79-91 | nil iff the id is unknown, else a deep copy that shares nothing with the cache |
| StateCache.StateCache.SetLocked | internal/cache/check_cache.go:93-103 | cache and table after a locked write are those of the value-level Set: store first, map only on success |
| StateCache.StateCache.Set | internal/cache/check_cache.go:121-135 | the same for Set, which takes in a deep copy |
| StateCache.StateCache.Create | internal/cache/check_cache.go:105-119 | cache and table after Create are those of the value-level Create |
| StateCache.StateCache.Delete | internal/cache/check_cache.go:137-152 | cache and store after Delete are those of the value-level Delete, cascades included |
| StateCache.StateCache.Copies | internal/cache/check_cache.go:154-201 | Snapshot and WithWriteLock hand out each record once, in some order, as copies that share nothing with the cache or each other |
| StateCache.StateCache.Hydrate | internal/cache/check_cache.go:59-77 | the map becomes the table read back; on any error it stays as it was |
| Ownership.World.Run | internal/cache/check_cache.go:27-201 | any sequence of Get, Snapshot, caller writes (fields, pointers, through pointers), Set, Create, Delete and sends of struct copies on the heap replays exactly on values, where nothing can alias |
| Ownership.CallersCannotReachCache | internal/cache/check_cache.go:79-152 | along any such run, cache and table move only by Set, Create and Delete: no write to a record in a caller's hands reaches them |
| Ownership.EventsFrozen | internal/handler/ping.go:172-180 | an event stays what it was when sent, whatever callers and the cache do later |
| Ownership.HeldUntilWritten | internal/cache/check_cache.go:154-201 | a record in a caller's hands changes only by writes to that very record |
| Handlers.ServeIsAtomicStep | internal/handler/ping.go:77-160 | what a handler method computes is the Atomic step of the protocol: the same stores, and the request's alerts are called for exactly if its Set went through |
| Handlers.ServeExactly | internal/handler/check.go:79-182 | it succeeds exactly if the check is cached and stored, the request is answered and the statement goes through; then the one entry and row become the answer's, and otherwise nothing changes |
| Handlers.HandleStart | internal/handler/ping.go:116-128 | cache and table after the in-place edit of a start ping and its Set |
| Handlers.HandleComplete | internal/handler/ping.go:130-160 | cache and table after a completion; on success the queue takes, as far as it has room, one up alert per listed channel exactly if the record was down, then one fail alert per listed channel exactly if the ping is a fail and the record asks for them, all about the committed copy; none when the Set fails |
| Handlers.HandlePing | internal/handler/ping.go:77-113 | nothing for unknown or paused checks; otherwise the protocol's step and one ping row even when the Set failed; the queue takes those same alerts, about the record as the cache now has it, exactly if the ping is a completion whose Set went through |
| Handlers.EnqueueAlerts | internal/handler/ping.go:162-186 | the queue after one non-blocking send per attached channel, or unchanged when listing fails |
| Handlers.HandlePause | internal/handler/check.go:149-182 | cache, table and answer of a pause toggle are those of the protocol's step; an unknown check changes nothing |
| Handlers.HandleUpdate | internal/handler/check.go:79-126 | cache, table and answer of an edit are those of the protocol's step; nothing changes for an unknown check or a rejected form |
| Handlers.HandleCreate | internal/handler/check.go:37-77 | the protocol's step for a fresh id; it succeeds iff the form is accepted, the store works and the id is new, and then the one new entry is the record of the form |
| Handlers.HandleDelete | internal/handler/check.go:128-147 | cache and store after a delete, the entry gone exactly if the statement went through; deleting an unknown check is a success |
| Scheduler.TakeDownOverdue | internal/scheduler/scheduler.go:141-172 | for any iteration order and any failing updates the locked loop is the pointwise map, and the list it collects is the expired checks in that order |
| Scheduler.TakenDownExact | internal/scheduler/scheduler.go:141-172 | the collected list holds exactly the up checks with a deadline strictly before now whose update succeeded, once each |
| Scheduler.SecondPassFindsOnlyFailures | internal/scheduler/scheduler.go:138-172 | a second pass at the same now collects only checks whose update failed, none if all succeeded |
| Scheduler.EvaluateAll | internal/scheduler/scheduler.go:138-202 | both phases: the pointwise map; then, in the order of the loop and as far as the queue has room, for each check that was up and past its deadline, whose update succeeded and whose channels could be listed, one down alert per channel in listing order about the record as it now is, and nothing else |
| AlertQueue.OfferedTwice | internal/scheduler/scheduler.go:190-199 | two bursts of sends to a queue nobody drains are one burst: what fits is kept in order, the rest dropped |
| AlertQueue.AlertQueue.Offer | internal/scheduler/scheduler.go:190-199 | a send is kept, at the end, exactly if fewer than 64 wait, and dropped otherwise; attempts are kept plus dropped |
| AlertQueue.AlertQueue.OfferAll | internal/handler/ping.go:173-185 | one send per channel in order: as many as there is room for up to 64 are kept, attempts and drops counted |
| Pipeline.RunInvariant | main.go:76-144 | conservation and shutdown order hold after every interleaving of senders, worker, main and other traffic on the store |
| Pipeline.Conservation | internal/notify/worker.go:83-93 | in every run each alert asked for was looked up once or is still to be, attempts are accepted plus dropped, the accepted sequence is dispatched ++ in dispatch ++ queued, at most 64 are queued, and a listed alert was tried or its sender is still at work |
| Pipeline.BurstIsOffered | internal/handler/ping.go:172-185 | a sender that is not interrupted leaves the queue that the imperative send loops leave: what fits, in order |
| Pipeline.NeverPanics | main.go:118-144 | no send hits the closed channel unless the server was stopped with a handler still at work, wherever in its request that handler was |
| Shutdown.ForcedStopCanPanic | main.go:118-141 | the condition is needed: from every serving state in which a handler still has an event to send, a stop that does not wait for it has a continuation that panics, whatever passes are under way |
| Shutdown.HandlerWithAlert | internal/handler/ping.go:155-186 | such states are reached, in a sound store, by any check and any channel |
| Pipeline.NothingSentAfterClose | main.go:139-141 | after the close, what was tried and accepted never changes, whatever steps follow |
| Pipeline.ExitMeansDrained | main.go:139-144 | run returns only when the dispatched sequence is the accepted sequence and nothing is queued |
| Pipeline.ExitMeansAllTried | main.go:118-144 | after a graceful stop every alert asked for had been looked up, and every listed one tried, when run returns |
| Pipeline.RepeatsChangeNothing | internal/scheduler/scheduler.go:87-97 | another Stop after the scheduler stopped, or another worker Start, changes nothing wherever it comes in a run |
| Drain.TurnsShrink | internal/notify/worker.go:85-93 | after the close the worker is never stuck, and each of its turns lowers the remaining work by one |
| Drain.DrainIsBounded | internal/notify/worker.go:85-93 | however its turns are interleaved, the worker finishes within a fixed number of them |
| Drain.DrainsToExit | main.go:139-144 | from every reachable close the worker's turns and Wait lead to the exit with everything accepted dispatched |
| Delivery.OneRowPerAlert | internal/notify/worker.go:95-153 | with no drop, store fault or deletion, the rows at exit are the dispatches in order, and as a multiset one per alert and channel attached when it was listed |
| Worker.Worker.Start | internal/notify/worker.go:69-76 | any number of calls leaves exactly one goroutine |
| Worker.Worker.DispatchEvent | internal/notify/worker.go:95-153 | the store after one dispatch: the outcome recorded, once more with a NULL channel if the first write fails |
| Worker.Worker.Run | internal/notify/worker.go:83-90 | on a closed queue the loop ends, with the queue empty and every event dispatched front to back |
| Worker.RunIsWorkerTurns | internal/notify/worker.go:83-90 | that loop is the pipeline's worker taking its turns without interruption |
| Announcements.PlayKeeps | internal/scheduler/scheduler.go:138-202 | after every run of checks and alerts together, crashes included, the store's checks are the protocol's table, and every alert that waits, is being sent or was ever accepted is one that a committed write of its check called for, under its number |
| Phases.PingIsPipeline | internal/handler/ping.go:149-186 | the alerts the protocol calls for after a ping, asked for, looked up and sent as steps of the pipeline with nothing in between, leave the queue that the handler's own code leaves |
| Phases.PassIsPipeline | internal/scheduler/scheduler.go:174-201 | the same of a pass: its loop order lists the expired checks, and beginning the pass, looking up and sending leave the queue that the scheduler's own code leaves |
| Announced.ProtoRuns | internal/scheduler/scheduler.go:138-202 | the checks in such a run make a run of the protocol, so that everything proved of those holds |
| Announced.AnnouncesTransition | internal/handler/ping.go:162-186 | every down or up alert that the queue accepted for a channel announces a transition of its check, of its kind, under its number |
| Overtaking.InStepStays | internal/handler/ping.go:162-186 | no later move takes an accepted alert back or changes its place among the transitions of its check |
| Overtaking.LatestExactly | internal/scheduler/scheduler.go:174-201 | throughout a run, from any state in which it holds, every alert on its way to the queue is about the latest transition of its check, exactly if each transition is made when no earlier one of that check is still to be announced |
| Overtaking.NoneOvertaken | internal/scheduler/scheduler.go:174-201 | then a check's alerts enter the queue in the order of its transitions, through lost alerts, failed look-ups, drops, deletions and crashes |
| Unsettled.UnsettledCanOvertake | internal/scheduler/scheduler.go:174-201 | conversely, from every reachable state with the queue open in which a check makes a transition while an earlier one is still to be announced on an attached channel, the run can go on so that the later alert enters the queue first |
| Overtaken.OvertakesFrom | internal/scheduler/scheduler.go:174-201 | from every state in which one check alone is overdue, a pass and a recovery ping can run so that the check goes down and up while its channel is told up first; down follows late, or is given up after a failed look-up, or is lost in a crash |
| OvertakenRun.Overtakes | internal/handler/ping.go:149-186 | such a run from the empty database, for any accepted form and any clock readings, without a stale commit: the transitions are down, up, and the channel is sent up, down or up alone; given up, or lost in a crash after which the rows read back, down is on its way nowhere |
| Life.LivesBegin | main.go:60-86 | a life of the process begins at the start of any run and after any crash from which the store reads back; the store is then sound and the protocol's |
| Life.AlwaysSoundStore | internal/db/migrations/001_initial.sql:4-50 | after any run of checks and alerts, through crashes, every reference in the store points at an existing row |
| Life.CalmIsQuiet | main.go:76-144 | in a life without deletion, failed look-up or failed first write the pipeline makes a run to which OneRowPerAlert applies |
| Life.LifeSpares | main.go:76-144 | in a life that deletes neither a given check nor a given channel and in which first writes for that pair go through, the pipeline makes a run to which RowsAtExit applies |
| Life.AskedForCalls | internal/handler/ping.go:155-160 | in any life the senders are asked for every call that a check's committed writes make in it, once, in order, under its number |
| ChannelRows.RowsAtExit | internal/notify/worker.go:95-153 | at the exit the rows of a check on a channel that were both kept are those of before and one for each alert accepted for them, in the order they came, whatever happened to other checks and channels |
| Calls.CallsAccounted | internal/handler/ping.go:162-186 | at any moment of a life, for a check and a channel found by each look-up, with nothing dropped: each call of the life has been accepted once or is still on its way |
| Calls.AttachedHears | internal/repository/channel_repo.go:120-146 | a channel attached whenever the check's channels are looked up, and no look-up failing, is found by each, once |
| ChannelOrder.ChannelFollows | internal/scheduler/scheduler.go:174-201 | if moreover each transition of the check is made when no earlier one is still to be announced, the down and up alerts accepted for the channel in the life are its transitions in the life, each once and in order: all, or all but the last |
| ChannelOrder.HeardIsPrefix | internal/scheduler/scheduler.go:174-201 | so what the channel ever heard goes on with a prefix of those transitions, with all of them once no sender has one of the check to announce |
| ChannelOrder.HeardAlternates | internal/handler/ping.go:149-186 | from the empty database, without stale commits, it strictly alternates, beginning with down |
| EndToEnd.RowsAreListings | internal/notify/worker.go:95-153 | after a calm life, a graceful exit and no drop, the rows it added are, as a multiset, one per look-up and channel found, and the look-ups are one per call |
| EndToEnd.OneListingPerCall | internal/scheduler/scheduler.go:174-201 | after any life that ends gracefully every call of every check in it was looked up under its number, exactly once, whatever was dropped, deleted or failed |
| EndToEnd.OneRowPerCall | internal/notify/worker.go:95-153 | for a check and a channel that were kept, found by each look-up and dropped nothing, each call of the life left exactly one row of its kind, and nothing else did |
| EndToEnd.RowsInOrder | internal/notify/worker.go:83-153 | if each transition was made when no earlier one was to be announced, the down and up rows of the life are its transitions, in order |
| EndToEnd.RowsTellState | internal/notify/worker.go:95-153 | without stale commits the rows tell the state: down rows less up rows of the life are the change in being effectively down, so from an empty store on there is one more down row exactly if the check is down |
| AttachDetach.ParseIds | internal/handler/channel.go:145-151 | the desired set is exactly the numbers that some submitted text spells, duplicates and other texts ignored |
| AttachDetach.DropUnknown | internal/handler/channel.go:153-160 | in any order, exactly the ids of known channels whose look-up succeeded remain |
| AttachDetach.HandleAttachDetach | internal/handler/channel.go:132-194 | on success the check is linked to exactly the known channels whose id some submitted text spells and whose look-up succeeded; a failure midway has removed none of these and added none but these; other checks' links are untouched; it succeeds iff the check is cached and no access it makes fails |
| Migrations.LinesAreThePieces | internal/db/db.go:141-150 | the lines of a script, joined by line feeds, are the script, and none holds a line feed |
| Migrations.IsCommentOnly | internal/db/db.go:141-150 | true iff no line holds something other than white space that is not, after white space, a comment |
| Migrations.ExecutesExactly | internal/db/db.go:122-139 | what a file comes to: if some line is neither blank nor a comment after white space, one execution of the content without the white space at its two ends; otherwise nothing |
| Migrations.PlanIsOrdered | internal/db/db.go:62-76 | the plan is each file of the directory whose name ends in .sql, once, in strict byte order of names, whatever order the directory is read in |
| Migrations.MigratedKeepsPrefix | internal/db/db.go:53-121 | a run that fails at any access goes from a prefix of the plan to a prefix no shorter, the schema always the fold of exactly the recorded files; success completes the plan, and without it the run stopped at the failing access or at the first script in error |
| Migrations.ExactlyOnce | internal/db/db.go:50-121 | after any sequence of runs, each failing anywhere, the recorded versions are the first so many of the plan, and the schema comes from the first one by executing the script of each of them, as ExecutesExactly says, once and in that order |
| Migrations.CleanRunCompletes | internal/db/db.go:50-121 | after any such sequence, a run whose accesses succeed completes the plan iff every script executes |
| Migrations.LaterRunsChangeNothing | internal/db/db.go:50-52 | once the plan is complete any later run changes nothing, and succeeds unless an access fails |
| Migrations.Store.Execute | internal/db/db.go:122-139 | inside the transaction: nothing if no line is more than white space or a comment, else one Exec of the content without the white space at its ends; an error leaves the working copy as it was |
| Migrations.Store.ApplyFile | internal/db/db.go:72-118 | one file is skipped when recorded, else executed and recorded in one transaction or not at all, no transaction left open |
| Migrations.Store.Migrate | internal/db/db.go:53-121 | the loop over the sorted listing, skipping directories and other files, leaves the state the value-level run gives |

## Left out

- HTTP routing, form decoding, templates, redirects, middleware, configuration, static assets: a request is a parsed value and a clock reading.
- Email, Slack and webhook senders: sending is a free choice of success or error.
- The cron parser and SQLite themselves: an abstract occurrence set, and the statements and schema rules the repositories use.
- Integrity.ExecuteSound: is about statements without a slug, the only ones the program makes; the UNIQUE rule on slugs is not modelled.
- Database.Database.CreateCheck: does not refuse a slug that another row has, because every record the program builds has none (`Transitions.WellFormed`).
- Database.Database.SaveCheck: the same.
- Channel configuration checks and channel edits: library calls on JSON with no bearing on the properties.
- The forced `srv.Close()` path: the drain claims are for stops that leave no handler behind; `Shutdown.ForcedStopCanPanic` shows what the other path allows.
- `main.run` as a method: its start-up and shutdown order are the steps of `Pipeline`, where they meet the other goroutines.
- Mutexes, select, tickers and contexts as objects: any enabled step may come next, and a cancelled context is a failing access.
- TimeCodec.Canonical: is about the UTC form that the program writes; `parseTime` also reads offsets and fractions, for which it does not hold.
- TimeCodec.RoundTrip: reads the UTC form that the program writes; other RFC 3339 offsets and fractions never reach the columns.
- Handlers.HandlePing: is one request running alone; how requests interleave is in Protocol, and Reduction and Coherence are about those runs.
- AlertQueue.AlertQueue.Offer: holds events as values; that an event's shared pointers never change under it is Ownership.EventsFrozen.
- Scheduler.TakeDownOverdue: collects values; the struct copies it collects share only cells of copies the cache never touches again, as in Ownership.
- Ownership.EventsFrozen: rules out writes through the pointers of a sent record, which nothing in the program makes.
- Ownership.World.Run: does not write through the pointers of a record that was sent, because nothing in the program does.
- Deadlines.ResaveRestoresDeadline: is about the time between the completion and the edit; writes of another schedule, grace or last ping in between are excluded, since they are meant to move the deadline.
- Pipeline.NeverPanics: after a panic, which only a forced stop allows, nothing more is modelled; net/http recovers a handler's panic, and the process goes on to drain.
- Reading notifications and the dashboard's other views: listings like the ping listing.

# lab, verified

lab is a server that runs coding agents unattended. This project models its hard logic in Dafny and
proves what that logic promises. There are four groups of modules.

**Schedules.** `Calendar` is the Gregorian calendar Go's `time` package offers. `CronParse` turns cron
text into bit masks and proves the masks mean what the grammar says. `Cron` is the calendar search
that skips whole days and months; it is proved to answer what a minute-by-minute scan answers.
`Schedule` counts the matches of a window. `ScheduleMemo` is the producer's memory across passes (a
high-water mark and one owed firing) with a ledger that gives every match exactly one fate.

**Runs.** `Verdicts` folds comment threads and reviews into a decision, a done-signal and a work order.
`AutolandGather` is the producer that walks repos and pull requests. `Autoland` is the protocol of one
pull request with people, agents, run endings and re-arms between any two reads of the spawn pass.
`RunLifecycle` interleaves launches, the reaper's claim, the neutral Stop, session deaths and the zombie
drain. `SpawnPass` is the stage-sorted pass with its vetoing count. `Claims` turns a free issue into a
claim branch and a run. `BranchPattern` is the algebra under the claims.

**Merges.** `CommitGraph` is one merge on a commit graph, `MergeRace` any number of them at once, and
`ChangeRequest` the rows, the mutex and the head delete around them.

**Replication.** `CredRotate` adopts, pokes and fans out credentials. `ChatTailer` publishes where a chat
client must refetch from.

`Text`, `Decimal` and `Arith` hold what Go's `strings` and `strconv` do, and facts about quotients and remainders.

Code that updates fields is a class (`ScheduleMemo.Producer`, `RunLifecycle.Engine`, `Claims.Repo`,
`CommitGraph.Clone`, `ChangeRequest.Remote`, `CredRotate.Rotation`, `ChatTailer.TailLoop`,
`Autoland.PullStore`), loops are loops, and the candidate sort works in place on an array. Protocols are
machines of an event, a guard `Can` and an effect `Do`; a run is any sequence of guarded events.

## What the models assume

- `Cron`: a location is a pair of maps between wall-clock readings and instants, near each other and in
  order (`Location.Regular`). Fixed offsets, a spring jump and an autumn fall-back inside a day, its
  repeated hour resolving to either pass, are proved to be such locations.
- `Autoland`: one open pull request per head branch, nobody else launches on a branch whose claim
  exists (`Claims` proves that of lab's own launches), a fixed fix bound, attempt writes that succeed,
  and re-arm instants that do not go back.
- `RunLifecycle`: a session name is not relaunched while its run is active, while it is being launched,
  or between a look at its row and the kill that follows. The claim's row look, guard look, liveness
  look and write are four events, as are a Stop's look, write and kill; launches take every step of
  theirs between any two of them, and only claim and Stop exclude each other.
- `SpawnPass`: no session dies during a pass and caps stay fixed. What a launch meets before and after
  its cap check may depend on the candidate and on the runs spawned before it.
- `Claims`: a claim branch an active run holds is dropped by nobody; issue numbers lie in 1..2^63-1.
- `MergeRace`, `ChangeRequest`: nobody forces a push to the base branch or deletes the default branch.
- `CredRotate`: every write of a credential file gets a new modification time.
- `ChatTailer`: the content hash is injective; a client refetches what the publishing tick read.

## Where the code differs from what is said of it

- `patternsOverlap` decides over all issue numbers, while a claim is a machine integer: a manual prefix
  that spells an impossibly large issue is refused. `MachineOverlapsByText` says exactly when.
- `EscalateDelivered` is read on the raw thread, the decision on the filtered one: after a re-arm an
  escalate run is done at birth exactly when a superseded escalation carries the newest known word.
- An escalation marker silences its pull request from the first pass that reads the thread with it
  (`MarkerSilences`). A marker that lands after the pass read the thread slips exactly when that pass
  reads an idle branch, no standing escalation and an unspent budget (`SlipsIffIdleAndUnspent`), and
  past one marker at most one launch slips (`AtMostOneSlips`); `MarkerInTheGap` is such a run. The run
  half of the gate has no such gap (`SilentUntilRearm`).
- A capped walk keeps the limit-th match, not the newest of the window (`CronMatchesIn`), and the mark
  moves past the rest all the same: it drops matches exactly when its window holds more than the cap
  (`WalkDropsIffOverCap`). With every walk below the cap a match of a Schedule that stays listed is exactly
  one of consumed, superseded, collapsed and pending (`ListedMatchesHaveOneOfFourFates`).
- The search gives up five calendar years after the instant it starts from, so a window's counts are exact
  when no instant in it has its horizon before the window's end. From a date other than 29 February that
  means a window of at most five years. Five years after 29 February there is no such date and `AddDate`
  carries it over to 1 March: every instant of 29 February has a later horizon than the midnight after it,
  so a window from that day is exact up to 1 March, midnight, five years on
  (`FiveYearWindowsAreWithinHorizon`, `LeapDayWindowsAreWithinHorizon`).
- A Schedule delisted and relisted can owe an instant twice exactly when the relisting reads a clock
  behind the greatest instant already owed (`OwesTwiceIffBehind`). This takes a cadence that selects that
  instant and a search that reaches it from the instant before, as every search at a fixed offset does
  (`ShortWindowsAreWithinHorizon`). `SteppedBackRelistingOwesTwice` is such a run from the start, and
  `RunsOweInOrder` the order every other run keeps.
- A change request can read closed although its merge reached origin, exactly when some merge of it
  failed between its push and its record (`ClosedMeansUnmerged`, `StrandedThenClosed`).
- `DeleteHead` compares the head with the default branch only. An accepted head delete removes the
  request's own base exactly when it is that retried delete and head and base are one branch other than
  the default (`DeletesItsBaseIff`, `RetriedDeleteLosesTheBase`). Lab itself files every request with a
  run's branch as head and the default branch as base (`internal/agentapi/handlers.go:773`), so this
  takes a row filed some other way.
- After a faultless rotation tick with a logged-in master every logged-in live home holds the master's
  family exactly when the tick fans out or every one of them held it before (`CredRotate.Rotation.Tick`).
  It fails for a home with credentials and no baseline, which is stamped with what it holds
  (`UnstampedHomeKeepsItsFamily`), and for a home whose inject failed in an earlier fan-out, because the
  master's signature is recorded all the same (`FailedInjectKeepsItsFamily`).
- The envelope's doc says a rotation never sets a back-patch. A rotation tick whose read fails makes the
  next tick compare two files (`FailedRotationFlagsFreshFile`), harmlessly for a client of the old file,
  which is reset. A client agrees with a published read exactly when it comes from another file or what
  it kept has not re-rendered (`ClientAgreesIff`); that holds in every run in which reads of its file are
  compared with that file (`ClientAgreesWhenPublished`), and can fail when the tailer comes back to a
  file it left on a failed read (`FailedRotationLeavesStale`). A client that loads messages the tailer
  has not read yet catches up exactly when those did not change meanwhile (`RefetchCatchesUp`,
  `LoadAheadOfTheRead`).
- A read that a signal opens ahead of the stat may find messages the stat does not tell of yet. Re-rendered
  ones are announced; appended ones wait for the stat to move (`AnnouncedIff`, `SignalReadHidesAppend`).
  With a stat that moves whenever the messages do, nothing is missed (`NothingIsMissed`).
- A failed read updates no bookkeeping, so the next tick retries it, with one exception: a move to another
  file whose stat fails too is forgotten, since the path has been taken over (`FailedReadIsRetriedIff`).

## Model

| member | source | states |
|---|---|---|
| `Calendar.CivilOfIndex` | internal/cronx/cronx.go:194-200 | Counting days and walking the calendar agree: every valid date is the date of its own day number, so the weekday of (y, m, d) is well defined. |
| `Calendar.IndexOrdersDates` | internal/cronx/cronx.go:125-128 | Day numbers order valid dates exactly as year, month, day compared in turn do, which is how the search compares with its limit. |
| `Calendar.DaysBeforeYearClosed` | internal/cronx/cronx.go:202-206 | The year-by-year count equals the leap rule's closed form: every 4 years, not every 100, yet every 400. |
| `Calendar.DayZeroOfNextMonth` | internal/cronx/cronx.go:202-206 | Day 0 of the following month is the last day of this one, December included, whatever the normalising constructor does to reach it. |
| `Calendar.DayIndexClosed` | internal/cronx/cronx.go:194-206 | Counting by years and months equals the closed form over the whole date: the leap rule for the years, and for the months the 31, 30, 31, 30, 31 pattern that runs from March. |
| `Calendar.EpochIsAThursday` | internal/cronx/cronx.go:194-200 | 1 January 1970 has day number 719162 and is a Thursday. |
| `Calendar.WeekdayAdvances` | internal/cronx/cronx.go:194-200 | The next date, month and year ends included, falls on the next weekday. |
| `Cron.DaysInMonthIsMonthLength` | internal/cronx/cronx.go:204-206 | daysInMonth is the length of the month in the leap-year calendar. |
| `Cron.Next` | internal/cronx/cronx.go:117-170 | The answer is the earliest existing wall minute the expression selects in (after, after + 5 years], and absent exactly when there is none, in every regular location. |
| `Cron.SearchDay` | internal/cronx/cronx.go:137-162 | The hour and minute loops over one selected day find its earliest firing past `after`, stop the search past the limit, and skip minutes the clock skips. |
| `Cron.SearchEqualsScan` | internal/cronx/cronx.go:97-170 | At a fixed offset, the search's answer and the least minute a scan of every minute accepts with Matches are the same answer, both ways, none included. |
| `Cron.FixedOffsetIsRegular` | internal/cronx/cronx.go:49-53 | Every fixed-offset location satisfies what the search needs. |
| `Cron.SpringForwardIsRegular` | internal/cronx/cronx.go:57-60 | A location with a skipped hour satisfies what the search needs, so a firing in the gap is absent and nothing else is lost. |
| `Cron.FallBackIsRegular` | internal/cronx/cronx.go:61-65 | A location with a repeated hour inside a day satisfies what the search needs, whichever pass its repeated minutes resolve to. |
| `Cron.RepeatedMinuteFiresOnce` | internal/cronx/cronx.go:61-65 | A repeated minute's other pass reads the same but no wall minute resolves to it, so iterating the search never yields it, in zones of either resolution. |
| `CronParse.ParseItemIsGrammar` | internal/cronx/parse.go:107-187 | parseItem accepts exactly the grammar's items (value, range, star, stepped), and returns the one progression the grammar gives the item. |
| `CronParse.SetProgression` | internal/cronx/parse.go:97-100 | The bit loop sets exactly the bits of the progression and keeps every other bit. |
| `CronParse.ParseField` | internal/cronx/parse.go:89-103 | A field parses exactly when all its items are grammatical, and bit v is set exactly when some item selects v. |
| `CronParse.AssembledMeansText` | internal/cronx/parse.go:69-85 | Narrowing the masks to their words and folding Sunday's 7 onto 0 loses nothing: a minute matches the masks exactly when the text denotes it under the day rule. |
| `CronParse.Parse` | internal/cronx/parse.go:46-86 | Text parses exactly when it is five grammatical fields; the parsed expression matches a wall minute exactly when the text denotes it; a wrong field count is the error reported. |
| `CronParse.WeeklyFiresEverySevenDays` | internal/cronx/cronx.go:97-110 | The cadence "minute hour * * weekday" parses and denotes exactly the minutes at that time of day whose day is a whole number of weeks from that weekday of the week of Thursday, 1 January 1970. |
| `CronParse.BoundsAreTheClocks` | internal/cronx/parse.go:33-39 | A field admits exactly the values some wall minute shows in it, and 7 as a second Sunday. |
| `CronParse.MonthsAreOneToTwelve` | internal/cronx/parse.go:13-16 | The twelve month names stand for 1 to 12, January first. |
| `CronParse.WeekdaysAreZeroToSix` | internal/cronx/parse.go:17-19 | The seven weekday names stand for 0 to 6, Sunday first. |
| `CronParse.NamesIgnoreCase` | internal/cronx/parse.go:175-180 | A name means the same in any mix of upper and lower case letters. |
| `CronParse.TokenErrors` | internal/cronx/parse.go:158-196 | Which of the four errors a token that is no value gets, exactly: empty, a number out of range, a word of letters that is no name of a field with names, or anything else. |
| `CronParse.StepErrors` | internal/cronx/parse.go:114-131 | Which error a written step gets, exactly: missing or doubled, no 32-bit number, zero, or put on a single value. |
| `CronParse.WrappingRangeIsRefused` | internal/cronx/parse.go:142-150 | A step-less descending range of two values is refused with the suggestion for its bounds. |
| `CronParse.SuggestionSelectsTheWrap` | internal/cronx/parse.go:198-211 | The suggestion for a wrapping range parses and selects exactly the values of the range read around the field's end. |
| `CronParse.SuggestionSelectsTheWrappedWeekdays` | internal/cronx/parse.go:198-211 | For weekdays, where 0 and 7 are Sunday, the suggestion selects exactly the wrapped weekdays. |
| `Schedule.CronMatchesIn` | internal/afk/schedule.go:92-105 | In a window within the search horizon: uncapped gives the exact number of matches and the greatest; capped if and only if at least `limit` match, and then the limit-th match and n = limit. |
| `Schedule.ShortWindowsAreWithinHorizon` | internal/cronx/cronx.go:72-77 | At a fixed offset every window of up to 1825 days lies within the horizon, whatever date it starts on, so its counts are exact. |
| `Schedule.FiveYearWindowsAreWithinHorizon` | internal/afk/schedule.go:92-105 | At a fixed offset a window that starts on any date but 29 February lies within the search horizon if and only if it is no longer than five years on the calendar. |
| `Schedule.LeapDayWindowsAreWithinHorizon` | internal/afk/schedule.go:92-105 | A window that starts on 29 February lies within the horizon if and only if it ends by midnight of 1 March five years on. |
| `ScheduleMemo.Producer.Pass` | internal/afk/schedule.go:119-288 | One pass gives each listed Schedule its turn (seed, walk, owe, overlap-consume, veto, emit), emits a candidate exactly where the mark advanced, a firing is owed and no live run, full house or login stands in the way, and forgets every Schedule not listed. |
| `ScheduleMemo.Producer.Take` | internal/afk/schedule.go:142-270 | One listed Schedule's turn moves only its own memo, by the walk of its window since the mark, and emits exactly when the mark advanced, the memo it leaves owes a firing, the overlap read found no run, liveness is below the cap and the provider is logged in. |
| `ScheduleMemo.EmitsIffFiringOwed` | internal/afk/schedule.go:142-269 | Within the horizon a turn emits if and only if nothing vetoes and a firing was held from an earlier pass or lies in the window walked; below the cap the firing then owed is the newest. |
| `ScheduleMemo.LaunchScheduledRun` | internal/afk/schedule.go:385-596 | A firing is spawned exactly when its Schedule is there, enabled and unpaused, its repo there and cloned, no run of it live, its prompt not blank, its provider resolved, liveness below the cap and the launch comes up; it is kept exactly when all was in order up to an unreadable fact or a full house, which is to say when the first obstacle in the source's order is a passing one. |
| `ScheduleMemo.Producer.Launch` | internal/afk/schedule.go:270-287 | The candidate's closure keeps the owed firing exactly when retrying is worth it (the first obstacle is a passing one), and touches no other Schedule. |
| `ScheduleMemo.Producer.Answer` | internal/afk/schedule.go:270-287 | A launch's cause clears the owed firing exactly when it spends it, and no other Schedule's. |
| `ScheduleMemo.TurnIsAStep` | internal/afk/schedule.go:142-270 | Whatever a pass does to a memo is a step of the ledger's life, so the accounts below hold of the producer. |
| `ScheduleMemo.StepKeepsAccounts` | internal/afk/schedule.go:142-287 | Every step (pass, launch answer, delisting) keeps the accounts: walked windows disjoint and in order, owed instants strictly increasing, one fate a match. |
| `ScheduleMemo.RunsKeepAccounts` | internal/afk/schedule.go:142-287 | The accounts hold in every reachable state, through step-backs of the clock, unready repos and at-cap retries. |
| `ScheduleMemo.EveryMatchHasAFate` | internal/afk/schedule.go:142-287 | In every state that keeps the accounts, capped walks and earlier listings included, every match between first sighting and mark is exactly one of consumed, superseded, collapsed, dropped by a cap, abandoned by delisting, or pending. |
| `ScheduleMemo.ListedMatchesHaveOneOfFourFates` | internal/afk/schedule.go:142-287 | In every run, while a Schedule stays listed under one cadence and its walks are uncapped, every match since its first sighting is exactly one of consumed, superseded, collapsed or pending, and neither dropped nor abandoned. |
| `ScheduleMemo.AbandonedLieBehind` | internal/afk/schedule.go:142-180 | In every run only a delisting abandons a match, so every abandoned one lies at or before the current listing's first sighting. |
| `ScheduleMemo.WalkDropsIffOverCap` | internal/afk/schedule.go:88-105 | A walk within the horizon drops matches if and only if its window holds more than 1000 of them. |
| `ScheduleMemo.UncappedRunsDropNothing` | internal/afk/schedule.go:88-105 | A run all of whose walks stay below the cap drops no match, in any of its states. |
| `ScheduleMemo.OwesTwiceIffBehind` | internal/afk/schedule.go:142-200 | A delisted Schedule whose greatest owed instant fires under its cadence can owe an instant again once relisted if and only if the relisting's clock is behind that instant, however many firings behind. |
| `ScheduleMemo.RunsOweInOrder` | internal/afk/schedule.go:142-287 | Owed instants strictly increase along every run in which no first sighting reads a clock behind the greatest instant already owed, whatever else the clock does. |
| `ScheduleMemo.SteppedBackRelistingOwesTwice` | internal/afk/schedule.go:142-180 | A run from the empty memo of the failing kind: a firing is consumed, the Schedule delisted, relisted behind it, and the same instant owed again. |
| `BranchPattern.ParseInvertsRender` | internal/gitx/pattern.go:139-162 | A ref parses to n exactly when n is a machine integer of at least 1 and the ref is the rendering of n. |
| `BranchPattern.RenderInjective` | internal/gitx/pattern.go:125-127 | Different issue numbers render to different branches. |
| `BranchPattern.PatternsOverlap` | internal/gitx/pattern.go:87-121 | True if and only if some issue number n >= 1 renders to a branch starting with the manual prefix. |
| `BranchPattern.AmbiguityIsMachineOverlap` | internal/gitx/pattern.go:67-82 | A branch that is both a parsed claim and manual-prefixed exists exactly when some machine-integer issue renders under the prefix. |
| `BranchPattern.MachineOverlapsByText` | internal/gitx/pattern.go:87-121 | Exactly when the overlap is one that machine integers can reach, in terms of the prefix's text alone. |
| `BranchPattern.OverlapBeyondMachineIntegers` | internal/gitx/pattern.go:87-121 | A manual prefix spelling an issue beyond the machine integers is refused although nothing can render it. |
| `BranchPattern.SafeAlphabet` | internal/gitx/pattern.go:175-192 | A character is ref-safe exactly when it is one of the 26 lower and 26 upper case letters, the 10 digits, dot, underscore, slash and dash. |
| `BranchPattern.FirstBadRefChar` | internal/gitx/pattern.go:179-192 | The character returned is unsafe and the first such one; none is returned exactly when every character is safe. |
| `BranchPattern.ValidatePattern` | internal/gitx/pattern.go:30-45 | Accepts exactly the patterns with one token, safe characters, no edge slash and no dot pair, and names the first bad character. |
| `BranchPattern.ValidateManualPrefix` | internal/gitx/pattern.go:51-65 | Accepts exactly the non-empty safe prefixes without leading slash or dot pair. |
| `BranchPattern.ValidatePatternPair` | internal/gitx/pattern.go:71-82 | Accepts exactly valid pairs without overlap; after that no branch is both a claim and manual-prefixed. |
| `Verdicts.FirstLineOnly` | internal/tracker/verdict.go:27-45 | A comment's word is that of its first line alone, its prose exactly what follows: no later line makes, hides or changes the word. |
| `Verdicts.PostedVerdictReadsBack` | internal/agentapi/handlers.go:1331-1336 | Round trip: the comment a verdict verb posts, with or without prose, reads back as its word and that prose. |
| `Verdicts.PostedVerdictSignals` | internal/afk/decide.go:173-246 | Whatever the thread held before, a posted verdict is done-signal for its own run kind and no other: pass and reject for a lander, fix-done for a fix, escalate for an escalation, by its marker. |
| `Verdicts.SignalsOtherwise` | internal/afk/decide.go:173-246 | Any other comment leaves the three signals as they were; a merge sets all three, the escalation not by marker; an absent pull request sets none. |
| `Verdicts.VerdictWords` | internal/afk/decide.go:248-263 | The words of the thread in comment order, unknown and empty words included. |
| `Verdicts.LastVerdictWord` | internal/afk/decide.go:152-171 | The newest known word; unknown words after it are skipped, and "" means no known word. |
| `Verdicts.DropSupersededEscalations` | internal/afk/decide.go:265-331 | The thread without exactly the escalations not after the re-arm, in order. |
| `Verdicts.NeverRearmed` | internal/afk/decide.go:289-291 | A thread newer than the re-arm instant is kept whole. |
| `Verdicts.LastKnownOfLiveThread` | internal/afk/decide.go:292-300 | Filtering changes the newest known word exactly when a superseded escalation carries it. |
| `Verdicts.EscalationIsLiveIff` | internal/afk/decide.go:265-331 | The filtered thread carries escalate exactly when some comment carries it from strictly after the re-arm instant. |
| `Verdicts.LiveReview` | internal/afk/decide.go:338-345 | True exactly when some review is not dismissed. |
| `Verdicts.HumanRejected` | internal/afk/decide.go:347-382 | True exactly when some row with a reviewer requests changes, is not dismissed, and no later undismissed row of that reviewer approves or requests changes; a later comment neither sets nor clears it. |
| `Verdicts.LatestIsNewestVerdict` | internal/afk/decide.go:357-376 | A reviewer's latest verdict is the row with a verdict that no later undismissed verdict of the same reviewer follows. |
| `Verdicts.PolledByRows` | internal/afk/autoland.go:117-187 | The folded facts by the rows: escalated exactly when a marker comment or an escalated run is newer than the re-arm, rejected exactly when some reviewer rejects by the newest verdict, reviewed exactly when some review stands. |
| `Verdicts.DecisionTable` | internal/afk/decide.go:445-490 | Exactly when the decision is a lander, an approve-only lander, a fix or an escalation, in terms of the newest verdict, the reviewers, the two gates and the two budgets. |
| `Verdicts.LazyCountsDecideAlike` | internal/afk/autoland.go:189-231 | Reading each attempt count only when the permissive zero would act on it decides what both counts decide. |
| `Verdicts.NotDoneAtBirth` | internal/afk/decide.go:190-246 | When the poller says lander or fix, that kind's done-signal is false on the raw thread; when it says escalate, false on the filtered thread. |
| `Verdicts.EscalateDoneAtBirth` | internal/afk/decide.go:219-246 | On the raw thread an escalate run is done at birth if and only if a superseded escalation carries the newest known word. |
| `Verdicts.RearmedEscalationIsDoneAtBirth` | internal/afk/decide.go:235-246 | A re-armed, once escalated pull request of a repo that allows no fix runs is such a case. |
| `Verdicts.ApprovesOnlyOverARejection` | internal/afk/decide.go:469-502 | A lander only approves exactly when some reviewer still requests changes: it never merges over a standing rejection. |
| `Verdicts.StandingRejectIsNewest` | internal/afk/decide.go:534-552 | While reject is the newest known word the newest reject comment is the open one; otherwise no findings are open. |
| `Verdicts.FindingsByRows` | internal/afk/decide.go:534-552 | The findings are the trimmed prose of the newest comment that carries a verdict, if that verdict is reject, and else nothing. |
| `Verdicts.NoVerdictNoFindings` | internal/afk/decide.go:534-552 | A thread without a known verdict has no findings and no newest word. |
| `Verdicts.FirstSeenOrder` | internal/afk/decide.go:557-571 | The order lists exactly the reviewers with a verdict, once each, by their first verdict-bearing row. |
| `Verdicts.LanderFindings` | internal/afk/decide.go:537-552 | The trimmed text below the first line of the open reject, or nothing. |
| `Verdicts.FoldReviews` | internal/afk/decide.go:557-571 | The map holds exactly each reviewer's latest live verdict, the order their first-seen order. |
| `Verdicts.RejectionContext` | internal/afk/decide.go:534-579 | The open findings, then one section per standing reviewer with prose in first-seen order, joined by blank lines. |
| `Verdicts.WorkOrderEmpty` | internal/afk/decide.go:516-533 | The work order is non-empty exactly when the open reject or some standing rejection has prose. |
| `Verdicts.FixHasARejection` | internal/afk/decide.go:503-512 | A fix decision always has an open reject or a standing reviewer behind it. |
| `AutolandGather.FoldPull` | internal/afk/autoland.go:96-197 | Folds a pull request exactly when every needed read succeeds, the escalated run being read only when no live marker is on the thread. |
| `AutolandGather.DecideReadingCounts` | internal/afk/autoland.go:198-231 | The decision with every readable count filled in; a count that is needed and unreadable decides nothing. |
| `AutolandGather.DecidedIffSure` | internal/afk/autoland.go:189-231 | The lazy reads decide on an action if and only if every other fact is read and the decision is that action whatever the unread counts are. |
| `AutolandGather.OfferPull` | internal/afk/autoland.go:79-291 | At most one candidate a pull request, only for an open claim with a decision and a logged-in provider, its work order folded from the filtered thread. |
| `AutolandGather.RepoCandidates` | internal/afk/autoland.go:79-291 | Each candidate comes from its own pull request of the repo and keeps an offer's promises (open claim, idle branch, no escalation, not done at birth, work order); every pull request that can be offered a run is there, once, in listing order, so a failed read costs its pull request alone. |
| `AutolandGather.AutolandCandidates` | internal/afk/autoland.go:39-294 | Over the fleet: every candidate traces to one pull request and keeps an offer's promises there, every offer is there, once, in listing order; and a run of an action is among them if and only if it is due: autoland on, forge-bound and cloned in the listing and in the row read again, below three failures and the cap, an open claim, a decision no unread count could change, and the provider of the action's own chain logged in. The memo holds what each provider's first check said. |
| `AutolandGather.ReadableFactsDecide` | internal/afk/autoland.go:189-231 | With every fact readable the gather decides what DecideAutoland decides on both counts. |
| `AutolandGather.OfferIsSound` | internal/afk/autoland.go:134-261 | An offered run's branch is idle and unescalated, its provider logged in, its claim branch renders its issue, it is not done at birth (escalate: up to the superseded case), and its work order is empty only when no live rejection has prose. |
| `Autoland.StepKeepsSafe` | internal/afk/autoland.go:117-230 | Every read, decision, launch, burn, comment, run ending and re-arm keeps the protocol's invariant. |
| `Autoland.BudgetsHold` | internal/afk/autoland.go:319-351 | Over every run, launches past the cap check since the last re-arm stay within the fix bound and within three escalations, and at most one active run works the branch. |
| `Autoland.LaunchesAreGrounded` | internal/afk/autoland.go:117-168 | A launch finds no active run, no escalated run newer than the re-arm, and no live marker among the comments its pass read. |
| `Autoland.SilentUntilRearm` | internal/afk/decide.go:445-490 | The run half: once an escalated run is newer than the last re-arm, nothing is launched until the next re-arm. |
| `Autoland.MarkerSilences` | internal/afk/decide.go:445-490 | The marker half: a marker newer than the re-arm that stands from before a pass reads the thread silences that pass and every later one for as long as it stands. |
| `Autoland.AtMostOneSlips` | internal/afk/autoland.go:101-168 | After one launch past a standing marker, no further launch happens while it stands. |
| `Autoland.ReadOnIsThePass` | internal/afk/autoland.go:101-231 | The undisturbed phases the next two rows speak of are the protocol's own: each follows the one before by a step of the pass, or is the same where no count was needed. |
| `Autoland.ReadOnDecidesEagerly` | internal/afk/autoland.go:189-231 | An undisturbed pass, reading its counts only where needed, ends pending on what DecideAutoland says of all facts read together, and idle exactly when it says nothing. |
| `Autoland.SlipsIffIdleAndUnspent` | internal/afk/autoland.go:101-231 | A pass that has read the thread comes to a pending launch if and only if it goes on to read an idle branch, no standing escalation and an unspent budget. |
| `Autoland.SlipsOnlyUnread` | internal/afk/autoland.go:101-231 | In every run, a launch over a standing marker had not read it, and had read an idle branch, no escalation and an unspent budget. |
| `Autoland.PendingIsTheEagerDecision` | internal/afk/autoland.go:189-231 | In every run a pending action is what DecideAutoland says whatever the counts it left unread are: any escalation count unless it escalates, any fix count for a lander, any at or past the one read for an escalation; and the budget it spends is not spent. |
| `Autoland.RearmRenewsTheBudget` | internal/store/afk.go:321-384 | After a re-arm, whatever was spent before it, an undisturbed pass that reads a standing rejection, an idle branch and no newer escalation asks for a run again: a fix where the repo allows any, else an escalation. |
| `Autoland.MarkerInTheGap` | internal/afk/autoland.go:101-152 | A run of the protocol that launches a second escalate run over a standing escalation marker. |
| `Autoland.PullStore.AutolandLaunch` | internal/afk/autoland.go:319-351 | Everything but at-cap burns one attempt of a bounded kind, started or not; landers burn none. |
| `Autoland.PullStore.RearmPull` | internal/store/afk.go:321-384 | The instant is stamped and every kind's attempts are zero, together. |
| `RunLifecycle.ClaimTable` | internal/afk/reaper.go:334-370 | Exactly when a claim says escalated, death, timeout or nothing: a scheduled run fails only by dying before its deadline, an expired one succeeds, and no claim says stopped. |
| `RunLifecycle.StepKeepsInv` | internal/afk/reaper.go:314-377 | Every event of every thread (each launch step, the claim's three looks and its write, a Stop's look, write and kill, the drain's look, lookup and kill) keeps guard, launches, rows, effects, watcher and Stop consistent. |
| `RunLifecycle.EndsOnce` | internal/store/runs.go:223-247 | Once a run's row has ended it is never rewritten; it can only vanish. |
| `RunLifecycle.RowsVanishByRollback` | internal/store/runs.go:372-381 | A row vanishes only by the rollback of its own, still guarded launch. |
| `RunLifecycle.StoppedIsLeftAlone` | internal/afk/stop.go:11-22 | A stopped run is never claimed, pushed, torn down or counted. |
| `RunLifecycle.EffectsOfReapsOnly` | internal/afk/reaper.go:422-577 | Push, teardown and counter happen at most once a run, and only to a run the reaper ended. |
| `RunLifecycle.FinishedReapHasItsEffects` | internal/afk/reaper.go:422-577 | In every run, a reap that is over has torn its run down, pushed it if and only if it escalated or an AFK run succeeded, and counted it if and only if it did not escalate and is an AFK, fix or scheduled run. |
| `RunLifecycle.EffectsStay` | internal/afk/reaper.go:422-577 | Effects are never taken back. |
| `RunLifecycle.LaunchesAreNotClaimed` | internal/afk/reaper.go:324-335 | No claim ends a run whose launch is between its mark and its clear, whatever the launch did between the claim's looks. |
| `RunLifecycle.ClaimsWriteWhatTheySaw` | internal/afk/reaper.go:314-377 | A claim that writes writes the outcome of exactly the row, guard and liveness it looked at, on a row nobody touched since. |
| `RunLifecycle.ClaimsAreWritten` | internal/afk/reaper.go:334-377 | In every run a claim on a row still there writes its outcome, if it has one, and goes on to reap under it; without one it changes nothing. |
| `RunLifecycle.GuardFirstWouldReapALaunch` | internal/afk/reaper.go:318-335 | Looking at the guard before the row would not do: a run in which that order sees an unguarded, dead, active run whose launch is in progress. |
| `RunLifecycle.KillsAreOwed` | internal/afk/reaper.go:182-249 | Reap, drain and Stop kill only sessions without an active run; reap and drain never one being launched. |
| `RunLifecycle.KillsTakeEffect` | internal/afk/reaper.go:182-249 | A kill that goes through, the reap's of a live session, the drain's or the Stop's, leaves the session dead; one that fails, or a reap of a dead session, kills nothing. |
| `RunLifecycle.UndisturbedLaunch` | internal/instance/launch.go:253-680 | From any state the invariant allows, a launch nobody disturbs leaves one more active row, its session live, the guard as it was, and nothing else. |
| `RunLifecycle.RolledBackLaunch` | internal/instance/launch.go:439-480 | A launch that fails after its row and rolls back leaves nothing behind but its spent id, and a half-live session only where the kill fails. |
| `RunLifecycle.UndisturbedReap` | internal/afk/reaper.go:314-577 | A claim and reap nobody disturbs end the run with the outcome of what was seen, kill its session, have exactly their effects and touch nothing else. |
| `RunLifecycle.ClaimGivesUp` | internal/afk/reaper.go:318-352 | A claim of a run that is over or still being launched, or whose session listing fails, leaves everything as it was. |
| `RunLifecycle.DeadRunIsReaped` | internal/afk/reaper.go:334-377 | An active run whose session dies undone is reaped as a death; a scheduled one past its deadline as a success. |
| `RunLifecycle.UndisturbedStop` | internal/afk/stop.go:23-82 | A Stop nobody disturbs ends the run as stopped, kills its session and has no effect of a reap. |
| `RunLifecycle.LateStopGivesUp` | internal/afk/stop.go:23-50 | A Stop that finds its run ended by the time it writes changes no row and kills nothing. |
| `RunLifecycle.UndisturbedDrain` | internal/afk/reaper.go:222-247 | A drain nobody disturbs kills a live session if and only if nobody guards it or runs in it, and touches nothing else. |
| `RunLifecycle.Engine.RunBySession` | internal/store/runs.go:176-192 | The active run of a session name, or none exactly when there is none. |
| `RunLifecycle.Engine.EndRun` | internal/store/runs.go:223-247 | Ends an active row and refuses any other, touching no other row. |
| `RunLifecycle.Engine.ClassifyAndClaim` | internal/afk/reaper.go:314-377 | Row, guard, liveness and write with launches moving between them: the outcome is that of the row, guard and session as each was looked at, and a row rolled back by the write takes none. |
| `RunLifecycle.Engine.StopAFK` | internal/afk/stop.go:23-82 | Ends the session's active unattended run as stopped before a best-effort kill; otherwise changes nothing, and exactly when there is none. |
| `RunLifecycle.Engine.DrainOne` | internal/afk/reaper.go:222-247 | Kills a session exactly when it is unguarded at the first look and nobody's active run at the second, whatever moved between. |
| `SpawnPass.StableSortIsUnique` | internal/afk/spawn.go:123-128 | Stage order and production order leave one possible order. |
| `SpawnPass.SortByStage` | internal/afk/spawn.go:123-128 | Sorts the candidates in place by stage, keeping each stage's production order. |
| `SpawnPass.Pass` | internal/afk/spawn.go:122-161 | Spawns exactly the runs a pass trying every candidate's locked launch spawns, launches a rising subsequence of the sorted candidates, and leaves out only candidates already at their cap. |
| `SpawnPass.AtCapStopsSmallerCaps` | internal/afk/spawn.go:141-156 | After a candidate at its cap none with a cap no larger spawns. |
| `SpawnPass.SharedCapStopsThePass` | internal/afk/spawn.go:141-156 | Under one shared cap nothing spawns after the first at-cap. |
| `SpawnPass.SpawnsStayUnderCap` | internal/afk/launch.go:205-213 | A spawn leaves true liveness at or below its repo's cap. |
| `SpawnPass.SpawnsExactlyWhereRoomIs` | internal/afk/launch.go:205-284 | A candidate is spawned if and only if its launch reaches the cap check with true liveness below the cap and nothing stops it past it. |
| `SpawnPass.StagesInProductionOrder` | internal/afk/spawn.go:98-112 | Within a stage: autoland, new work, schedules, then on-demand candidates, so a Run now meets its cadence firing as a live run. |
| `Claims.ClaimedIssues` | internal/afk/decide.go:696-709 | A number is claimed exactly when its rendered branch is listed; no other branch registers. |
| `Claims.ClaimableIssues` | internal/afk/decide.go:681-694 | The unclaimed ready issues in order. |
| `Claims.OpenBlockers` | internal/afk/blocked.go:158-164 | Exactly the named blockers that are open; none exactly when the issue is not blocked. |
| `Claims.PartitionBlocked` | internal/afk/blocked.go:139-172 | The unblocked issues in order, and the held-back ones in order each with exactly the open issues holding it. |
| `Claims.FilterClaimable` | internal/afk/launch.go:388-428 | The open set is asked for exactly when a claimable issue names a blocker, the result is what always asking gives, and a tracker failure fails exactly when the answer was needed. |
| `Claims.PickLowestIssue` | internal/afk/decide.go:664-679 | An issue of least number, none exactly when there is none. |
| `Claims.GatesKeepOrder` | internal/afk/launch.go:388-428 | The two gates keep the order of the ready list: two lists in a row give what each gives, in a row. |
| `Claims.ActiveBranchesDiffer` | internal/afk/launch.go:127-134 | Active runs hold distinct claim branches. |
| `Claims.Repo.Pick` | internal/afk/launch.go:163-192 | The least ready number without a claim branch and with an unblocked issue, none exactly when nothing is free. |
| `Claims.Repo.Launch` | internal/afk/launch.go:135-284 | Keeps active runs on distinct issues behind their claim branches and at most one auto run; a launch takes the least free issue, the other outcomes (tracker needed and down, nothing free, auto run in flight, at cap) occur exactly in their order, and a failed start releases its claim. |
| `Claims.Repo.End` | internal/store/runs.go:223-247 | A run's end keeps the claims and leaves its branch. |
| `Claims.Repo.DropBranch` | internal/gitx/worktree.go:110-113 | Dropping a branch no active run claims keeps the claims. |
| `CommitGraph.MergedContainsBoth` | internal/gitx/crmerge.go:217-255 | Whatever merge --no-ff leaves checked out descends from the base and from the head. |
| `CommitGraph.SuccessContainsBoth` | internal/gitx/crmerge.go:168-199 | A successful merge leaves origin at a commit descending from the old base and the head; a fast-forward adds no commit, anything else one commit of those two parents. |
| `CommitGraph.RefusalMovesNothing` | internal/gitx/crmerge.go:146-164 | Exactly when a merge lands (head already contained, or hooks allow it and it fast-forwards or merges cleanly); a refused one leaves origin where it was. |
| `CommitGraph.RepeatIsNoOp` | internal/gitx/crmerge.go:156-167 | Repeating a successful merge with the base unmoved adds no commit, moves no ref and returns the same tip, whatever the hooks say. |
| `CommitGraph.Clone.CRMerge` | internal/gitx/crmerge.go:168-199 | Fetch, ancestry, push or temporary merge, refetch: graph, origin and answer are those of the one merge; a missing head or failed fetch moves nothing, a failed refresh reports the landed commit, and no worktree is left behind on any path. |
| `CommitGraph.Clone.MergeInTempWorktree` | internal/gitx/crmerge.go:217-255 | The diverged branch of the same, its worktree removed on conflict and refusal too. |
| `CommitGraph.Clone.PushOrigin` | internal/gitx/crmerge.go:284-312 | Accepts an up-to-date or fast-forward push the hooks allow and moves the tracking ref with origin; refuses anything else without moving either. |
| `MergeRace.StepKeepsInv` | internal/gitx/crmerge.go:168-255 | Every step of every racing merge and every outside push keeps tracking below the tip and each merge's stage true. |
| `MergeRace.SuccessIsOnOrigin` | internal/gitx/crmerge.go:168-199 | Whatever raced it, a success's commit descends from the base it began on and from its head, and origin contains it. |
| `MergeRace.SuccessIsSeen` | internal/gitx/crmerge.go:150-155 | A merge that reports success leaves the tracking ref at origin's tip, so its head reads as merged there. |
| `MergeRace.HeadsAreNeverLost` | internal/gitx/crmerge.go:156-167 | Once two merges have succeeded, origin contains both heads, then and ever after. |
| `MergeRace.PushesLandAboveEverything` | internal/gitx/crmerge.go:284-312 | In every run a push that succeeds takes origin above its old tip, above the base its merge began on and above its head; one that fails leaves origin alone. |
| `MergeRace.LoserIsRejected` | internal/gitx/crmerge.go:160-164 | Once a merge has landed, a push of a commit that does not contain its commit is refused and moves nothing, whatever else raced and whatever the hooks say. |
| `MergeRace.RaceHasOneWinner` | internal/gitx/crmerge.go:160-164 | Of two merges that built their commits on one base, once the first has landed the second's push is refused and moves nothing, unless its head contains the first's commit. |
| `MergeRace.OneCommitWhenDiverged` | internal/gitx/crmerge.go:178-194 | A merge writes a commit only in its build step, of exactly the tracked base and the head, and only when neither contains the other. |
| `MergeRace.UndisturbedMerge` | internal/gitx/crmerge.go:168-199 | From any state the races can reach, a merge nobody disturbs comes to exactly what the one merge (`MergeAlone`) comes to: graph, tip and answer, the tracking ref at origin and every other merge where it was. |
| `MergeRace.LatePushIsRefused` | internal/gitx/crmerge.go:160-164 | A commit someone pushes just before a merge pushes refuses the merge, whatever the hooks say, and stays on origin. |
| `ChangeRequest.StepKeepsInv` | internal/crmerge/crmerge.go:174-351 | Every step of Merge, Close, DeleteHead and the outside keeps the locks, rows, landings and containment consistent. |
| `ChangeRequest.OneHolder` | internal/crmerge/crmerge.go:452-473 | At most one merge or close holds a change request. |
| `ChangeRequest.LeavesOpenOnce` | internal/store/crs.go:260-297 | A row that left open is never written again. |
| `ChangeRequest.RecordsFindOpenRows` | internal/crmerge/crmerge.go:228-240 | The record of a landed merge always finds the row open. |
| `ChangeRequest.ClosedMeansUnmerged` | internal/crmerge/crmerge.go:333-351 | A closed request's merge reached origin if and only if some merge of it failed between push and record. |
| `ChangeRequest.StrandedThenClosed` | internal/crmerge/crmerge.go:228-240 | A run in which a merge lands, its record fails and a close wins. |
| `ChangeRequest.MergedIsContained` | internal/crmerge/crmerge.go:217-236 | A merged request's head is contained in its base on origin, whatever the base, as long as that branch is not deleted; the default branch never is. |
| `ChangeRequest.DeletesMergedHeadsOnly` | internal/crmerge/crmerge.go:266-323 | Lab deletes a branch only for a request recorded as merged, only its head, never the default branch, and from a merge never the base. |
| `ChangeRequest.MergeDeletesItsHeadIffAsked` | internal/crmerge/crmerge.go:258-264 | In every run the delete after a merge, accepted by origin, takes the head exactly when the merge call asked for it and the head is neither empty, the base nor the default branch. |
| `ChangeRequest.UndisturbedMerge` | internal/crmerge/crmerge.go:174-266 | A merge nobody disturbs records the row as merged, moves the base to its commit, frees the mutex and deletes the head exactly when asked; nothing else changes. |
| `ChangeRequest.RefusedMerge` | internal/crmerge/crmerge.go:195-226 | A merge of a request that is not open, or that git refuses, leaves rows, refs and mutex as they were. |
| `ChangeRequest.UndisturbedClose` | internal/crmerge/crmerge.go:333-351 | A close closes an open request, leaves any other as it is, and touches no ref. |
| `ChangeRequest.UndisturbedDelete` | internal/crmerge/crmerge.go:279-323 | The retried delete of a merged request takes any head but the default branch. |
| `ChangeRequest.DeletesItsBaseIff` | internal/crmerge/crmerge.go:288-323 | A head delete origin accepts removes the request's own base if and only if it is the retried delete and head and base are one non-empty branch other than the default. |
| `ChangeRequest.RetriedDeleteLosesTheBase` | internal/crmerge/crmerge.go:288-323 | A run in which a request of a branch onto itself is merged, keeps its branch, and loses it to the retried delete. |
| `ChangeRequest.Remote.DeleteRemoteBranch` | internal/gitx/remote.go:105-120 | No error means origin does not have the branch; an error means it is still there or origin could not be asked; no other ref moves. |
| `ChangeRequest.Remote.RemoteRefExists` | internal/gitx/remote.go:122-136 | Exactly whether origin has the ref, among lines listed for other names; unreachable is never a no. |
| `CredRotate.SortNewestFirst` | internal/credrotate/credrotate.go:273-273 | The same candidates, newest file first, those of one modification time in listing order. |
| `CredRotate.Rotation.AdoptNewest` | internal/credrotate/credrotate.go:274-288 | The newest candidate whose adopt succeeds becomes the master's family; a master is left alone exactly when all fail. |
| `CredRotate.Rotation.AdoptScan` | internal/credrotate/credrotate.go:236-289 | Stamps exactly the unstamped homes with credentials and adopts the newest adoptable diverged home. |
| `CredRotate.Rotation.StampUnstamped` | internal/credrotate/credrotate.go:243-256 | Every listed home with credentials and no baseline gets its own signature as baseline unless the stamp fails; every other baseline stays, and a home so stamped no longer counts as fed. |
| `CredRotate.Rotation.FanOut` | internal/credrotate/credrotate.go:298-314 | Every listed home that does not fail holds a copy of the master's file with its signature as baseline; failed and unlisted homes are untouched. |
| `CredRotate.Rotation.FanOutChange` | internal/credrotate/credrotate.go:214-222 | A master signature not seen before is fanned out, an empty or seen one changes nothing. |
| `CredRotate.Rotation.Poke` | internal/credrotate/credrotate.go:200-213 | At most one poke in 900 seconds, stamped before the call, and never of a logged-out master. |
| `CredRotate.Rotation.Tick` | internal/credrotate/credrotate.go:187-223 | The newest adoptable family wins and reaches the master; after a faultless tick with a logged-in master every logged-in live home holds its family if and only if the tick fans out or they all held it before, and nothing is left to adopt or stamp; a settled state without a due poke is left untouched. |
| `CredRotate.Rotation.FedHomesHoldTheFamily` | internal/credrotate/credrotate.go:291-314 | After a settled tick a home last written by a fan-out or launch that did not fail holds the master's family with its signature as baseline. |
| `CredRotate.Rotation.AdoptCheck` | internal/credrotate/credrotate.go:326-365 | Before a wipe, a diverged family reaches the master unless its adopt fails, and the other live homes are fed; otherwise nothing changes. |
| `CredRotate.Rotation.Launch` | internal/instance/launch.go:541-579 | A launched home is a copy of the master with its signature as baseline. |
| `CredRotate.UnstampedHomeKeepsItsFamily` | internal/credrotate/credrotate.go:247-253 | A tick can settle with a stamped live home whose family is not the master's. |
| `CredRotate.FailedInjectKeepsItsFamily` | internal/credrotate/credrotate.go:298-314 | Nor does a home whose inject failed: a later faultless tick settles and leaves it with the old family. |
| `ChatTailer.HashesBySeq` | internal/chat/tailer.go:286-294 | The last content read for each number. |
| `ChatTailer.LowestIsLowest` | internal/chat/tailer.go:296-311 | Zero exactly when no already-read message re-rendered, otherwise the least number that did. |
| `ChatTailer.LowestBackpatchSeq` | internal/chat/tailer.go:299-311 | Computes that number in one pass. |
| `ChatTailer.NoBackpatchAppends` | internal/chat/tailer.go:296-311 | Without a back-patch a later read of the file extends the earlier one. |
| `ChatTailer.RefetchCatchesUp` | internal/chat/chat.go:64-76 | A client that agrees with the tailer's last read and refetches after min(cursor, backpatch-1) has the new read exactly when the kept messages the tailer had not read did not change. |
| `ChatTailer.LoadAheadOfTheRead` | internal/chat/chat.go:64-76 | A client that loaded a message the tailer had not read yet can stay stale. |
| `ChatTailer.TailLoop.Tick` | internal/chat/tailer.go:168-251 | One tick's bookkeeping and envelope: a failed read commits nothing but the path and the dropped stat, a read publishes exactly on first, changed transcript, changed state or detail, or a back-patch. |
| `ChatTailer.AnnouncedIff` | internal/chat/tailer.go:186-248 | A tick on an unchanged path reads exactly when the stat or the signal moved, and announces its read exactly when the stat moved, the state or its detail changed, or what was read before is no prefix of it. |
| `ChatTailer.FirstAndRotatedAreAnnounced` | internal/chat/tailer.go:168-248 | A first read and a read after a rotation are always announced, with their state. |
| `ChatTailer.StateChangesAreAnnounced` | internal/chat/tailer.go:244-248 | In every run a read whose state or detail differs from the read before it is announced with them. |
| `ChatTailer.FailedReadIsRetriedIff` | internal/chat/tailer.go:180-204 | A tick whose read failed is taken up by the next look at the same path, stat and signal if and only if it noticed more than a move to a path whose stat could not be read. |
| `ChatTailer.AgreesIffKeptStands` | internal/chat/chat.go:64-76 | What one published tick does to any client: it has the new read if and only if it was on another file or what it keeps has not re-rendered. |
| `ChatTailer.RotationBackAgreesIff` | internal/chat/tailer.go:168-232 | A rotation back into the client's file flags nothing, so the client agrees if and only if nothing it holds has re-rendered. |
| `ChatTailer.ClientAgreesIff` | internal/chat/tailer.go:168-251 | The same along every run, failed reads and failed rotations included, with no condition on the run. |
| `ChatTailer.ClientKeepsUp` | internal/chat/tailer.go:168-251 | Along any run in which reads of the client's file are compared with that file, rotation ticks failing or not, the client holds a prefix of the newest read of its file. |
| `ChatTailer.ClientAgreesWhenPublished` | internal/chat/chat.go:64-76 | In such runs, after every published tick the client's stream is what the tailer read. |
| `ChatTailer.NothingIsMissed` | internal/chat/tailer.go:168-251 | In such runs, where a file's stat moves whenever its messages do, the client's stream is the read after every successful read of its file, announced or not. |
| `ChatTailer.UnannouncedReadsRepeat` | internal/chat/tailer.go:186-248 | In those runs a read that is not announced found the messages of the read before it, in the same file. |
| `ChatTailer.SignalReadHidesAppend` | internal/chat/tailer.go:237-248 | A run from the loop's start in which a read opened by a signal alone, ahead of the stat, finds an appended message and announces nothing yet. |
| `ChatTailer.MovesReadCompareOwn` | internal/chat/tailer.go:168-184 | Runs in which every move to another file is read are such runs. |
| `ChatTailer.UnpublishedReadsAppend` | internal/chat/tailer.go:244-248 | A read that publishes nothing is no rotation, and only adds messages at the end when the last read was of the same file. |
| `ChatTailer.FailedRotationLeavesStale` | internal/chat/tailer.go:177-232 | A run from the loop's start, with a client following it, in which the tailer leaves the client's file on a failed read and comes back, and the client stays stale. |
| `ChatTailer.FailedRotationFlagsFreshFile` | internal/chat/tailer.go:177-232 | A run from the loop's start in which a fresh file publishes a back-patch after a failed rotation read. |
| `Decimal.AtoiOfItoa` | internal/gitx/pattern.go:154-157 | A rendered machine integer parses back to itself. |
| `Decimal.ItoaOfValue` | internal/gitx/pattern.go:154-160 | Digits without a leading zero are the rendering of their value, which is what the strict re-rendering check relies on. |

## Left out

- tmux, podman, git subprocesses, HTTP handlers, server-sent events, push sending and the vault: only their effects on sessions, refs and rows appear.
- Seed prompts, labels, flow texts, log lines and the escalation history digest: prose only.
- The "Blocked by" section scan and its regular expressions: an issue carries the numbers they yield.
- Branch listing by ref glob: the model lists every local branch.
- Time-zone tables: a location is an abstract pair of maps, or one of three concrete families.
- The per-Schedule pause flag and its store statements.
- `ChatTailer.ClientAgreesWhenPublished`: asks that reads of the client's file be compared with that file, because `ChatTailer.FailedRotationLeavesStale` shows the promise can fail otherwise; `ChatTailer.ClientAgreesIff` is exact without it.
- `CredRotate.Rotation.Launch`: the launch's inject and stamp succeed; a failed one rolls the launch back before a home is live.
- `Schedule.CronMatchesIn`: exact counts only for windows within the search horizon, past which the search itself gives up; `Schedule.FiveYearWindowsAreWithinHorizon` and `Schedule.LeapDayWindowsAreWithinHorizon` say exactly which windows those are at a fixed offset.
- Time zones whose clocks fall back across midnight: the search orders days by their readings.
- Expr's bit masks are sequences of bits of the source's word widths, not machine words; characters stand for bytes.

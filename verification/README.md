# Verified model of the market-data collectors and replays

This project models, in Dafny, the procedures of the repository in which a fast, resumable or approximate
method has to agree with a simple specification, and proves that it does — or proves exactly when it does.

| module | models |
|---|---|
| `Announcements`, `QueryLog`, `Crawler` | the announcement crawler that splits queries until a truncating, repeating, omitting server answers them, with a record of what it asked |
| `EventExtraction`, `Dividends`, `Factors` | ex-date tables, the vote of up to four sources on one ex-date, and the backward product of adjustment factors |
| `QfqCarry` | plans, receipts and files of the forward-adjustment build, with the carry step between two plans |
| `DownloadPool`, `MinutePaging` | the locked worker pool of the minute download, backward paging, and the upsert into the stored file |
| `IntradayConversion`, `StatusPlan`, `StatusAppend`, `CorporateActions`, `ObservationDigest`, `BoardLog` | file protocols that survive kills: part files with a state file, one-row appends with checkpoints, replacement with backups, an append-only log |
| `BarMerge`, `GapPlanning`, `DailyFromMinutes` | merging returned bars, planning what is missing, and deriving 5-minute and daily bars from minutes |
| `LotMatching`, `LedgerReplay` | two T+1 lot matchers and the cash and equity replay |
| `Tables`, `Sorting`, `Files`, `Wrappers` | shared definitions |

## How to read it

- Loops and updates of the source are methods and classes; what they compute is a function of the inputs or of
  the old state, and the theorems are lemmas about that function.  A protocol that can be killed, interleaved
  or resumed is a state machine: `Enabled` and `Next` give one step, `IsRun` is any sequence of steps, and the
  theorems hold for every run.  `Crawler.Session`, `QfqCarry.Store`, `StatusAppend.Run`,
  `CorporateActions.Symbol`, `IntradayConversion.Lake` and `BoardLog.Day` perform such steps in place.
- The server of the crawler is an arbitrary function of request number, query and page.  It is only assumed to
  state exact totals and to list matching entries, and no two announcements it holds share both id and stock code;
  it may repeat and omit at will.
- A digest stands for the content it is taken of.  Prices, cash and factors are reals.
- `Crawler.Session` keeps a ghost record of its queries (`QueryLog.Call`): the pages asked for, the replies and the
  outcome.  The theorems about a crawl speak of this record, so they hold for every server.
- Providers, clocks, failures and kills are parameters or steps chosen freely.

## Where the code and its documentation differ

Each point names the lemma with a concrete input and the lemma with the exact condition.

1. `build_qfq.py` says that THS against Baostock always blocks (lines 14-15).  With several plans on one day it
   need not (`Dividends.ThsBaostockDisagreementCanPass`); it passes exactly on confirmed several-plan days
   (`Dividends.ThsBaostockDisagreement`).
2. `_group` says it drops identical rows, and compares their printed amounts: 5 and 5.0 are added up
   (`EventExtraction.SamePlanPrintedTwiceCountsTwice`).  No plan is paid twice if and only if equal amounts of a day
   are printed alike (`EventExtraction.NoPlanTwiceIffPrintsAgree`).
3. A plan that comes back byte for byte finds its receipt complete although another plan has overwritten its files
   (`QfqCarry.ReturningPlanCanDisagree`).  Whether a plan that is taken up ends with the rebuilt files is decided then:
   it does if and only if the digests its receipt records are on disk (`QfqCarry.TakingUpDecides`).  A code whose daily output is null records no
   daily digest and writes no file, so an older daily file may stay.
4. The worker pool reads a target's stored last date outside its error handler, so an unreadable file ends the
   worker and the target is neither done nor failed (`DownloadPool.UnreadableTargetIsLost`).  Every target gets an
   answer if and only if every target's stored file can be read (`DownloadPool.AllAnsweredIffReadable`).
5. `status_fast.py` says lagging histories are not touched (lines 11-12).  Planning a day again after it was applied
   takes them up, over the days they lack (`StatusPlan.LaggingFileIsTakenUp`); it does so if and only if one of them
   ends before the day (`StatusPlan.RerunTakesUpLaggingFiles`).
6. A kill or failure between the backup and the write of an asked status row blocks that row for the rest of the
   plan (`StatusAppend.StuckArises`, `StatusAppend.StuckNeverFinishes`).  A run finishes if and only if no row still
   to be written has such a backup, a failing write or an improper answer (`StatusAppend.Run.Apply`).  A failed
   corporate-action write blocks its plan in the same way (`CorporateActions.BlockedArises`,
   `CorporateActions.BlockedForGood`); a new observation is stored if and only if neither file to be replaced has a
   backup of the plan already (`CorporateActions.Symbol.ApplyOne`).
7. A run killed between its last receipt and its provenance file leaves that file missing, or as an earlier attempt
   wrote it (`StatusAppend.ProvenanceCanBeLost`, `StatusAppend.ProvenanceCanBeStale`).  The file of a finished plan
   lists the final results if and only if the finishing process was not killed there
   (`StatusAppend.ProvenanceIsRightIffPublished`).
8. A board name containing U+0085, U+2028 or U+2029 makes its complete log line unreadable
   (`BoardLog.CompleteRowCanBeUnreadable`); a line is read if and only if it has no such character
   (`BoardLog.WholeRowIsRecoveredIffClean`).
9. The two lot matchers differ on some fills out of day order (`LotMatching.OutOfOrderTheyDiffer`), namely on exactly
   those sells whose holdings are hidden behind a lot of the day or later (`LotMatching.ReplaysAgreeExactly`).
10. Paging stops at a page that starts on a stored day (tdx_minute.py:206), which takes every stored day for whole.
    When the last stored day is there in part, bars between the stored ones and that page are never merged
    (`MinutePaging.PartialLastDayLeavesAHole`).  The refreshed file is the one that merging every bar would give if and
    only if no newer bar lies before the first fetched one, and none does when the last stored day is whole and the
    offset limit is not reached (`MinutePaging.Refresh`).

## Model

| member | source | states |
|---|---|---|
| Crawler.Session.QueryPages | scripts/collect/cninfo_history.py:98-138 | at most 102 page requests, in the order that the replies demand; the outcome is the one they call for: what it returns is exactly what they list, it repeats pages exactly after a third stale reply, and it fails exactly without a reply, without a total, or when a hundredth page promises more than the total allows; a plain answer holds every matching entry once, and a server whose pages list everything once is answered in full when the query fits |
| QueryLog.AbortHasACause | scripts/collect/cninfo_history.py:98-252 | a crawl is given up if and only if one of its queries met one of those three replies |
| Crawler.Session.SplitByCategory | scripts/collect/cninfo_history.py:141-163 | matching entries only, each key once, within 26 times two queries; never aborted against a server that lists everything, and when the categories fit, every entry that has one comes back and nothing is noted |
| Crawler.Session.FetchCategory | scripts/collect/cninfo_history.py:145-156 | one category: paged as far as possible and noted when it does not fit, complete without a note when it does |
| Crawler.Session.FetchTrade | scripts/collect/cninfo_history.py:170-179 | one industry yields its own entries of the unsplit query only; against a server that lists everything a note is left if and only if the industry is too big, and without one all its entries come back |
| Crawler.Session.FetchTrades | scripts/collect/cninfo_history.py:166-186 | the loop over industries: matching entries, each key once; against a server that lists everything, no note and the full number if and only if the industries fit and cover the day |
| Crawler.Session.SplitByTrade | scripts/collect/cninfo_history.py:166-189 | asks for every industry; one warning with both numbers if they differ; whatever a board-day split misses is explained by a new warning naming that day and board, whether or not industries partition the day; against a server that lists everything, no warning is added if and only if the industries fit and cover the day |
| Crawler.Session.FetchBoard | scripts/collect/cninfo_history.py:236-249 | one board of the board split, in all four outcomes of its query: it is split if and only if it is too big or its pages repeat, and otherwise used as paged, with one warning if that is short; against a server that lists everything it is split exactly when it is too big, and no warning is added exactly when it fits |
| Crawler.Session.SplitByBoard | scripts/collect/cninfo_history.py:233-252 | every entry of one of the boards is returned or explained, each key once when boards partition the day; against a server that lists everything no warning is added if and only if every board fits and either a board was split or the sum equals the total; then exactly the boards' entries come back, and what no board holds is lost silently |
| Crawler.Session.FetchBoards | scripts/collect/cninfo_history.py:235-250 | the loop over boards: entries of boards only, missing ones explained; against a server that lists everything the split flag is set if and only if a board is too big, and no warning is added if and only if every board fits |
| Crawler.Session.SplitDay | scripts/collect/cninfo_history.py:233-252 | a single day, with or without a board: all parts are asked for, exactly what they page is returned, and nothing is silently lost |
| Crawler.Session.FetchRange | scripts/collect/cninfo_history.py:211-252 | for any range and any server: it gives up exactly when a query has failed; otherwise every query that is too big, repeats, or falls short over several days is followed by all its parts, and what is returned is exactly what the other queries paged; a day answered by one query is used as paged, with one warning if it is short; no silent loss: every missing entry is explained by a new warning; against a server that lists everything, when boards partition the day or one is asked for, there is no warning if and only if every day fits; terminates within a bound linear in the days |
| Crawler.Session.FetchHalves | scripts/collect/cninfo_history.py:222-232 | halving keeps all of this, asks for both halves, and costs no more than the bound |
| Announcements.AccountedWithoutWarningIsExact | scripts/collect/cninfo_history.py:208-208 | an answer without a warning is, as a set and in number, exactly what matches |
| Announcements.DrawnBounded | scripts/collect/cninfo_history.py:136-138 | comparing the count with the total suffices: distinct matching entries of the full number are all of them |
| Announcements.JoinHalves | scripts/collect/cninfo_history.py:228-232 | halving by date and concatenating loses nothing and repeats nothing |
| Announcements.AppendBoard | scripts/collect/cninfo_history.py:235-249 | concatenating board answers without a key check repeats nothing exactly because boards are disjoint |
| EventExtraction.Group | scripts/derive/build_qfq.py:167-185 | per day, the distinct printed plans and all blockers of that day and of no other |
| EventExtraction.SlotIsLocal | scripts/derive/build_qfq.py:167-185 | a day's slot depends on that day's rows only |
| EventExtraction.PlansAreStated | scripts/derive/build_qfq.py:167-185 | each plan of a slot is what an unblocked row of the day states, amount by amount, and its blockers are those of the day's blocked rows |
| EventExtraction.EachPrintOnce | scripts/derive/build_qfq.py:175-179 | every unblocked print of a day is counted exactly once |
| EventExtraction.NoPlanTwiceIffPrintsAgree | scripts/derive/build_qfq.py:175-179 | no plan enters the day's sum twice if and only if rows of the day with equal amounts print them alike |
| EventExtraction.SamePlanPrintedTwiceCountsTwice | scripts/derive/build_qfq.py:175-179 | one dividend printed as 5 and as 5.0 is summed twice |
| EventExtraction.CollectRights | scripts/derive/build_qfq.py:324-340 | the first pass gathers each day's different plans, missing prices and S1 marks, skipping failed issues |
| EventExtraction.RightsEvents | scripts/derive/build_qfq.py:323-359 | the days of all three origins, each with its plans and every blocker that applies |
| EventExtraction.PairsExactly | scripts/derive/build_qfq.py:324-340 | a day's pairs are exactly the different positive price-ratio pairs of the issues that took place |
| EventExtraction.RightsDaysExactly | scripts/derive/build_qfq.py:324-340 | a day counts as a rights day, and as an incomplete one, exactly by the issues that took place |
| EventExtraction.RightsDayScalesOrBars | scripts/derive/build_qfq.py:323-426 | a rights day of any origin bars every older row unless it has exactly one complete plan, no S1 mark and, if TDX states it, its confirmation; otherwise that plan enters the factor |
| Dividends.AgreementSpread | scripts/derive/build_qfq.py:261-292 | in the all-agree branch any two usable sources differ by at most twice the tolerance in cash and in stock |
| Dividends.AgreementSpreadIsTight | scripts/derive/build_qfq.py:288-292 | the factor two is attained, since agreement is with the first source only |
| Dividends.AcceptedNeedsTwoSources | scripts/derive/build_qfq.py:283-302 | every non-provisional value is backed by two usable sources within the tolerance |
| Dividends.ProvisionalExactly | scripts/derive/build_qfq.py:283-286 | the provisional rule fires if and only if the day is recent and THS alone has it, usably |
| Dividends.AgeingOnlyBlocks | scripts/derive/build_qfq.py:269-286 | leaving the provisional window changes nothing or turns a provisional value into a block |
| Dividends.ThsBaostockDisagreement | scripts/derive/build_qfq.py:293-304 | disagreeing THS and Baostock are accepted if and only if the day is a confirmed several-plan day, and then with the THS total |
| Dividends.ThsBaostockDisagreementCanPass | scripts/derive/build_qfq.py:293-302 | such a day exists |
| Dividends.AllAgreeExactly | scripts/derive/build_qfq.py:268-292 | ignored if and only if TDX alone has the day; accepted by agreement if and only if two sources are usable and all agree with the first, with the THS sum or else the first |
| Dividends.SeveralPlansExactly | scripts/derive/build_qfq.py:293-302 | accepted as a several-plan day if and only if TDX confirms the sum of several THS plans and every other usable source, of which there is one, carries one of them |
| Dividends.SumAdds | scripts/derive/build_qfq.py:159-164 | plans are added amount by amount |
| Dividends.SourceChoiceMovesFactorLittle | scripts/derive/build_qfq.py:415-424 | using another agreeing source moves an accepted factor by at most 2e-5 over the close plus 3e-5 |
| Factors.SourcesAreLawful | scripts/derive/build_qfq.py:389-426 | for every set of source tables: accepted factors are positive, and ageing can only block |
| Factors.SkippedExactly | scripts/derive/build_qfq.py:389-400 | a day is skipped if and only if TDX alone has it and there is no rights issue |
| Factors.EffectExactly | scripts/derive/build_qfq.py:389-426 | every other day bars older rows if and only if its distribution or rights are blocked or no factor between 0 and 1.5 results; otherwise it scales by ex-worth over shares, unless that is 1 |
| Factors.EffectsAreInWindow | scripts/derive/build_qfq.py:381-386 | only ex-dates after the first bar and not after the last have an effect |
| Factors.TwoPointer | scripts/derive/build_qfq.py:446-455 | one backward pass gives each row the product of the accepted factors strictly after it |
| Factors.JudgeEvents | scripts/derive/build_qfq.py:378-433 | every stated ex-date judged once, in date order |
| Factors.Classify | scripts/derive/build_qfq.py:427-448 | the accepted list keeps the product of every date, and the latest blocked day decides which rows are crossed |
| Factors.RecordedExactly | scripts/derive/build_qfq.py:427-436 | written down are exactly the ex-dates with an effect, in date order |
| Factors.BuildSymbol | scripts/derive/build_qfq.py:363-464 | the written rows are the last bars, one row each: day, volume and amount of the bar, each price times the product of the accepted factors after it; the bars before them are exactly those that a blocked ex-date cuts off, and `valid_from` separates the two |
| Factors.LastBarIsUnscaled | scripts/derive/build_qfq.py:24-25 | the latest bar has factor 1 |
| Factors.RowsAreSound | scripts/derive/build_qfq.py:456-460 | every written row is such a row of some bar, OHLC order survives, and no blocked ex-date lies after it |
| Factors.RowsAreComplete | scripts/derive/build_qfq.py:456-460 | every row without a later blocked ex-date is written |
| Factors.RowsAreTail | scripts/derive/build_qfq.py:456-460 | the rows are a tail of the bars, in order and without a gap |
| Factors.Telescope | scripts/derive/build_qfq.py:446-455 | two rows' factors differ by exactly the ex-dates between them |
| Factors.AdjustedCloseIsExPrice | scripts/derive/build_qfq.py:20-25 | across one ex-date, the written close before it times what one share becomes is the close less the cash plus the rights paid, at the adjustment of the next row, with the day's own cash, price and ratio |
| Factors.OldEffectsAfterAppend | scripts/derive/build_qfq.py:378-433 | appending bars keeps an old ex-date's effect or blocks it, and never unblocks |
| Factors.ProductsAfterAgeing | scripts/derive/build_qfq.py:446-455 | old products are rescaled by one constant wherever no block lies after |
| Factors.Reanchoring | scripts/derive/build_qfq.py:378-464 | after later bars arrive all surviving old factors are multiplied by one common constant, provisional events included |
| Factors.ReturnsSurviveAppend | scripts/derive/build_qfq.py:378-464 | in the rows written before and after later bars arrive, the closes of any two surviving old bars are in the same ratio |
| QfqCarry.FaithfulStep | scripts/derive/build_qfq.py:558-641 | each build, write, crash, input change and carry keeps every entry equal to a rebuild |
| QfqCarry.FaithfulCarry | scripts/derive/qfq_carry.py:56-110 | copied entries are what a rebuild under the new plan would record |
| QfqCarry.EveryReceiptIsARebuild | scripts/derive/qfq_carry.py:56-110 | over any chain of plans, carries and interruptions every entry of every receipt is a from-scratch result on its own plan's pins |
| QfqCarry.FilesAgreeStep | scripts/derive/build_qfq.py:558-598 | each step keeps the files of the current plan's finished codes equal to the rebuilt ones, taking up another plan included when its recorded digests are on disk |
| QfqCarry.CompletedPlanOfAnyRun | scripts/derive/build_qfq.py:558-598 | in whatever order plans were taken up, a complete receipt covers exactly the plan's codes with rebuilt entries, and the files are the rebuilt ones if and only if the recorded digests are on disk |
| QfqCarry.TakingUpDecides | scripts/derive/build_qfq.py:542-598 | in any run, a plan taken up and later complete has the rebuilt files if and only if the digests its receipt records were on disk when it was taken up |
| QfqCarry.CompletedPlanEqualsRebuild | scripts/derive/build_qfq.py:558-598 | they are, whenever every plan was taken up with its recorded digests on disk, as a new plan always is |
| QfqCarry.MinuteFilesAgreeStep | scripts/derive/build_qfq.py:601-641 | each step keeps recorded 5-minute files on disk |
| QfqCarry.MinuteReceiptsAreOnDisk | scripts/derive/build_qfq.py:601-641 | every 5-minute entry of the current plan is a rebuild for the raw file it names, and its file is on disk |
| QfqCarry.ReturningPlanCanDisagree | scripts/derive/build_qfq.py:542-550 | a reachable state whose returning plan is complete but not on disk |
| QfqCarry.CarriedEntries | scripts/derive/qfq_carry.py:72-98 | entries of the new plan are never replaced, and every other entry passed all its checks |
| QfqCarry.CarryReceipts | scripts/derive/qfq_carry.py:72-98 | a code without an entry of its own gets one if and only if the old plan has an entry for it, both plans pin the same inputs, and the recorded files are on disk, and then that entry; the same for the 5-minute receipt; counts exactly the codes left without an entry |
| QfqCarry.Store.BuildCode | scripts/derive/build_qfq.py:575-596 | building one pending code adds its rebuilt entry and nothing else |
| QfqCarry.Store.BuildPending | scripts/derive/build_qfq.py:568-596 | the loop stops only when the budget is below the number of codes or an input changed, and otherwise leaves every code built |
| QfqCarry.Store.ApplyDaily | scripts/derive/build_qfq.py:558-598 | a run not stopped completes the plan, a run is stopped only for want of time or a changed input, and no run takes back a recorded entry |
| DownloadPool.ExclusiveStep | scripts/collect/tdx_minute.py:262-307 | no step puts a key into two hands, or into a hand and the queue |
| DownloadPool.ConservedStep | scripts/collect/tdx_minute.py:262-307 | no step drops a target: it is queued, held, settled, or lost with a dead worker |
| DownloadPool.BoundedStep | scripts/collect/tdx_minute.py:262-307 | no step exceeds two tries |
| DownloadPool.TablesAreExact | scripts/collect/tdx_minute.py:286-293 | over any run a key's failures grew by exactly its recorded failed downloads, its tries by how often it was taken, and it is done if and only if it was before or a successful download of it was recorded |
| DownloadPool.DoneMeansDownloaded | scripts/collect/tdx_minute.py:262-293 | what a run adds to the done table was downloaded in it, successfully, by the worker that recorded it |
| DownloadPool.StepsRunOut | scripts/collect/tdx_minute.py:262-307 | every step lowers a measure, requeues included |
| DownloadPool.EveryRun | scripts/collect/tdx_minute.py:253-311 | all of this under every interleaving |
| DownloadPool.OneHolderTwoTries | scripts/collect/tdx_minute.py:262-307 | never two holders of a key, never a third try in one run |
| DownloadPool.RunsAreShort | scripts/collect/tdx_minute.py:253-311 | at most ten steps per target, one per worker and one for the clock |
| DownloadPool.NormalEndSettlesAll | scripts/collect/tdx_minute.py:253-311 | a run that ends by itself has an empty queue; every target was tried in it, and is done or has two failures, one of them new, so no requeue is lost |
| DownloadPool.DeathsConfineTheDamage | scripts/collect/tdx_minute.py:262-297 | with dead workers an unsettled target is lost with one of them, or queued since some state after which every worker still there died, the one that requeued it included |
| DownloadPool.UnreadableTargetStaysUnsettled | scripts/collect/tdx_minute.py:234-275 | a target with an unreadable stored file is never settled by a run |
| DownloadPool.ReadableTargetsKeepWorkersAlive | scripts/collect/tdx_minute.py:262-307 | with readable targets and successful state saves no worker dies |
| DownloadPool.AllAnsweredIffReadable | scripts/collect/tdx_minute.py:262-307 | a run not stopped gives every target an answer if and only if every target's stored file can be read |
| DownloadPool.UnreadableTargetIsLost | scripts/collect/tdx_minute.py:266-275 | one worker and one unreadable file: the run ends by itself with the target neither done nor failed |
| DownloadPool.RequeuedTargetCanBeStranded | scripts/collect/tdx_minute.py:285-297 | a target requeued by a dying worker stays queued although another worker left normally |
| DownloadPool.HaltsAfterThirtyInARow | scripts/collect/tdx_minute.py:277-284 | the stop flag is set if and only if thirty downloads in a row have failed |
| MinutePaging.Fetch | scripts/collect/tdx_minute.py:197-211 | the pages joined are a gap-free tail of the server's bars, as long as the stopping rule says: all of it, back to a stored day, or up to the offset limit, in at most 38 pages |
| MinutePaging.ToRowsMembers | scripts/collect/tdx_minute.py:135-151 | which bars become rows, and which are dropped |
| MinutePaging.MergeIsUpsert | scripts/collect/tdx_minute.py:214-231 | for any old and new rows: the merged file is sorted, has unique keys, the last new row of every key, and the last old row of every key that is not new |
| MinutePaging.FirstDownload | scripts/collect/tdx_minute.py:214-231 | without an old file: nothing is written for no rows, otherwise the last row of every key, in order |
| MinutePaging.TailMergeEqualsFullMerge | scripts/collect/tdx_minute.py:197-231 | merging a tail of the server's bars gives the very file that merging all of them would, if and only if every legitimate bar before the tail is stored already |
| MinutePaging.Refresh | scripts/collect/tdx_minute.py:197-231 | a daily refresh of a file that was complete equals the full merge if and only if no newer bar lies before the first fetched one; it does when the last stored day is whole and the offset limit is not reached |
| MinutePaging.PartialLastDayLeavesAHole | scripts/collect/tdx_minute.py:206-206 | 802 server bars and a stored first bar: the refresh stops after one page and a bar is missing |
| BarMerge.MergeFrame | scripts/collect/bars_incremental.py:152-188 | returned days hold exactly the returned rows, all other days exactly the stored ones; sorted, unique, never fewer rows |
| BarMerge.FullReplaces | scripts/collect/bars_incremental.py:152-188 | a full action writes exactly the provider's bars, if and only if there are any, all in range and no key twice |
| BarMerge.TailWritesExactly | scripts/collect/bars_incremental.py:152-188 | a tail or refresh is written if and only if besides that it loses no rows |
| BarMerge.TailKeepsHistory | scripts/collect/bars_incremental.py:152-188 | a tail action changes no row before the last stored day |
| BarMerge.MergeIsIdempotent | scripts/collect/bars_incremental.py:152-188 | the same response merged again changes nothing |
| BarMerge.MergeReaches | scripts/collect/bars_incremental.py:152-188 | the merged table reaches the later of its own and the response's last day |
| GapPlanning.TailCoversMissingDays | scripts/collect/coverage.py:141-183 | a tail has a start and an end, never crossed, and spans every missing trading day at or above the vendor floor |
| GapPlanning.PlansOnlyListed | scripts/collect/coverage.py:149-158 | refused without a trading day up to the target; not listed if and only if the file should hold no trading day |
| GapPlanning.FullGapIsExact | scripts/collect/coverage.py:160-165 | a file without rows is asked for from the first to the last trading day it should hold, which are counted |
| GapPlanning.TailGapIsExact | scripts/collect/coverage.py:174-183 | a file that ends before the last session is asked for from its last stored day, or the vendor floor, to that session |
| GapPlanning.PartialDayIsExact | scripts/collect/scan_gaps.py:138-144 | the last session alone is refreshed if and only if a 5-minute file reaches it with fewer than 48 bars |
| GapPlanning.SuspendedOnlyWithEvidence | scripts/collect/scan_gaps.py:128-165 | a tail is written off only when every session of it is on record as not trading and none as trading |
| GapPlanning.SuspendedExactly | scripts/collect/scan_gaps.py:145-162 | a tail is written off if and only if every session of it has a not-trading row, none a trading row, and there are as many rows as sessions |
| GapPlanning.CurrentExactlyWhenReached | scripts/collect/scan_gaps.py:128-165 | up to date if and only if the stored data reaches the target, and fills it for 5-minute bars |
| GapPlanning.TailMergeKeepsHistory | scripts/collect/bars_incremental.py:152-188 | plan then merge: no row before the last stored day changes |
| GapPlanning.TailMergeShrinksGap | scripts/collect/coverage.py:141-183 | plan then merge: no trading day becomes missing |
| GapPlanning.TailMergeReplans | scripts/collect/scan_gaps.py:128-165 | planned again, a daily symbol is up to date if and only if the provider returned the planned end |
| GapPlanning.SkippedDaysAreNotPlannedAgain | scripts/collect/coverage.py:141-183 | a day that a tail response skipped before a day it returned stays missing, and no later plan asks for it |
| DailyFromMinutes.AggregateMeaning | scripts/collect/daily_from_min1.py:88-99 | open and close are the ends, high and low are attained bounds, volume and amount are sums |
| DailyFromMinutes.AggregateByChunks | scripts/collect/daily_from_min1.py:62-99 | aggregating consecutive chunks and then the results is aggregating once |
| DailyFromMinutes.PricedChunksArePriced | scripts/collect/daily_from_min1.py:82-97 | valid parts give a valid whole |
| DailyFromMinutes.PricedDayWithUnpricedChunk | scripts/collect/daily_from_min1.py:82-97 | the converse fails on a whole day: 240 proper minutes whose daily bar is accepted and whose 5-minute bars are refused |
| DailyFromMinutes.SessionIsExact | scripts/collect/daily_from_min1.py:41-59 | 240 distinct in-session times are exactly 09:31-11:30 and 13:01-15:00 in order if and only if they are real minutes and no minute has two times |
| DailyFromMinutes.BucketsAreFull | scripts/collect/daily_from_min1.py:62-81 | all 48 buckets then hold exactly five consecutive bars |
| DailyFromMinutes.FiveMinuteBarsGiveTheDay | scripts/collect/daily_from_min1.py:62-99 | aggregating the 48 bars gives the daily bar, which is accepted as well |
| DailyFromMinutes.FifthsOfTheDay | scripts/collect/daily_from_min1.py:62-81 | the i-th 5-minute bar is made of the i-th five minutes and carries the time of the last of them |
| DailyFromMinutes.DerivedExactly | scripts/collect/daily_from_min1.py:41-99 | a daily bar is derived if and only if the session is complete, has volume, and gives positive prices within its extremes |
| DailyFromMinutes.DifferentTimesAreNotTheSession | scripts/collect/daily_from_min1.py:45-59 | that condition is needed for arbitrary files; the minute collector writes zero seconds (scripts/collect/tdx_minute.py:144), so its files meet it |
| IntradayConversion.RecordIsShortestBalanced | scripts/derive/gst_intraday.py:65-89 | a record is the shortest run of whole lines with an even number of quotes |
| IntradayConversion.CompleteIsFinished | scripts/derive/gst_intraday.py:176-231 | an exhausted source leaves exactly the numbered parts, with the rows of one run |
| IntradayConversion.PartIsConsistent | scripts/derive/gst_intraday.py:195-212 | a kill between part and state leaves a file that will be overwritten |
| IntradayConversion.NextIsConsistent | scripts/derive/gst_intraday.py:195-212 | part and state together advance consistently |
| IntradayConversion.Lake.Flush | scripts/derive/gst_intraday.py:195-212 | survives a kill before, between and after its two writes |
| IntradayConversion.Lake.ReadRecords | scripts/derive/gst_intraday.py:213-231 | collected rows and read position always match what one run has emitted; given time it ends in success or failure according to whether every record still to be read is readable |
| IntradayConversion.Lake.Convert | scripts/derive/gst_intraday.py:176-231 | every ending keeps the lake resumable; a run out of time has saved all rows of the records it read; given time it completes if and only if every record still to be read is readable |
| IntradayConversion.Lake.Campaign | scripts/derive/gst_intraday.py:176-231 | after any sequence of time-limited and killed runs, once complete the parts hold exactly one run's rows and no stale part |
| IntradayConversion.OrdinaryExportIsReadable | scripts/derive/gst_intraday.py:65-82 | a header and a record form a readable export although an empty line is not a record |
| StatusPlan.MostCommonIsMost | scripts/collect/status_fast.py:111-114 | the previous day is the last day of most files before the day; none only if no file ends before it |
| StatusPlan.BuildPlan | scripts/collect/status_fast.py:98-150 | the planning loops make the specified plan, and it meets all that applying it relies on |
| StatusPlan.EveryCodeHasItsPlace | scripts/collect/status_fast.py:117-137 | every stored code is present, planned or lagging, and never two of these |
| StatusPlan.AskedExactlyInDoubt | scripts/collect/status_fast.py:122-137 | the provider is asked if and only if the stock was ST, has no bar of the day, or has a name that disagrees; otherwise the row is derived from bar and flag |
| StatusPlan.PlannedExactlyWithEvidence | scripts/collect/status_fast.py:98-142 | there is a plan if and only if no file is empty, some file ends earlier, and 4000 files show that the day is in |
| StatusPlan.DerivedRowsAreSafe | scripts/collect/status_fast.py:122-137 | over any run, a derived row is never ST, carries yesterday's flag, contradicts no known name, and says trading exactly when the bar has volume |
| StatusPlan.RerunTakesUpLaggingFiles | scripts/collect/status_fast.py:111-124 | after a day was applied, planning it again acts if and only if a lagging file ends before it, and on lagging files only |
| StatusPlan.LaggingFileIsTakenUp | scripts/collect/status_fast.py:98-150 | with 4000 current files and a lagging one, the second plan of the day is for the lagging one |
| StatusAppend.StepKeepsInv | scripts/collect/status_fast.py:183-271 | every step, kill and failure keeps files, receipt and pending work consistent |
| StatusAppend.ExactlyOnce | scripts/collect/status_fast.py:183-271 | each file is its pinned content or that plus exactly one legitimate row of the day, the planned one if derived; a finished run appended all |
| StatusAppend.WrittenRowsAreTheAnswers | scripts/collect/status_fast.py:222-247 | over any run, a changed file holds exactly one answer that the provider gave for it, or one derived row, behind the pinned rows |
| StatusAppend.MergeAppends | scripts/collect/status_incremental.py:116-136 | a row is accepted onto a planned file if and only if it is of the day and legitimate |
| StatusAppend.ResumeFinishesOrRefuses | scripts/collect/status_fast.py:187-219 | a resume is admitted if and only if no asked row was written unrecorded; it never appends to such a file |
| StatusAppend.KillAfterBackupSticks | scripts/collect/status_fast.py:222-231 | a kill or failure between backup and write leaves the action stuck |
| StatusAppend.KillInsideBackupSticks | scripts/collect/daily_common.py:150-159 | so does a kill inside the backup copy |
| StatusAppend.FailedCopySticks | scripts/collect/daily_common.py:150-159 | and so does a copy that fails while the process lives |
| StatusAppend.StuckArises | scripts/collect/status_fast.py:222-231 | such a state is reached by one plan of one action |
| StatusAppend.StuckNeverFinishes | scripts/collect/status_fast.py:222-264 | a stuck action keeps every later run of the plan from finishing |
| StatusAppend.ProvenanceIsRightIffPublished | scripts/collect/status_fast.py:258-270 | over any run, a finished plan's provenance file lists the final results if and only if the finishing process was not killed before writing it |
| StatusAppend.ListingExactly | scripts/collect/status_fast.py:262-270 | the file names derived and asked successes apart, and every failure |
| StatusAppend.ProvenanceCanBeLost | scripts/collect/status_fast.py:262-270 | a finished plan with a derived row that no provenance file lists |
| StatusAppend.ProvenanceCanBeStale | scripts/collect/status_fast.py:262-270 | a finished plan whose file still lists as failed the row derived since |
| StatusAppend.Run.Enter | scripts/collect/status_fast.py:183-219 | entry is granted exactly when receipt and files allow it, and touches no file |
| StatusAppend.Run.Apply | scripts/collect/status_fast.py:183-271 | a process that lives to its end leaves a result for every action and publishes them, and is finished if and only if nothing stood in the way of what was left; every asked file it recorded as a success holds the pinned rows and the answer, and a failed one is as pinned unless only hashing failed |
| CorporateActions.WindowMergeKeepsOlderYears | scripts/collect/corporate_actions_daily.py:190-202 | all older report years stay; the window comes from the supplier |
| CorporateActions.WindowMergeExactly | scripts/collect/corporate_actions_daily.py:190-202 | row by row: the stored rows of older years and the answer, with multiplicity |
| CorporateActions.FirstObservation | scripts/collect/corporate_actions_daily.py:219-256 | a first observation stores the answer, or marks an empty one, once |
| CorporateActions.LaterObservation | scripts/collect/corporate_actions_daily.py:219-256 | a later one is refused exactly when nothing comes back for years that have rows, is unchanged exactly when the merge has the same rows, and otherwise stores the merge |
| CorporateActions.WindowObservationIsIdempotent | scripts/collect/corporate_actions_daily.py:190-242 | the same data observed again, empty or not, is unchanged if and only if none of it is older than the window, which holds of every answer, since only years of the window are requested (lines 163-167) |
| CorporateActions.LaterWindowIsUnchanged | scripts/collect/corporate_actions_daily.py:190-242 | it stays unchanged when the window moves forward, even past every returned year |
| CorporateActions.FullObservationIsIdempotent | scripts/collect/corporate_actions_daily.py:224-242 | for full-history suppliers a repeated observation never writes |
| CorporateActions.RecoverableStep | scripts/collect/corporate_actions_daily.py:243-256 | every step keeps all pinned bytes recoverable |
| CorporateActions.EverythingPinnedIsRecoverable | scripts/collect/corporate_actions_daily.py:205-329 | over any plans, old ones applied again included, retries, failures and kills, all pinned bytes are live or in a complete backup |
| CorporateActions.CoexistenceArises | scripts/collect/corporate_actions_daily.py:231-256 | the exact steps after which parquet and marker coexist: a write whose marker is still there, or a windowed supplier confirming a stored file without rows |
| CorporateActions.CoexistenceStays | scripts/collect/daily_common.py:81-97 | once they coexist, no run of any plans changes either file or makes another plan |
| CorporateActions.CoexistenceNeedsPendingRemoval | scripts/collect/corporate_actions_daily.py:252-256 | starting from files with rows they coexist only while the removal of a marker is pending: since one write they have coexisted in every state |
| CorporateActions.BlockedForGood | scripts/collect/daily_common.py:150-159 | with its backup made, no run in which no other plan is started replaces the file |
| CorporateActions.BlockedArises | scripts/collect/corporate_actions_daily.py:243-252 | one failed write leads there |
| CorporateActions.Symbol.ApplyOne | scripts/collect/corporate_actions_daily.py:205-259 | what one observation does to both files and both backups: new rows are stored if and only if no backup of the plan is in the way; and what failing copies, writes, hashes and removals leave |
| CorporateActions.Symbol.ApplyWithRetries | scripts/collect/corporate_actions_daily.py:307-317 | only a raised attempt is repeated; unplanned files are left alone by all attempts |
| ObservationDigest.DigestIsContent | scripts/collect/daily_common.py:123-134 | equal digests if and only if equal columns and equal rows with multiplicity, in any order |
| ObservationDigest.AscendingIsCanonical | scripts/collect/daily_common.py:128-134 | sorting makes row order irrelevant and loses no multiplicity |
| BoardLog.LinesConcat | scripts/collect/sector_constituents.py:65-66 | a finished line is read independently of what follows it |
| BoardLog.RepairKeepsRows | scripts/collect/sector_constituents.py:72-74 | ending a torn log with a newline changes no recovered row |
| BoardLog.WholeRowIsRecoveredIffClean | scripts/collect/sector_constituents.py:65-71 | a complete line is recovered if and only if its text holds no line-break character |
| BoardLog.CompleteRowCanBeUnreadable | scripts/collect/sector_constituents.py:65-71 | with a line separator in a board's name nothing is read from its complete line |
| BoardLog.LawfulCodecExists | scripts/collect/sector_constituents.py:108-108 | what is assumed of the row's text, that no part of it reads as a row, can be had |
| BoardLog.CutRow | scripts/collect/sector_constituents.py:66-71 | a write cut anywhere yields nothing, or its row when only the newline is missing |
| BoardLog.RecoveryIsExact | scripts/collect/sector_constituents.py:62-110 | after any killed runs the log reads as every readable complete row in order; a cut hides its own row only |
| BoardLog.Day.AskAll | scripts/collect/sector_constituents.py:86-110 | asks every unfinished board and no other, loses at most the one row of the cut write |
| BoardLog.Day.Run | scripts/collect/sector_constituents.py:49-126 | publishes the day if and only if the run reaches its end with every catalog board finished, with each board's last row; given time and no kill, exactly when no asked board failed |
| LotMatching.SellFromQueue | examples/verify_chan_500_full_history_result.py:31-36 | the popping loop takes the specified lots or refuses |
| LotMatching.SellByScan | examples/verify_chan_e2e.py:108-113 | the scanning loop takes the specified lots or refuses |
| LotMatching.MatchersAgree | examples/verify_chan_500_full_history_result.py:31-36 | with lots in day order both accept the same sells and leave the same open lots |
| LotMatching.MatchersDifferExactlyWhenHidden | examples/verify_chan_500_full_history_result.py:31-36 | in any lot order, one sell is treated alike if and only if its quantity does not lie between what stands before the first lot of the day or later and all older holdings |
| LotMatching.SellNeedsOlderHoldings | examples/verify_chan_e2e.py:108-113 | a sell passes if and only if holdings of earlier days cover it |
| LotMatching.SellTakesQuantity | examples/verify_chan_e2e.py:108-114 | a sell takes exactly its quantity and no lot of its own day |
| LotMatching.ReplaysAgree | examples/verify_chan_e2e.py:96-115 | over any fills in day order both replays accept alike, keep the same open lots, and open lots sum to the position |
| LotMatching.ReplaysAgreeExactly | examples/verify_chan_e2e.py:96-115 | over fills in any order, the two replays agree fill by fill if and only if no sell is hidden in that sense |
| LotMatching.OutOfOrderTheyDiffer | examples/verify_chan_500_full_history_result.py:31-36 | out of day order they differ on a concrete list |
| LedgerReplay.BumpValue | examples/verify_chan_500_full_history_result.py:37-40 | a position change moves the value by quantity times mark, first trades included |
| LedgerReplay.BookFill | examples/verify_chan_500_full_history_result.py:26-38 | booking a fill keeps the ledger identity for all marks at once |
| LedgerReplay.Replay | examples/verify_chan_500_full_history_result.py:24-42 | at every close equity is initial cash plus each fill's signed quantity times mark minus price, minus charged fees |
| LedgerReplay.EquityAtLastCloses | examples/verify_chan_500_full_history_result.py:39-40 | that equity in terms of what was printed: every filled symbol at its last close, or at zero before it has one |
| LedgerReplay.MarksAreLastCloses | examples/verify_chan_500_full_history_result.py:39-40 | each mark is the last close printed for its symbol |
| LedgerReplay.ChargedFromTotals | examples/verify_chan_500_full_history_result.py:27-28 | the charged fees are the reported totals without slippage and without the tax on buys |
| LedgerReplay.ReplaysDifferByBuyTax | examples/verify_chan_e2e.py:127-130 | the two replays' cash differs by exactly the tax on buys, whatever the fills |
| LedgerReplay.ReplaysAgreeOnAcceptedFills | examples/verify_chan_e2e.py:107-130 | on the fills the second script accepts, whose buys are untaxed within its tolerance, the two agree within that tolerance per fill |
| LedgerReplay.UntradedMarksAreIrrelevant | examples/verify_chan_500_full_history_result.py:39-40 | re-marking a symbol without fills changes no equity |

## Left out

- Crawler.Session.SplitByCategory: does not claim completeness, because categories overlap and some announcements
  have none; the total comparison around it catches what is missing.
- Crawler.Session.SplitByBoard: completeness is claimed when boards partition the day; otherwise the contract says what
  is lost silently.
- QfqCarry.CompletedPlanEqualsRebuild: speaks of daily files only where the output has one; a plan taken up again is
  covered when its recorded digests are on disk, and `QfqCarry.CompletedPlanOfAnyRun` covers the rest.
- QfqCarry.Store.BuildCode: comparing an input's digest and reading the input is one step, here and for the raw files
  of the 5-minute bars; an input that changes between the two is not modelled.
- DownloadPool.NormalEndSettlesAll: requires that no worker died; `DownloadPool.DeathsConfineTheDamage` and
  `DownloadPool.AllAnsweredIffReadable` cover the rest.
- GapPlanning.TailMergeReplans: states the daily case; for 5-minute bars a refresh of the last day may follow.
- IntradayConversion.Lake.Convert: the final state file is written without a temporary file, so a kill inside that
  write leaves it torn and later runs fail; the parts are then complete.
- BoardLog.Day.Run: a cut inside a multi-byte character makes reading the log raise; the log is modelled as characters.
- The loop of `apply_min5`, the worker threads and the loop over symbols of the corporate-action update are steps of
  state machines, not methods.
- DailyFromMinutes.FiveMinuteBarsGiveTheDay: requires whole minutes, which every file of the minute collector has.
- StatusAppend.ExactlyOnce: speaks of one plan; a second plan for the same day overwrites that day's provenance file.
- HTTP retries, sessions, throttling, sleeping and signals; one request is one arbitrary reply or failure.
- Parquet, JSON, pandas, polars and duckdb encodings, schema checks and fetch timestamps, except the log of `BoardLog`.
- Rounding of floating-point prices and factors; SHA-256 collisions.
- Parsing supplier tables into events (`ths_events`, `baostock_events`, `eastmoney_events`, `tdx_events`) and the
  descriptive event attributes such as notes, pairs and source lists.
- `tick_rows` and `quote_rows` of the export conversion: the rows of a record are an arbitrary function of it.
- `validate_plan`, `validate_plan_state` and `execute` of the plan runners beyond the checks named above, the run lock's
  operating-system part, and the reference snapshots.
- `reconcile_apply` of the status update, `apply_one` and `apply_one_min5` of the derived bars: each repeats a
  replace-with-backup or upsert pattern modelled elsewhere.
- The planning loops of the slow status update and the SQL of the intraday build.
- Market breadth, schedulers, research factors, mobile and web deployment.

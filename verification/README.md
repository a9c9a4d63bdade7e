# Account pool, usage ledger and log store: a verified model

The repository is a gateway that serves image and chat requests through a pool of upstream accounts. This project models
its stateful core and proves what that core keeps while many callers run at once, and over stops and restarts.

| file | what it models |
|---|---|
| `Sequences.dfy` | sequence functions shared by the other modules |
| `AliasGraph.dfy` | aliases from retired tokens to their replacements, and their resolution |
| `AccountPool.dfy`, `AccountService.dfy` | the lock regions of the account service: as functions on the value of its fields, and as methods that update an object and are proved to perform exactly those functions |
| `SlotConservation.dfy`, `CheckQueue.dfy` | what every interleaving of the lock regions keeps: in-flight counters, and the queue of account checks |
| `SlotFairness.dfy`, `AccountOrder.dfy`, `AccountRecords.dfy`, `CheckTiming.dfy` | over every run: who gets the next slot, the order of accounts, what becomes of one account record, and when checks run |
| `RefreshFlights.dfy` | the OAuth refresh (the refresh grant, section 6 of RFC 6749) as a protocol between callers |
| `CallerView.dfy` | what one caller may rely on while others run: its leases, their names and accounts |
| `ImageCheck.dfy`, `ImageSelection.dfy`, `SelectionService.dfy` | `fetch_remote_info` and `get_available_access_token`, while other callers run any lock region between their own: as functions of the start state and the world, and as methods that are proved to perform them |
| `PoolHealth.dfy`, `PoolChecks.dfy` | `evaluate_account_pool`: its metrics, who is checked in a round, and when it ends |
| `UsageLedger.dfy`, `RetentionPass.dfy`, `UsageService.dfy` | credits of detail and aggregate rows; the retention pass with its stopping points; totals over runs of recordings and passes |
| `LogLines.dfy`, `LogRecords.dfy`, `LogService.dfy` | the block-wise backwards readers, the identities of log entries, paging, deletion |
| `ImageFailure.dfy`, `ConversationFailure.dfy` | failure classification and its merge over the current turn of a conversation |
| `ImagePolling.dfy` | the polling loop with its settle rule and time budget |
| `ImageTasks.dfy`, `ImageTaskService.dfy` | the life of image tasks over submissions, workers, resumed polls and restarts |
| `FireflyConfig.dfy` | the Firefly namespace, its migration and the settings update |
| `DashboardMetrics.dfy` | the dashboard counters in days and hours |

Each object that the program updates in place is a class here. Its methods are proved against functions on the value of
its fields, and the lemmas are about those functions. Calls to remote ends are answers of an arbitrary world: a check may
raise, rotate the token, change the status or remove the account, and other callers may run any lock regions meanwhile.

## Where the code does not do what one would expect

Each of these is stated with its exact condition, by a lemma or by the contract of the method.

- The end of a check discards the token it started with. If that was rotated meanwhile, the active set holds the new one
  and the worker is never freed (`CheckQueue.CheckFreesItsWorkerIff`). Two such checks leave a full queue without workers
  (`CheckQueue.TwoRotatedChecksFillTheQueue`), and no check is ever started again (`CheckQueue.FullQueueNeverStarts`).
- A Firefly re-import renames the account without its in-flight counter and without the check queue
  (`SlotConservation.ReimportKeepsSlotsIff`, `CheckQueue.ReimportKeepsQueueIff`).
- Importing or rotating to a token that a name of an outstanding lease passes through moves that lease, or the release
  made under that name, to the account (`SlotConservation.ImportKeepsSlotsIff`, `SlotConservation.RotationKeepsSlotsIff`).
  The name may be the token the lease was taken on, or the one that its holder was handed after a rotation.
- When a check finds the refresh credential dead and invalid accounts are removed automatically, a positive answer of the
  same check still returns the token, whose account and slot are gone (`ImageSelection.DeliveredIff` says exactly when,
  `ImageSelection.UndeliveredHasNoSlot` what is left, `ImageSelection.DeadRefreshLosesTheSlot` gives the run). A call that
  excludes tokens and finds no candidate at all reports an unavailable pool, also when every account is limited.
- A use charged to an account that is not limited can make it available again as well: one of another status, without
  quota, becomes a candidate when the use turns its known quota of zero into an unknown one (`AccountRecords.UseRevivesIff`).
- A terminal refresh failure marks, and removes if so configured, the account that its access token resolves to, whatever
  credentials that account carries by then (`RefreshFlights.LaterCredentialsSurviveIff`,
  `RefreshFlights.StaleResponseChangesNothingIff`; `RefreshFlights.StaleFailureMarksNewCredentials` is such a run).
- When every check fails, the pool evaluation ends if and only if all batches are tried before the first one is stale again
  (`PoolHealth.FailingPoolEndsIff`).
- An aggregate row keeps the ledger total only if all spellings of the channel add up to its own; the sum compares channels
  without case, the aggregation does not (`UsageLedger.AppendKeepsTotalIff`). Nothing stops a caller from recording such a
  channel (`UsageService.DetailKeepsLedgerOkIff`). A colon in the channel makes trace ids meet
  (`UsageLedger.TraceIdsCollideIff`), one in the owner id makes task keys meet (`ImageTasks.OwnersCollideIff`).
- A detail that arrives after its day was aggregated is not counted (`RetentionPass.LateDetailCountsIff`).
- `has_more` of an unfiltered log page compares with the number of lines, parseable or not
  (`LogService.UnfilteredHasMoreIff`).
- The code for a throttled upload never comes out of structured codes: the rate limit beside it is later in the alphabet
  (`ImageFailure.ClassifiedCodes`). A bad request without a matching reason loses the retry advice
  (`ImageFailure.RetryAfterIsKeptIff`).
- A server that advises to retry after zero seconds is asked again at once, apart from the jitter; only without such
  advice are two polls half a second apart (`ImagePolling.PollsAreSpaced`).
- Ids found so late that the settle sleep uses up the budget are lost to a timeout (`ImagePolling.LateHitIsReturnedIff`).
- Loading does not read the conversation id, so no poll can be resumed after a restart (`ImageTasks.AfterRestart`).
- A call recorded before its day has begun, by a clock ahead of the service's, is dropped by the next prune
  (`DashboardMetrics.CallsCountExactly`). Text reviews are missing from summaries (`DashboardMetrics.SummaryOutcomes`).

## Model

| member | source | states |
|---|---|---|
| `AliasGraph.ResolutionEnds` | services/account_service.py:464-470 | With no cycle of dead tokens, resolution ends at the empty token, a live account or a token that was never replaced |
| `AliasGraph.ResolveWalk` | services/account_service.py:464-470 | The result of the loop with its seen set is the end of the alias walk |
| `AliasGraph.DeadCycleNeverEnds` | services/account_service.py:464-470 | The invariant is needed: from a cycle of dead tokens resolution stops at a token that is dead and replaced |
| `AliasGraph.WalkResolves` | services/account_service.py:464-470 | Any walk that cannot go on ends at the resolution of its first token |
| `AliasGraph.ResolveIdempotent` | services/account_service.py:464-476 | Resolving a resolved token changes nothing |
| `AliasGraph.RotationKeepsNoDeadCycle` | services/account_service.py:696-699 | Renaming a live account to a dead or new token makes no cycle of dead tokens |
| `AliasGraph.RotationRedirects` | services/account_service.py:696-699 | A rotation redirects exactly the tokens that resolved to the old one and those whose walk met the new one |
| `AliasGraph.CleanRotationRedirects` | services/account_service.py:696-699 | With an unaliased new token, or one that resolved to the old one, tokens of other live accounts keep their resolution |
| `AliasGraph.ImportKeepsNoDeadCycle` | services/account_service.py:1480-1563 | Importing an account under any token makes no cycle of dead tokens |
| `AliasGraph.ImportRedirects` | services/account_service.py:1480-1563 | An imported account takes over exactly the tokens whose walk meets its token |
| `AliasGraph.DeletionKeepsNoDeadCycle` | services/account_service.py:1565-1587 | Deleting accounts with their alias edges makes no cycle of dead tokens |
| `AliasGraph.DeletionRedirects` | services/account_service.py:1565-1587 | Deletion leaves tokens of other accounts alone, and tokens of a deleted account resolve to no account |
| `AccountService.Service.ResolveLocked` | services/account_service.py:464-470 | The resolver loop computes resolution in the alias graph of the fields |
| `AccountService.Service.ListReady` | services/account_service.py:905-922 | The ready tokens: the accounts that pass the filters and are available, in map order |
| `AccountService.Service.ListAvailable` | services/account_service.py:924-936 | The ready tokens with a free slot, in map order |
| `AccountService.Service.NoReadyCandidateError` | services/account_service.py:957-998 | The cause reported when no account is ready |
| `AccountService.Service.AcquireOnce` | services/account_service.py:938-955 | One pass of the acquisition loop: a slot on the token at the cursor, or no ready account, or all busy |
| `AccountService.Service.ReleaseLocked` | services/account_service.py:1786-1792 | Takes one from the counter of the resolved token and drops the counter at one |
| `AccountService.Service.ReleaseImageSlot` | services/account_service.py:1794-1799 | Settles the lease and frees its slot, as one step of the pool |
| `AccountService.Service.MarkImageResult` | services/account_service.py:1710-1784 | Settles the lease and charges the result to the account it resolves to, as one step of the pool |
| `AccountService.Service.ReportExhaustedAccount` | services/account_service.py:1000-1045 | Settles the lease and limits or removes the account, as one step of the pool |
| `AccountService.Service.UpdateAccountFields` | services/account_service.py:1589-1623 | Rewrites the record of the resolved account or removes it when it became limited |
| `AccountService.Service.DeleteAccounts` | services/account_service.py:1565-1587 | Removes the resolved accounts, their counters and every alias edge that touches them |
| `AccountService.Service.ImportAccount` | services/account_service.py:1480-1563 | Puts an imported account under its token |
| `AccountService.Service.ReimportFirefly` | services/account_service.py:1523-1531 | Renames a known Firefly account to its new token, leaving counter and queue as they are |
| `AccountService.Service.RotateQueueLocked` | services/account_service.py:703-725 | Renames the retired token in the pending deque and set, the active and rerun sets and the start times |
| `AccountService.Service.RotateLocked` | services/account_service.py:696-728 | Renames the account key, adds the alias, moves the counter and renames the queue in one step |
| `AccountService.Service.ApplyRefreshedTokens` | services/account_service.py:644-735 | Installs a token response by compare-and-set, or refuses it and changes nothing |
| `AccountService.Service.ScheduleCheck` | services/account_service.py:1811-1848 | Queues a check, or marks the running one for a rerun, as one step of the pool |
| `AccountService.Service.StartOne` | services/account_service.py:1850-1859 | Starts the first pending check while fewer than two run |
| `AccountService.Service.FinishCheck` | services/account_service.py:1861-1879 | Ends a check and queues the account again when a rerun was asked for |
| `AccountService.Service.PerformAll` | services/account_service.py:80-130 | Any sequence of lock regions on the object performs the run of the pool model |
| `SlotConservation.SlotsInEveryRun` | services/account_service.py:938-955 | In every run from loading, over all interleavings in which each lease is settled once, under any of the names its holder was handed, and imported and rotated-to tokens are new: each live counter is the number of outstanding leases that resolve to it, only live accounts have counters, none exceeds the limit |
| `SlotConservation.AliasesAlwaysResolve` | services/account_service.py:464-470 | In every run, safe or not, no cycle of dead tokens exists and the account map stays well formed |
| `SlotConservation.StepKeepsSlots` | services/account_service.py:938-955 | Every lock region keeps the slot invariant |
| `SlotConservation.ReleaseKeepsSlots` | services/account_service.py:1786-1799 | A release under any name of the lease takes the slot from the account of the lease, or takes none when that account is gone |
| `SlotConservation.NamingKeepsSlots` | services/account_service.py:1101-1107 | The token that a selection hands out after a rotation may be kept as a further name of the lease while it stands for its account |
| `SlotConservation.RemovalKeepsSlots` | services/account_service.py:1565-1587 | A deletion drops counters together with the leases that resolve to the deleted accounts |
| `SlotConservation.ImportKeepsSlotsIff` | services/account_service.py:1480-1563 | Importing a new account keeps the slot invariant if and only if no name of an outstanding lease passes through its token |
| `SlotConservation.RotationKeepsSlotsIff` | services/account_service.py:644-735 | A rotation keeps it if and only if every name of an outstanding lease that passes through the new token already belongs to the account |
| `SlotConservation.ReimportKeepsSlotsIff` | services/account_service.py:1523-1531 | A Firefly re-import keeps it if and only if the old token has no counter and no name of an outstanding lease passes through the new token |
| `SlotConservation.FreshTokensAreSafe` | services/account_service.py:696-702 | A token that no lease and no alias names is safe to import or rotate to |
| `SlotConservation.AcquiredIsCandidate` | services/account_service.py:938-955 | The token taken belongs to an available account that passes the filters, is not excluded and was below its limit |
| `SlotConservation.ChargingKeepsCandidatesIff` | services/account_service.py:1710-1784 | Charging a result takes an account out of selection if and only if it is a Firefly account of another status whose last unit is spent |
| `SlotFairness.RoundRobin` | services/account_service.py:938-955 | Acquisitions in a row, with nothing in between and every free account staying below its limit: their leases stand on different accounts, each of them free, and with as many acquisitions as free accounts every free account gets exactly one |
| `SlotFairness.TakenIsFree` | services/account_service.py:905-955 | A slot is taken on an account that is usable, wanted, not excluded and below its limit, written out field by field, and one is taken whenever there is such an account; otherwise nothing changes |
| `SlotFairness.CandidateMeans` | services/account_service.py:212-227 | What an account must be like to be handed out: not disabled, limited, abnormal or deleted, and in the normal state, with quota left, of unknown quota, or an active Firefly account; of the plans and the source that are asked for, and no Firefly account unless asked for |
| `AccountOrder.OrderIsKept` | services/account_service.py:905-936 | Over every run, two accounts that remain under their tokens stay in their order |
| `AccountOrder.NewestIsLast` | services/account_service.py:696-702 | An account that is imported, re-imported or rotated to comes behind all that were there |
| `AccountOrder.OfferedInOrder` | services/account_service.py:905-936 | Accounts are offered in the order of the account map |
| `AccountOrder.CursorSurvivesDeletion` | services/account_service.py:1565-1587 | A deletion leaves the cursor where it was, counted round the accounts that are left |
| `AccountRecords.RecordStep` | services/account_service.py:644-735 | What any lock region leaves of the record of an account that stays: an installed response, a charged result or a reported exhaustion changes what it says, and every other region changes nothing |
| `AccountRecords.FieldIsKept` | services/account_service.py:673-694 | Over every run a field of an account, followed through its renamings, is what it was unless a region that may set it ran: a response without a status leaves the status, and every response leaves quota, plan, source and counts |
| `AccountRecords.StatusIsLastGiven` | services/account_service.py:682-683 | Over every run the status is the one given last, by an update, an import, a response that carries one, a reported exhaustion, or a use in spite of the limit |
| `AccountRecords.CredentialIsLastGiven` | services/account_service.py:676-677 | Over every run the refresh token is the one given last, by an installed response, an update or an import |
| `AccountRecords.StaysIff` | services/account_service.py:1565-1623 | Over every run an account is in the pool at its end if and only if no deletion, no update to the limited state and no reported exhaustion under automatic removal reached it |
| `AccountRecords.UseRevivesIff` | services/account_service.py:1756-1766 | When a consumed result makes an account usable that was not: if and only if it was limited, or was of another status without quota and its quota is unknown by the use |
| `AccountRecords.UnusableStaysOut` | services/account_service.py:212-227 | Over every run an account that cannot be handed out stays out until an update, an import, a response that carries a status, or such a use |
| `AccountRecords.ResultsAreCounted` | services/account_service.py:1710-1784 | Over every run without rewrites the success count grows by the successes charged to the account, and the failure count by the failures that concern it |
| `AccountRecords.QuotaIsSpent` | services/account_service.py:1756-1762 | Over every run that leaves the account to its results a known quota goes down by one with each use, never below zero, and becomes unknown with the use that empties it |
| `CheckQueue.QueueInvariantInEveryRun` | services/account_service.py:1811-1879 | In every run: the pending set is the deque, the deque has no duplicates, at most two checks are active, none is both, and all queued tokens are resolved |
| `CheckQueue.NoAccountPendingAndActive` | services/account_service.py:1811-1879 | No account is pending and active at once, under whatever tokens the two entries were made |
| `CheckQueue.RotationKeepsQueueIff` | services/account_service.py:703-725 | A rotation keeps the queue invariant if and only if its two tokens do not meet in the queue |
| `CheckQueue.ReimportKeepsQueueIff` | services/account_service.py:1523-1531 | A Firefly re-import keeps it if and only if the old token is not queued |
| `CheckQueue.ForcedRequestIsServed` | services/account_service.py:1832-1834 | A forced request during a check leaves the account pending when that check ends, whatever happens in between, if its token is not rotated |
| `CheckQueue.RoomIsMadeIff` | services/account_service.py:1861-1879 | An event makes room for a further check if and only if it ends a check whose token is still in the active set, or rotates one active token to another; with two active tokens a start does nothing |
| `CheckQueue.CheckFreesItsWorkerIff` | services/account_service.py:1861-1879 | Over every run between start and end of a check, its end makes room if and only if its token was not rotated meanwhile |
| `CheckQueue.StaysFullIff` | services/account_service.py:1850-1879 | A full queue stays full over a run if and only if no event of the run makes room |
| `CheckQueue.FullQueueNeverStarts` | services/account_service.py:1850-1879 | A full queue none of whose workers is left: in every later run in which checks end only after they were started in it and no rotation turns one active token into another, no check is ever started and it stays full |
| `CheckQueue.TwoRotatedChecksFillTheQueue` | services/account_service.py:703-725 | From every freshly loaded pool with two accounts, two checks whose accounts are rotated while they run leave a full queue without workers |
| `CheckQueue.QueueCanStop` | services/account_service.py:1850-1879 | A concrete pool and run after which the queue is full and both workers are gone |
| `CheckTiming.ChecksStartInTurn` | services/account_service.py:1850-1860 | Checks start in the order in which they were queued: over every run an entry with k others before it stays queued until it starts, and at most k other checks start before it |
| `CheckTiming.RecentCheckIsNotRepeated` | services/account_service.py:1818-1844 | Whatever happens after the start of a check, an unforced request for the account within thirty seconds, under any name and through rotations, queues nothing |
| `CheckTiming.IdleAccountIsQueued` | services/account_service.py:1835-1846 | Over every run a request for an account that is neither pending nor running queues it last, if it is forced or no check of the account was started in the last thirty seconds, and the clock has run as long |
| `RefreshFlights.FlightsInEveryRun` | services/account_service.py:797-838 | In every interleaving each owner has its flight in the table, each flight has an owner that is under way, and the request lock has at most one holder, which is under way |
| `RefreshFlights.SingleFlight` | services/account_service.py:797-838 | At most one refresh is in flight per credential pair, and at most one request is out |
| `RefreshFlights.NoDeadlock` | services/account_service.py:797-838 | In every interleaving, as long as any call is under way some caller can move: no flight without an owner is waited for, and the request lock is not left behind |
| `RefreshFlights.MovesRunOut` | services/account_service.py:797-838 | Every move of a caller lowers the number of moves that are left, and nothing but a new call raises it; with the absence of deadlock every call ends |
| `RefreshFlights.KeysWereRead` | services/account_service.py:781-803 | In every run the pool stays well formed, and the pair each caller refreshes is one it read off an account that carried it then |
| `RefreshFlights.ResponseIsInstalledIff` | services/account_service.py:654-672 | Over all interleavings: a response is installed if and only if the pair read earlier is current at that moment and its access token is no other account |
| `RefreshFlights.ApplyTouchesOneAccount` | services/account_service.py:644-735 | Installing tokens leaves every other account record alone |
| `RefreshFlights.LaterCredentialsSurviveIff` | services/account_service.py:742-779 | Over all interleavings: an account that carries another pair by the time a response is handled keeps its record if and only if the response is not a terminal failure whose access token now resolves to it (and finds it unmarked) |
| `RefreshFlights.StaleResponseChangesNothingIff` | services/account_service.py:742-779 | Over all interleavings: a response whose pair is no longer current changes nothing in the pool if and only if it is not a terminal failure whose access token still resolves to an (unmarked) account |
| `RefreshFlights.RemovalTakesOneAccount` | services/account_service.py:1177-1200 | The deletion after a terminal failure takes the account that the access token resolves to by then, whatever pair it carries, and no other |
| `RefreshFlights.StaleFailureMarksNewCredentials` | services/account_service.py:752-762 | From every fresh service, a run in which the old refresh token is answered dead after new credentials came in ends with these credentials marked, and next deleted if so configured |
| `SelectionService.GetAvailableAccessToken` | services/account_service.py:1047-1122 | At most twenty attempts on distinct tokens outside the excluded ones. Returns holding one slot more, that of its last attempt, or raises holding none more. The returned token is the live token of the account of that slot if and only if the check of that attempt, which begins when the slot is taken, does not find the refresh credential dead while invalid accounts are removed. It gives up before twenty attempts only when no account is ready besides the tried ones, and still waits only while every ready account is busy. After attempts, quota exhaustion is reported if and only if the deciding answer of every attempt is a limited account |
| `ImageSelection.SelectionPromises` | services/account_service.py:1047-1122 | The same over every start state and every world of answers and other callers, for the selection as a function of both; Firefly accounts are delivered without a check |
| `ImageSelection.DeliveredIff` | services/account_service.py:1081-1108 | When the returned token is delivered, in terms of the world: always without automatic removal or without a dead answer at the four refresh requests that the last check can make; never with the removal, nothing but dead answers there and a refresh due for an account with a refresh token; and if the first query does not find the token rejected, exactly unless that is so |
| `ImageSelection.UndeliveredHasNoSlot` | services/account_service.py:1105-1108 | A choice that is not delivered: the caller holds its lease, the returned token resolves to no account and has no counter |
| `ImageSelection.DeadRefreshLosesTheSlot` | services/account_service.py:1047-1122 | In every state with a free slot on an account with a refresh token there is a run of the selection that returns such a token: without other callers, with a dead refresh answer, a positive account answer and automatic removal |
| `SelectionService.TryOne` | services/account_service.py:1077-1117 | One attempt: a slot on a new candidate, held afterwards if and only if the deciding answer makes the account usable; or none, exactly as waiting ends without one |
| `SelectionService.CheckTaken` | services/account_service.py:1089-1117 | The check of a taken slot: the slot is kept if and only if the deciding answer is a usable account; the token returned then names it, and is delivered if and only if the credential is not found dead under automatic removal |
| `SelectionService.AcquireSlot` | services/account_service.py:938-955 | Waiting for a slot ends with a slot on a candidate, or with the reported cause when no account is ready, or goes on because every ready account is at its limit |
| `ImageSelection.WaitingIsWaited` | services/account_service.py:938-955 | The same for waiting of any length, whatever other callers do between its passes |
| `SelectionService.RefreshAccessToken` | services/account_service.py:781-838 | A refresh in at most two attempts: the token it returns is a name of the lease; it reports a dead credential if and only if one of its requests is answered so, and then automatic removal takes the account of the lease, which otherwise survives |
| `ImageCheck.RefreshingDiesIff` | services/account_service.py:742-838 | A refresh finds the credential dead if and only if it is sent and answered so, or is answered with tokens for a pair that is not current any more and the request made again is answered so |
| `SelectionService.ProbeRemote` | services/account_service.py:1917-1950 | The query that decides is the first one, or the second when the first found the token rejected; an account is reported if and only if it was answered with one |
| `SelectionService.FetchRemoteInfo` | services/account_service.py:1894-1963 | Reports an account if and only if the deciding query was answered with one, and then that record; it is the record of the lease unless the check itself removed the account; the credential was found dead if and only if a refresh request of the check was answered so |
| `ImageCheck.FetchingDiesIff` | services/account_service.py:1894-1963 | A check that reports an account has found its credential dead if and only if its opportunistic refresh does, or the forced one after a rejected token |
| `ImageCheck.FindsDeadForeseen` | services/account_service.py:781-838 | Without dead answers at its four refresh requests a check finds none; with nothing but dead answers there the opportunistic refresh finds one if and only if it is due for an account with a refresh token |
| `SelectionService.MarkInvalid` | services/account_service.py:1673-1708 | Marks the account that the token resolves to, if there is one, and changes nothing else |
| `SelectionService.HandleInvalidToken` | services/account_service.py:1177-1200 | Without automatic removal it marks the account and does no more; with it the account of the lease is gone afterwards |
| `CallerView.PoliteRunKeeps` | services/account_service.py:938-955 | Whatever lock regions other callers run, with new tokens for imports and rotations: a caller keeps its leases and their names, a gone account does not come back under them, and one that nobody deletes stays |
| `ImageSelection.NoReadyErrorMeaning` | services/account_service.py:957-998 | Before any attempt quota exhaustion is reported if and only if some account passes the filters and all that do are limited |
| `PoolHealth.ComputeMetrics` | services/account_service.py:1284-1336 | The metrics are the counts and sums they stand for; confirmed and unconfirmed add up to estimated; current quota is at most estimated quota |
| `PoolHealth.StaleSorted` | services/account_service.py:1338-1368 | The stale tokens come oldest confirmation first |
| `PoolHealth.RoundStrictlyShrinksStale` | services/account_service.py:1396-1436 | Inside the window every round strictly decreases the number of stale accounts |
| `PoolHealth.RoundShrinksUntried` | services/account_service.py:1396-1436 | A round tries at least one account that was not tried since the evaluation began |
| `PoolHealth.EvaluateAccountPool` | services/account_service.py:1384-1436 | Watched for any number of rounds, the loop stops at the first one that finds a target reached, by at least one confirmed account or unit of quota, or nothing due, with the metrics of that moment; if as many rounds as there are untried accounts fit in the window, it stops by then |
| `PoolHealth.FailingPoolEndsIff` | services/account_service.py:1396-1436 | When every check of a stale pool fails, in rounds of equal length and with no target, the evaluation ends if and only if the batches of ten are all tried before the accounts of the first one are stale again |
| `PoolChecks.AskedAreDue` | services/account_service.py:1338-1368 | A round asks only about normal accounts with a token that were neither confirmed nor tried within the window; a time in the future does not count |
| `PoolChecks.LongestWaitingAreAsked` | services/account_service.py:1432-1435 | When an account that is due is not asked about, ten others are, each of which waited at least as long for a confirmation |
| `PoolChecks.NotDueIsLeftAlone` | services/account_service.py:1396-1436 | A round leaves every account that is not due as it was |
| `PoolChecks.RoundTells` | services/account_service.py:1396-1436 | After a round every account is as it was, or as the outcome of its check says: an answer confirms it for the window, an invalid account is out of use, a failed check tells nothing but is not repeated in the window |
| `PoolChecks.AskedAreTold` | services/account_service.py:1396-1436 | Every account asked about is there afterwards as its outcome says, unless it was found gone |
| `UsageLedger.SumLedgerCredits` | services/channel_reconcile_service.py:42-104 | The three loops compute the ledger total of the account and channel |
| `UsageLedger.DetailsAddUp` | services/channel_reconcile_service.py:88-104 | A ledger without aggregates totals the credits of exactly the rows of the account, of the channel in any case, and of an action other than circuit, whatever the result |
| `UsageLedger.RefundCancels` | services/channel_reconcile_service.py:48-104 | A detail and its refund of the opposite amount leave the total as it was |
| `UsageLedger.DayGroupsExact` | services/storage/base.py:109-178 | The groups of a day are exactly those of its detail rows |
| `UsageLedger.TraceIdInjective` | services/channel_usage_service.py:213-235 | The trace id determines day and group when channel, action and result have no colon, whatever the account id |
| `UsageLedger.TraceIdsCollideIff` | services/channel_usage_service.py:213-235 | Two groups of a day, action and result share a trace id if and only if they are the same, or the channel of one goes on with a colon where the account of the other begins with that rest |
| `UsageLedger.TraceFindsAggregate` | services/channel_usage_service.py:518-538 | The existence check by trace id finds exactly the aggregate row of the day and group |
| `UsageLedger.AppendKeepsTotalIff` | services/channel_usage_service.py:212-249 | Appending an aggregate row of a group that is not covered keeps the total if and only if the credits of that day under all spellings of the channel add up to those under its own spelling |
| `UsageLedger.AppendKeepsTotals` | services/channel_usage_service.py:212-249 | In a well-formed ledger, appending a missing aggregate row changes the total of no account and channel |
| `UsageLedger.PruneKeepsTotals` | services/channel_usage_service.py:121-138 | Pruning keeps every total when each pruned detail has its aggregate row |
| `UsageLedger.ResumedPassIsTheSame` | services/channel_usage_service.py:200-250 | Writing the rows of a pass again after any part of it was written ends with the same rows |
| `UsageLedger.SameDetailsSamePass` | services/storage/base.py:109-178 | The rows a pass calls for depend on the detail rows only |
| `RetentionPass.FindOldestDetail` | services/channel_usage_service.py:488-516 | The oldest detail before the cutoff, or none if there is none |
| `RetentionPass.PrunedDaysAreAggregated` | services/channel_usage_service.py:176-206 | The day of every pruned detail lies in the aggregated range |
| `RetentionPass.PassReplacesDetails` | services/channel_usage_service.py:200-250 | After the days of a pass every old detail has its aggregate row |
| `RetentionPass.StoppedKeepsTotals` | services/channel_usage_service.py:200-250 | Stopping after any append leaves every total as it was |
| `RetentionPass.CompletedKeepsTotals` | services/channel_usage_service.py:159-255 | A completed pass, prune included, leaves every total as it was |
| `RetentionPass.PassKeepsLedger` | services/channel_usage_service.py:159-255 | Stopped at any step or completed, a pass leaves the ledger well formed and every total as it was |
| `RetentionPass.CompletedHasOneAggregate` | services/channel_usage_service.py:159-255 | Afterwards each pruned detail has exactly one aggregate row of its day, channel, account, action and result |
| `RetentionPass.RerunEndsTheSame` | services/channel_usage_service.py:159-255 | A pass stopped anywhere and run again, on the same or a later day, ends with the rows of one uninterrupted pass |
| `RetentionPass.CompletedTwice` | services/channel_usage_service.py:159-255 | Running a completed pass again changes nothing |
| `RetentionPass.LateDetailCountsIff` | services/channel_reconcile_service.py:88-104 | A detail that arrives late counts in full if and only if its day and group are not aggregated (or it carries no credits) |
| `UsageService.AggregateDaily` | services/storage/base.py:109-178 | The aggregation loop yields the groups of the day in key order with their counts and credits |
| `UsageService.AggregateIsStored` | services/storage/channel_usage.py:33-89 | Aggregate rows of a well-formed ledger pass normalisation unchanged |
| `UsageService.DetailKeepsLedgerOkIff` | services/channel_usage_service.py:40-92 | A stored detail keeps a well-formed ledger well formed if and only if its channel is lower-case without a colon and its trace id does not look like that of an aggregate |
| `UsageService.TotalsInEveryRun` | services/channel_usage_service.py:159-255 | Over every run of recordings and passes, completed or stopped anywhere, each total grows by the credits, written out on the raw rows, of the billed details recorded on days and groups not aggregated by then |
| `UsageService.BilledIffCounted` | services/storage/channel_usage.py:33-89 | A raw row counts if and only if it has a trace, an account, a channel and known values of action and result, the action being none of the circuit breaker |
| `UsageService.Ledger.Append` | services/channel_usage_service.py:40-92 | Appends the normalised row, or nothing when a required field is missing or unknown; a well-formed ledger stays so if and only if the detail is not written or is fit for aggregation |
| `UsageService.Ledger.PruneBefore` | services/channel_usage_service.py:121-138 | Deletes exactly the details before the time and reports how many |
| `UsageService.Ledger.WriteDay` | services/channel_usage_service.py:207-250 | Writes the missing aggregate rows of a day, up to the point where the process stops |
| `UsageService.Ledger.WriteDays` | services/channel_usage_service.py:200-250 | Writes the days in order, up to the point where the process stops |
| `UsageService.Ledger.Perform` | services/channel_usage_service.py:40-255 | Any sequence of recordings and passes on the object performs the run of the model |
| `UsageService.Ledger.RunRetention` | services/channel_usage_service.py:159-255 | The maintenance pass on any stored rows, stopped at any step: the ledger it leaves, and in a well-formed ledger every total unchanged |
| `LogLines.LineCount` | services/log_service.py:211-232 | Counting line breaks in blocks gives the number of lines |
| `LogLines.SplitFront` | services/log_service.py:275-277 | Splitting a block in front of a cut part completes that part and leaves the later ones |
| `LogLines.IterRawLinesReverse` | services/log_service.py:260-294 | For every content and block size: the lines last first, with their numbers, one trailing carriage return removed |
| `LogLines.IterRecentRawLines` | services/log_service.py:296-327 | The same lines in the same order, at most the number asked for; an empty first line is left out |
| `LogRecords.ParsedBackwards` | services/log_service.py:329-333 | Parsing the backwards reader gives the records of the file, newest first |
| `LogRecords.ParsedRecent` | services/log_service.py:335-339 | The recent-lines reader gives the same records |
| `LogRecords.RecordsOfKept` | services/log_service.py:579-600 | The rewritten lines parse to the records that were not dropped, with the ids they had |
| `LogRecords.LinesOfFile` | services/log_service.py:596-599 | Reading a rewritten file gives back its lines, but for a single empty one |
| `LogRecords.TranslatedLines` | services/log_service.py:584-586 | The lines that the rewrite reads are those of the reader without their carriage returns |
| `LogRecords.RewriteKeepsListing` | services/log_service.py:579-600 | A rewrite removes exactly the dropped records from the listing; order and ids stay, also ids made from line numbers |
| `LogRecords.AppendedIsListedFirst` | services/log_service.py:471-485 | An added entry comes first and changes nothing behind it |
| `LogService.PagesTile` | services/log_service.py:436-437 | Successive pages concatenate to the list |
| `LogService.Collect` | services/log_service.py:425-437 | The fast scan that stops early decides the page and whether there is more |
| `LogService.LogService.ListPageFast` | services/log_service.py:424-469 | The fast page is the page of the whole filtered list; with a type filter has_more is exact |
| `LogService.LogService.ListPageFull` | services/log_service.py:528-577 | The full scan gives the page, the total and an exact has_more |
| `LogService.LogService.ListPage` | services/log_service.py:499-577 | Either way the page is the same slice of the filtered listing |
| `LogService.PageShows` | services/log_service.py:499-516 | An entry of the listing that is asked for is on the page if and only if the number of those before it lies between the offset and the end of the page, which has 1 to 20000 entries and 200 by default; that number says where |
| `LogService.PageIsFull` | services/log_service.py:514-516 | The length of a page leaves no room for anything else, and there are more entries if and only if more are asked for than the page reaches |
| `LogService.UnfilteredHasMoreIff` | services/log_service.py:377-378 | Without a filter has_more is right for every page if and only if every line parses |
| `LogService.LogService.Add` | services/log_service.py:471-485 | The listing grows by the entry at its front |
| `LogService.LogService.Delete` | services/log_service.py:579-600 | The listing loses exactly the entries with the given ids, an empty id naming none; the count is reported |
| `LogService.LogService.CleanupOld` | services/log_service.py:602-627 | The listing loses exactly the entries older than the days of the retention, one day at least; nothing is written when there are none |
| `ImageFailure.PlacesAreAlphabetical` | services/image_failure.py:515-517 | The order used to break ties is the alphabetical order of the code names |
| `ImageFailure.SelectCode` | services/image_failure.py:515-517 | The maximum by priority and name is found, and there is only one |
| `ImageFailure.ClassifiedCodes` | services/image_failure.py:490-519 | Nothing is classified if and only if no code is known; a throttled upload or an insufficient quota is never the result; an auth code always wins |
| `ImageFailure.StructuredCodes` | services/image_failure.py:421-443 | The worklist ends and finds exactly the codes under the code keys, at any depth |
| `ImageFailure.StructuredCodeIs` | services/image_failure.py:490-519 | Which code the words of a payload give, written out by rank: an invalid credential, then a quota, then a limit, then the others by priority and name |
| `ImageFailure.ScopesOfCodes` | services/image_failure.py:69-138 | Whose fault each failure is: the account, the request, the delivery, the service or nobody |
| `ImageFailure.StatusesOfCodes` | services/image_failure.py:69-138 | The status that reports each failure, and the error type that goes with it |
| `ImageFailure.CapabilitiesOfCodes` | services/image_failure.py:69-138 | Which failures may be tried again at once, and which capability failed |
| `ImageFailure.AliasesOfCodes` | services/image_failure.py:140-155 | Which other upstream names stand for a code |
| `ImageFailure.RealStatusDecides` | services/image_failure.py:522-619 | The outcome is text if and only if the real status is 400; the status is kept, but 408 of an account becomes 504 |
| `ImageFailure.RetryAfterIsKeptIff` | services/image_failure.py:538-549 | The retry advice is lost if and only if a 400 names no reason that is itself a 400 |
| `ImageFailure.HttpPolicyIs` | services/image_failure.py:522-619 | A classified HTTP error carries the policy of its code but for the real status, and a failure of a signed asset is one of delivery |
| `ImageFailure.AuthIsBlamedIff` | services/image_failure.py:588-589 | Credentials are blamed for a 401 of an account and for nothing else |
| `ImageFailure.UploadIsThrottledIff` | services/image_failure.py:590-599 | An upload is throttled by a 429 of an account and by nothing else |
| `ImageFailure.QuotaIsBlamedIff` | services/image_failure.py:590-601 | A quota is exhausted if and only if a 429 of an account outside uploads says so in its payload |
| `ImageFailure.PolicyIsBlamedIff` | services/image_failure.py:538-549 | The content policy is violated if and only if a 400 says so in its payload |
| `ImageFailure.InputIsBlamedIff` | services/image_failure.py:538-549 | The input is blamed for a 400 that names it or no other bad request |
| `ImageFailure.DownloadFailsIff` | services/image_failure.py:551-556 | A download fails if a signed asset is refused, but for a bad request, or an account says so |
| `ImageFailure.RateIsLimitedIff` | services/image_failure.py:551-608 | Every other 429 is a rate limit |
| `ImageFailure.PlainHttpCodeIs` | services/image_failure.py:551-620 | The code of every other HTTP error, by its status |
| `ConversationFailure.LimitStatusIsClassifiedEarlier` | services/image_failure.py:1014-1062 | A rate-limit status is always classified as a code, so the last branch never reports one |
| `ConversationFailure.MessageClassifies` | services/image_failure.py:724-775 | A message classifies if and only if it is blocked, names a code, reports a tool error or a failed response, is a finished text or is marked as failed; a block outranks the codes of its own message, codes outrank the rest, then come tool errors, texts and marks |
| `ConversationFailure.CodedMessageIs` | services/image_failure.py:1014-1062 | A message that names codes is classified by the highest of them |
| `ConversationFailure.MessageDetail` | services/image_failure.py:724-775 | A classified message carries the policy of its code, no retry advice, the raw text it was read from, and as public text a final reply or the error of a failed response |
| `ConversationFailure.TurnIsSaid` | services/image_failure.py:884-892 | What the messages of a turn say of its failure: an invalid credential decides; without known codes a block comes first, then a tool error or failed response, then a final text, then a mark; a blocked turn is a policy violation unless one of its messages gives a code that comes before |
| `ConversationFailure.MergedCode` | services/image_failure.py:776-795 | The merge has the code of the first failure of the highest priority, or none if there is none |
| `ConversationFailure.MergedDetail` | services/image_failure.py:790-794 | The merge carries detail if and only if some failure does |
| `ConversationFailure.MergedIsLatest` | services/image_failure.py:784-794 | Apart from borrowed details the merge is the last failure of its code, with its own details if it has any |
| `ConversationFailure.WalkUp` | services/image_failure.py:832-844 | The loop up the parents ends on every graph, cyclic or not, with the messages of the walk that stops only at the root, a missing node or a repetition |
| `ConversationFailure.WalkIsUnique` | services/image_failure.py:832-844 | There is only one such walk |
| `ConversationFailure.CurrentTurn` | services/image_failure.py:826-865 | The turn is what follows the last user message of the thread |
| `ConversationFailure.CurrentTurnIsUnique` | services/image_failure.py:826-865 | Every conversation has one current turn, and it holds no user message |
| `ConversationFailure.ClassifyConversation` | services/image_failure.py:884-892 | None if and only if the turn has image output or no message classifies; otherwise the code of the earliest message of maximal priority, with raw detail if and only if some message has any, and as TurnSays has it of the kinds of the messages |
| `ImagePolling.AddUniqueGrows` | services/openai_backend_api.py:2631-2635 | Ids are only added at the end, each once, and exactly the candidates are added |
| `ImagePolling.PollEnds` | services/openai_backend_api.py:2885-2976 | Every run ends as its script says: it raises if and only if the last attempt is an error other than a busy server or the network; a policy violation or a text reply if and only if the last document says so while no id was given or read; it returns if and only if the last document confirms or the time is used up; and every earlier attempt leaves the poll open |
| `ImagePolling.PollsAreSpaced` | services/openai_backend_api.py:2833-2976 | Unless a server advises to come back at once, two attempts are at least half a second apart, so the timeout bounds their number |
| `ImagePolling.BusyRoundWaits` | services/openai_backend_api.py:2833-2855 | A round that meets a busy server or no network sleeps exactly as advised, or for the back-off of the attempt, with its jitter, or for the time that is left |
| `ImagePolling.QuietRoundWaits` | services/openai_backend_api.py:2978-2981 | A document without ids is asked for again after the interval, or the time that is left |
| `ImagePolling.FirstSleepIsKept` | services/openai_backend_api.py:2798-2831 | The first sleep is the settle time when ids were given, the initial wait with its jitter otherwise, or all the time there is |
| `ImagePolling.RunKeeps` | services/openai_backend_api.py:2798-2981 | In every run ids never shrink or repeat and the sleeps asked for never exceed the timeout |
| `ImagePolling.RunCollects` | services/openai_backend_api.py:2906-2912 | The file ids and the sediment ids at the end are those given and those of the documents read |
| `ImagePolling.ReturnIsConfirmed` | services/openai_backend_api.py:2952-2976 | With both confirmation settings on, a return means the last poll succeeded and added nothing to non-empty lists, or the budget was spent |
| `ImagePolling.TimeoutMeansSpent` | services/openai_backend_api.py:2861-3010 | A timeout is raised only when the budget is spent |
| `ImagePolling.AttemptsAreBounded` | services/openai_backend_api.py:2861-2981 | Attempts of a least duration are bounded by the timeout |
| `ImagePolling.LateHitIsReturnedIff` | services/openai_backend_api.py:2958-2976 | A hit that still has to settle is returned by some continuation if and only if more time is left than the settle sleep takes; otherwise the run times out whatever follows |
| `ImagePolling.PollImageResults` | services/openai_backend_api.py:2780-3010 | The loop performs the run of its rounds, and ends as the script says: every clause of EveryPoll holds of it |
| `ImagePolling.RetryHonoursAdvice` | services/openai_backend_api.py:2833-2855 | A retry sleeps for at most the remaining time, and unless that is shorter for at least as long as advised and half a second more at most; without time left the run times out |
| `ImagePolling.LongerWaits` | services/openai_backend_api.py:2833-2855 | Without advice the wait starts at a second, doubles with each attempt and stays at sixteen |
| `ImagePolling.EveryPoll` | services/openai_backend_api.py:2780-3010 | Every run from the first sleep on: sleeps within the timeout, exactly the ids given or read, the outcome that the script alone decides, timeouts only with the budget spent, attempts bounded by their duration and by half a second between them |
| `ImageTasks.TasksInEveryRun` | services/image_task_service.py:198-220 | In every run, restarts included: one worker for every unfinished task and none besides; only failed tasks carry failure details; the file is up to date |
| `ImageTasks.StepKeepsTasks` | services/image_task_service.py:296-343 | Every operation keeps that invariant |
| `ImageTasks.OnlyResumeLeavesError` | services/image_task_service.py:622-657 | Over every step, restarts included, a kept task leaves error only by a resumed poll with a stored poll timeout and a conversation id |
| `ImageTasks.ResumableIff` | services/image_task_service.py:433-454 | In every run a poll can be resumed if and only if its timeout was reported while the conversation was known, and since then the task was neither resumed nor cleaned up nor read back after a restart |
| `ImageTasks.TaskIsLastSaid` | services/image_task_service.py:296-528 | In every run, restarts included, status, error text and time of a task are those of the last word about it: its submission, its worker, its resumed poll, or the restart that found it unfinished |
| `ImageTasks.FailedTask` | services/image_task_service.py:433-442 | A reported failure stores its error text, the conversation if it is given, and exactly the details that are known and not blank |
| `ImageTasks.InterruptedTask` | services/image_task_service.py:584-605 | A restart that finds a task unfinished stores exactly the details of the interruption |
| `ImageTasks.OnlyFinishedTasksAreRemoved` | services/image_task_service.py:607-620 | Submissions, listings and restarts are the only steps that remove a task, and only a finished one past its retention |
| `ImageTasks.ResubmissionStartsNothing` | services/image_task_service.py:311-320 | Resubmitting a kept task changes neither the task nor the workers |
| `ImageTasks.AfterRestart` | services/image_task_service.py:530-605 | After a restart from any file nothing is unfinished, and no poll can be resumed, since the conversation id is not loaded |
| `ImageTasks.RestartKeepsIff` | services/image_task_service.py:530-620 | A restart keeps a task if and only if it had not finished too long ago; an unfinished one has become a failure |
| `ImageTasks.KeyIsInjective` | services/image_task_service.py:146-147 | Keys tell tasks apart when owner ids have no colon |
| `ImageTasks.OwnersCollideIff` | services/image_task_service.py:146-147 | Tasks of two owners share a key if and only if one owner id is the other with a colon and a beginning of the other task id behind it |
| `ImageTaskService.Patch` | services/image_task_service.py:516-528 | The field loop sets details and removes blank ones |
| `ImageTaskService.ImageTaskService.Update` | services/image_task_service.py:516-528 | The task changes in the given fields only, and the table is saved |
| `ImageTaskService.ImageTaskService.Submit` | services/image_task_service.py:296-343 | A new task and its one worker, unless the key is still kept |
| `ImageTaskService.ImageTaskService.Report` | services/image_task_service.py:366-371 | The first update of a worker, and its progress |
| `ImageTaskService.ImageTaskService.Finish` | services/image_task_service.py:411-419 | Success clears every failure detail and ends the worker |
| `ImageTaskService.ImageTaskService.GiveUp` | services/image_task_service.py:433-442 | Failure stores the details and ends the worker |
| `ImageTaskService.ImageTaskService.ResumePoll` | services/image_task_service.py:622-657 | A poll is resumed if and only if the task failed with a poll timeout and has a conversation id |
| `ImageTaskService.ImageTaskService.Recover` | services/image_task_service.py:584-605 | Unfinished tasks become interrupted failures; no other task changes |
| `ImageTaskService.ImageTaskService.Cleanup` | services/image_task_service.py:607-620 | Removes exactly the finished tasks that are too old |
| `ImageTaskService.ImageTaskService.Load` | services/image_task_service.py:530-578 | Reads the tasks that have an id and an owner |
| `ImageTaskService.ImageTaskService.StartUp` | services/image_task_service.py:198-220 | Loads, recovers and cleans up: afterwards nothing is unfinished |
| `FireflyConfig.FilledExactly` | services/config.py:498-510 | After the loop each name has its nested value, else the flat one |
| `FireflyConfig.MigrationKeepsMeaning` | services/config.py:482-526 | Migration changes no effective value, with or without dropping the flat keys |
| `FireflyConfig.MigrationTwice` | services/config.py:482-526 | Migrating twice is migrating once, and dropping later is dropping at once |
| `FireflyConfig.MigrationKeepsOthers` | services/config.py:498-526 | Migration touches no other channel, no name of the namespace without a flat key and no other setting |
| `FireflyConfig.Migrate` | services/config.py:482-526 | The migration reports a change if and only if it made one |
| `FireflyConfig.UpdateReads` | services/config.py:1115-1151 | After an update each submitted flat key reads back as submitted, any other as in the merged settings |
| `FireflyConfig.UpdateLeavesOthers` | services/config.py:1115-1151 | An update without channels leaves the other keys as they were |
| `FireflyConfig.UpdateKeepsOthers` | services/config.py:1115-1151 | An update writes what it was given and nothing else: other settings, other channels and other names read as submitted or as stored |
| `FireflyConfig.UnreadableStays` | services/config.py:529-540 | Channels or a namespace that are no object stay as they are when there is no flat key |
| `FireflyConfig.ConfigStore.Overlay` | services/config.py:529-546 | The submitted flat keys are written over the namespace, in any order |
| `FireflyConfig.ConfigStore.Update` | services/config.py:1115-1151 | The settings become the merged, synchronised and migrated ones |
| `DashboardMetrics.AppliedAdds` | services/dashboard_metrics_service.py:156-197 | A call adds its own share to every counter of a bucket, whatever the bucket holds |
| `DashboardMetrics.OneOutcome` | services/dashboard_metrics_service.py:170-180 | A call is a success, a failure or a text review, and a rate limit only as a failure |
| `DashboardMetrics.MergedAdds` | services/dashboard_metrics_service.py:107-118 | Merging adds every counter but the text reviews |
| `DashboardMetrics.DaysEqualHoursInEveryRun` | services/dashboard_metrics_service.py:199-238 | In every run of records, backfills and prunes on a consistent file each day counter is the sum over its hours, total is success plus failed plus text reviews, rate limits are failures |
| `DashboardMetrics.SummaryIsHourSum` | services/dashboard_metrics_service.py:259-269 | Summary totals are the sums over the covered hours, for days and for single hours |
| `DashboardMetrics.SummaryOutcomes` | services/dashboard_metrics_service.py:259-269 | What is missing between total, success and failed in a summary is the number of text reviews |
| `DashboardMetrics.EveryCallCounts` | services/dashboard_metrics_service.py:199-238 | As long as no prune drops its day, every call of a run counts exactly once in its day and in its hour |
| `DashboardMetrics.CallsCountExactly` | services/dashboard_metrics_service.py:142-238 | Over every run on any file a counter of a day or an hour is the sum of the shares of exactly those calls whose day is in the window of every later prune, and of what the file held at first if that survived every prune; a call recorded before its day has begun is lost to a prune before that day |
| `DashboardMetrics.SummaryCountsCalls` | services/dashboard_metrics_service.py:240-269 | Over every run from an empty file the totals of a summary, of 24 hours, 7 or 30 days, are the sums of the shares of the calls in the covered hours or days that survived every prune after them |
| `DashboardMetrics.SummaryShowsRecentCalls` | services/dashboard_metrics_service.py:240-269 | From an empty file, over every run whose clock does not go back, each field of a summary counts the calls of the last 24 hours, 7 or 30 days with the current one that meet its condition, each once, and no prune loses any of them |
| `DashboardMetrics.Prune` | services/dashboard_metrics_service.py:142-153 | Keeps exactly the last thirty days with today |
| `DashboardMetrics.DashboardMetrics.RecordCall` | services/dashboard_metrics_service.py:199-214 | Prunes, then counts the call in its day and hour |
| `DashboardMetrics.DashboardMetrics.BackfillIfEmpty` | services/dashboard_metrics_service.py:216-238 | Fills an empty file oldest first, and prunes |
| `DashboardMetrics.DashboardMetrics.Summary` | services/dashboard_metrics_service.py:240-269 | The totals of the last 24 hours, 7 days or 30 days, and what they leave out |

## Left out

- SlotsInEveryRun: this theorem is about runs in which imports and rotations use tokens that no name of an outstanding lease passes through and no Firefly account with a counter is re-imported; the three lemmas ending in Iff say what happens otherwise. A holder settles under a name it was given, and is given only names that stand for its account at that moment.
- RoundRobin: nothing else runs between the acquisitions and no free account reaches its limit; every acquisition on its own is the subject of TakenIsFree.
- RecentCheckIsNotRepeated: the account is not re-imported under another token meanwhile, which leaves the start time with the old token.
- GetAvailableAccessToken: other callers neither delete the account under check nor touch this caller's leases, and import or rotate to new tokens only; without that the returned token may have no slot.
- AcquireSlot: the program waits for a slot without end; here it makes a given number of passes, and a caller that is still waiting is a result of its own.
- EvaluateAccountPool: nothing else runs meanwhile; the loop has no end of its own and is watched for a given number of rounds. Accounts whose token rotates keep their place.
- FailingPoolEndsIff: rounds of equal length, each check failing at the same offset, and a pool that is stale altogether at first; for rounds of changing length neither bound alone is exact.
- HandleInvalidToken: counters and times of failures are not fields of an account here, nor is the error that a failed refresh leaves on the record.
- TotalsInEveryRun: details with a lower-case channel without a colon; for ledgers with other channels only the single append has its exact condition.
- RunRetention: storage calls succeed or the process stops; a swallowed storage error, after which the pass still prunes, is not modelled.
- Append: surrounding white space is not stripped, and the cap of the JSON backend on the number of rows is not modelled.
- AggregateDaily: credits only; the quota column is summed in the same way.
- LogLines: bytes are characters; decoding is not modelled, nor are line breaks other than the line feed, which the rewrite splits at and the reader does not.
- Delete: carriage returns stand only in front of line feeds, as in every file that the service or an editor wrote.
- ListPageFast: the total of a type-filtered page, which the code guesses from the heads of the lines, and the facets and statistics of pages.
- StructuredCodes: payloads are trees, so the guard against shared and cyclic objects has nothing to do.
- ClassifyConversation: codes, roles and statuses are given as what they stand for after stripping and lower-casing, and a message is given by the facts that are read from it and from the event around it; the search for an image pointer is one of them.
- CurrentTurn: the order of messages by time, used when the current node is missing, is given.
- PollImageResults: the task probes and the snapshots for logging, which do not change the outcome; time passes as the script of attempts says.
- RerunEndsTheSame: no detail of an aggregated day is added between the two passes; such a detail is the subject of LateDetailCountsIff.
- SummaryShowsRecentCalls: the file is empty at first; what an older file adds is the subject of CallsCountExactly.
- UpdateReads: the normalisation of other settings, and the environment variables that take precedence over the file.
- Overlay: nested settings are values, so that the stored object is changed in place before the file is saved is not captured.
- ImageTasks: progress, duration, data and usage fields, and a thread that fails to start.
- ScheduleCheck: the thread pool that runs a check, and its failure to start a thread.
- Accounts carry the fields that the lock regions read or write; JWT decoding, time parsing, redaction, notifications and logging are left out, and a freshly decoded expiry is an input.
- The drift and remaining-credit estimates of reconciliation, which are single expressions.
- Network and process calls, the HTTP routers, the realtime monitor, other storage backends, backup, image delivery and model catalogues.

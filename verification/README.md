# Verified model of the assistant daemon's journals, trimmers and schedulers

This project models, in Dafny 4.11, the parts of the daemon whose guarantees rest on arguments across several
functions, across `await` points or across restarts, and proves those guarantees. Each module follows one source
component (two share the same tail lock):

- `CyclicWords`, `CanonicalCycle`: the name of an app loop, up to rotation and repetition.
- `IntervalSelection`, `ActivityPatterns`: which windows of activity count, and how often a pattern occurs.
- `ContextTrim`: keeping the provider tool loop under its input ceiling, in both provider forms.
- `BuiltinSupervisor`, `ReplyReceipts`, `G2Requests`: effects that happen at most once behind claims that expire.
- `SessionArchive`: a transcript rotated into immutable chunks, and its pages.
- `TailLock`, `TokenRefresh`: promise tails per key, and token renewal behind them.
- `BacklogRules`, `BacklogReview`, `BacklogUndo`, `BacklogPass`: the rules that triage the backlog, the model's review
  of what they leave, the writes and their undo, and one pass through all three.
- `ComputerUseLog`, `CreditLedger`: a journal replayed, and a ledger pruned lazily.
- `Cron`: jobs, overlap, lost fires and the marker of a run in progress.
- `Calendar`, `LocalDay`, `Lifelog`: weeks, local days and moments of speech.
- `Sorting`, `InsertionMap`: a stable sort and a map in insertion order, as the host language has them.

How it is built. An object whose methods change fields is a class with those fields; each method's `ensures` equates
the new state with a function of the old one, and the lemmas are about that function. Asynchronous methods are split
where they wait. A protocol is a step function over events (calls, their resumptions, clock readings, failed writes,
process deaths); files are separate from memory; the results are about every run. Every lemma carries
`{:induction false}`: no proof leans on automatic induction.

What the environment does is a parameter: whether a write, a deletion or a spawn succeeds, the clock readings (one
parameter for each time the source reads the clock, where more than one reading matters), the order in which a directory
lists its files, and what a model or a server replies. A digest that serves as an identity is modelled by the value it
digests.

Claims of the source that do not hold as stated, each with an input that shows it and with the condition under which it
does hold:

- At most two coding sessions at once (src/builtin-coding-supervisor.js:236): a restart forgets the processes left
  behind (`ThreeAfterRestart`). A launch is certain to leave at most two exactly when the owned sessions and the
  workspaces with an interrupted row are fewer than two (`SpawnKeepsTwoIff`).
- A reply is sent at most once (src/coding-supervisor.js:386): exactly when no wait for the session list exceeds the
  thirty days that receipts are kept (`LongWaitSendsTwice`, `SentOnceIffWaitBounded`).
- A request from glasses is asked at most once (src/g2-requests.js:15-17): not when the clock passes its expiry within
  its own submission (`StraddleAsksTwice`, `ReadmittedIff`).
- A stub is never longer than what it replaces (src/context-trim.js:28): only for tool names of at most 67 characters
  (`FitMayGrow`, `FitNeverGrows`, `StubSavesIffNameShort`).
- One renewal for one rejected token (src/chatgpt-auth.js:409-412): not when the renewed token has expired, was not
  saved, or is the old one, when a waiting call takes its turn (`SlowTurnRenewsTwice`, `RenewsAgainIff`).
- Untouched backlog rows get their turn (src/backlog-triage.js:398-403): once the passes have done with as many items as
  there are, not counting dismissals that the ceiling on resolutions cuts off; perhaps never if it cuts off all of them
  (`CeilingStarves`, `OneFewerMayMissOne`, `EveryItemIsReviewed`).
- A superseded suggestion points at a live record (src/backlog-triage.js:719-721): unless the same pass retires that
  record, by a later rule or by the model, within the ceiling (`WinnerIsRetired`, `WinnerIsLiveIff`).
- Undo puts every record back exactly as it was (src/backlog-triage.js:993-1000): the status always, the rest only if it
  was empty (`NoteIsNotRestored`, `UndoIsExactIff`).
- Replay rebuilds action outcomes (src/computer-use-log.js:222-236): not a sensitive action that fails and is then
  reported without an error (`FailedThenDone`, `MarkedRebuildsIff`).
- A query of the ledger covers its whole window (src/credit-ledger.js:95-104): exactly when no dropped row is as recent
  as that, which a clock set back can break (`ClockSetBack`, `AnswersInFullIff`).
- A skipped midnight settles on 01:00 (src/daily-planner.js:357-358): where the jump is at midnight, exactly for zones
  not behind universal time; otherwise where the change comes no later than midnight taken as universal time
  (`SkippedMidnightBehind`, `SkippedMidnightIsLateIff`, `SkippedMidnight`).
- A cleared marker is written before a crash can observe the gap (src/file-backed-cron-scheduler.js:83-86): a death
  before the next write leaves word of a run that has ended, and an aborted pass writes nothing (`LongIntervalBlocks`,
  `DeathIsNoticedIff`).
- The next run of a job is after the one just made (src/cron-scheduler.js:363-373): exactly when its interval is
  positive and ends within the range of dates, or its daily time is readable and at most a day ago. With no date to
  move to the pass is aborted, and the job is run again at every pass while later ones wait (`LongIntervalBlocks`,
  `NextRunIsLaterIff`).

## Model

Rows that begin with "By definition" follow from unfolding the functions they speak of; they fix a case, and the other
rows carry the arguments.

| member | source | states |
|---|---|---|
| CyclicWords.GcdIsPeriod | src/backlog-triage.js:1273-1282 | two periods that divide the length have their greatest common divisor as a period |
| CyclicWords.LeastPeriodDivides | src/backlog-triage.js:1273-1282 | the least period divides every period, so the primitive root is unique |
| CyclicWords.ReduceRotate | src/backlog-triage.js:1261-1263 | collapsing neighbours and the closing part commutes with rotation, up to rotation |
| CyclicWords.RootOfReducedPower | src/backlog-triage.js:1261-1264 | a loop repeated k times reduces to a word with the same primitive root |
| CyclicWords.ReducedRootStable | src/backlog-triage.js:1261-1264 | reducing a primitive root of a reduced loop again changes nothing |
| CanonicalCycle.SameNameIffSameCycle | src/backlog-triage.js:1258-1271 | two loops get the same name exactly when one's primitive root is a rotation of the other's |
| CanonicalCycle.NameOfRotatedLoop | src/backlog-triage.js:1251-1271 | rotating a loop keeps its name |
| CanonicalCycle.NameOfRepeatedLoop | src/backlog-triage.js:1251-1271 | repeating a loop k times keeps its name |
| CanonicalCycle.NameOfName | src/backlog-triage.js:1258-1271 | a name is its own name, so splitting it gives back the loop |
| CanonicalCycle.LeastNameIsLeast | src/backlog-triage.js:1265-1270 | the name is the least of all rotations in string order |
| CanonicalCycle.MinimalPeriod | src/backlog-triage.js:1273-1282 | searching periods up to half the length finds the primitive root |
| CanonicalCycle.CollapseLoop | src/backlog-triage.js:1261-1263 | the two collapsing loops compute the reduced word |
| CanonicalCycle.CanonicalName | src/backlog-triage.js:1258-1271 | the whole method computes the name the lemmas are about |
| IntervalSelection.NoLargerChoice | src/activity-patterns.js:202-219 | no set of disjoint windows of one length is larger than the greedy pick |
| IntervalSelection.PickIsIndependent | src/activity-patterns.js:202-219 | the greedy pick is itself a set of disjoint windows |
| IntervalSelection.PartIsPickedAsOften | src/activity-patterns.js:202-219 | shorter windows inside every longer one are picked at least as often |
| ActivityPatterns.LongerWindowsBreakToo | src/activity-patterns.js:129-137 | a gap or span that stops the growing window would stop every longer one, so leaving the loop skips no window |
| ActivityPatterns.WindowIff | src/activity-patterns.js:128-144 | a window has an allowed number of steps, varies, keeps both time limits, and loses no subject between cause and effect |
| ActivityPatterns.GenerateWindows | src/activity-patterns.js:128-166 | the generated windows are exactly the valid ones, each once, in order |
| ActivityPatterns.SelectIndependent | src/activity-patterns.js:209-216 | the selection loop keeps the greedy choice of the listed windows |
| ActivityPatterns.GreedyIsPick | src/activity-patterns.js:202-219 | on windows of one pattern the selection is the greedy interval pick |
| ActivityPatterns.CountIsMaximum | src/activity-patterns.js:202-219 | on one machine the count is attained and not exceeded by any choice of disjoint windows |
| ActivityPatterns.SupportIsMaximum | src/activity-patterns.js:127-173 | the same over all machines together |
| ActivityPatterns.SubWindow | src/activity-patterns.js:128-144 | a long enough part of a valid window that is not one repeated action is a valid window |
| ActivityPatterns.SupportIsAntiMonotone | src/activity-patterns.js:127-173 | such a part of a pattern is counted at least as often as the pattern |
| ActivityPatterns.CountPatterns | src/activity-patterns.js:126-174 | the pattern map holds exactly the patterns that occur, each with its support |
| ActivityPatterns.SuppressSubsumed | src/activity-patterns.js:221-237 | what is kept is exactly what no kept longer pattern with equal counts contains |
| ActivityPatterns.CoveredByKept | src/activity-patterns.js:221-245 | whatever is suppressed is contained in a kept pattern with the same counts |
| ContextTrim.StubOldestTrims | src/context-trim.js:83-93 | the rolling pass stubs only large outputs of earlier hops, and runs out of excess or of candidates |
| ContextTrim.StubToTargetTrims | src/context-trim.js:100-105 | a hard-cap pass keeps the running total equal to the true one and stops above the target only when nothing is left |
| ContextTrim.DropHistoryDropsOldest | src/context-trim.js:107-113 | history goes oldest first, and only while the total is above the target |
| ContextTrim.CappedTrims | src/context-trim.js:97-122 | the three stages together: nothing but stubs and dropped history, and exhausted when still above the target |
| ContextTrim.FitTrims | src/context-trim.js:73-130 | every other item stays, in order and with its call id; a stub is never undone; above the limit nothing is left to trim |
| ContextTrim.FitIsIdempotent | src/context-trim.js:17-20 | a second fit changes nothing, also after a fit that failed |
| ContextTrim.RolledAt | src/context-trim.js:81-93 | the rolling pass stubs exactly the oldest large outputs of earlier hops, as many as there are large outputs beyond the number to keep, once twice that number has piled up; every other item is as it was |
| ContextTrim.RolledKeepsRecent | src/context-trim.js:19-20 | with few enough large outputs nothing changes, and otherwise no fewer than the number to keep stay whole; no more, but for the latest hop |
| ContextTrim.RolledOldestFirst | src/context-trim.js:86-93 | no large output is stubbed before an older one of an earlier hop |
| ContextTrim.FitStages | src/context-trim.js:95-122 | within the limit a fit is the rolling pass alone; above it the stages come in order, each oldest first, each only while the total is above three quarters of the limit and no longer |
| ContextTrim.NewestOutputStays | src/context-trim.js:114-115 | the last stage leaves the newest whole output of the latest hop |
| ContextTrim.StubKeepsCall | src/context-trim.js:133-143 | a stub keeps the identity and the call it answers and has the length of its text |
| ContextTrim.LatestHopIsLatest | src/context-trim.js:79-79 | the latest hop is the largest of any item, or -1 when none has one |
| ContextTrim.StubSavesIffNameShort | src/context-trim.js:28-44 | a hard-cap stub is no longer than what it replaces exactly for tool names of at most 67 characters |
| ContextTrim.LongNameStubIsLonger | src/context-trim.js:28-44 | a stub for a tool name of 68 characters that is longer than the output it replaces |
| ContextTrim.FitNeverGrows | src/context-trim.js:73-130 | with tool names of at most 67 characters a fit never makes a conversation longer |
| ContextTrim.FitMayGrow | src/context-trim.js:97-105 | for every longer name, a conversation that a fit makes longer |
| ContextTrim.ToolLoopContext.RollingPass | src/context-trim.js:83-93 | the loop over the large outputs in place computes the rolling pass |
| ContextTrim.ToolLoopContext.CapPass | src/context-trim.js:99-122 | both hard-cap loops in place compute the staged pass and its total |
| ContextTrim.ToolLoopContext.DropPass | src/context-trim.js:107-113 | the splicing loop drops exactly the specified history |
| ContextTrim.ToolLoopContext.Fit | src/context-trim.js:73-130 | the conversation becomes the fitted one; it fails exactly above the limit, with nothing left to trim |
| ContextTrim.RetainedFits | src/context-trim.js:146-158 | regrouping the trimmed blocks gives back exactly what the fit kept: every tool result in its message |
| ContextTrim.RefreshedKeepsAll | src/context-trim.js:149-158 | after a failed fit every message is there, history included, each of its objects as it was or stubbed |
| ContextTrim.FitMessages | src/context-trim.js:149-160 | it fails exactly above the limit; on success the messages flatten to the fit of the flattened messages before, and on failure none is removed |
| BuiltinSupervisor.EveryRunIsSafe | src/builtin-coding-supervisor.js:114-122 | over all runs with deaths and failed saves: one possibly live process per workspace, its claim on disk; at most two owned; at most 100 rows; no prepared start spawns twice |
| BuiltinSupervisor.LaunchIsAlone | src/builtin-coding-supervisor.js:235-236 | where a launch may begin, no process may be running, whoever started it |
| BuiltinSupervisor.PrunedDropsOld | src/builtin-coding-supervisor.js:213-219 | pruning drops no row that may own a process and none younger than an approval, and drops no more than needed |
| BuiltinSupervisor.NewStart | src/builtin-coding-supervisor.js:204-210 | a start that passes the age check and finds no row has never spawned before |
| BuiltinSupervisor.LaunchKeeps | src/builtin-coding-supervisor.js:233-260 | a launch keeps all of it whether or not each save and the spawn succeed, and a spawn happens only under a saved claim |
| BuiltinSupervisor.LoadKeeps | src/builtin-coding-supervisor.js:114-120 | a restart keeps every claim and leaves no row working |
| BuiltinSupervisor.LiveAreOwnedOrOrphans | src/builtin-coding-supervisor.js:112-121 | the processes that may be running are the owned ones and those left behind, counted exactly |
| BuiltinSupervisor.ReachableClaims | src/builtin-coding-supervisor.js:114-122 | over all runs an interrupted row has its claim in the file, and no owned process is in its workspace |
| BuiltinSupervisor.AtMostOwnedAndBlocked | src/builtin-coding-supervisor.js:235-236 | no more processes may be running than there are owned sessions and workspaces with an interrupted row |
| BuiltinSupervisor.AsManyMayRun | src/builtin-coding-supervisor.js:235-236 | whatever rows and sessions there are, a world with them that keeps every invariant exists in which as many are running |
| BuiltinSupervisor.NoOrphans | src/builtin-coding-supervisor.js:235-236 | with no interrupted row at most two processes may be running |
| BuiltinSupervisor.SpawnKeepsTwoIff | src/builtin-coding-supervisor.js:235-236 | a spawn leaves at most two running in every world with these rows exactly when owned sessions and workspaces with an interrupted row are fewer than two together |
| BuiltinSupervisor.ThreeAfterRestart | src/builtin-coding-supervisor.js:114-120 | a run with a restart in which three processes may be running |
| BuiltinSupervisor.StartAnswers | src/builtin-coding-supervisor.js:204-220 | a repeated start is already started exactly for the same instruction and refused for another; only a timely, prepared and new one with room may run |
| BuiltinSupervisor.StartedRuns | src/builtin-coding-supervisor.js:221-227 | with room it runs exactly if its workspace is clear, its claim is saved and the spawn succeeds |
| BuiltinSupervisor.StartedRow | src/builtin-coding-supervisor.js:221-227 | its row holds what was approved and says working, or failed if it does not run; no other row changes |
| BuiltinSupervisor.LaunchOutcome | src/builtin-coding-supervisor.js:233-252 | row, ownership, file and answer of a launch |
| BuiltinSupervisor.ReplyAnswers | src/builtin-coding-supervisor.js:228-232 | a reply runs exactly for a resumable session of that provider and workspace whose workspace is clear |
| BuiltinSupervisor.ClosedRow | src/builtin-coding-supervisor.js:284-298 | a closed session has failed exactly if it was stopped or did not finish well, waits exactly if it asks, and is idle otherwise; it is owned no longer |
| BuiltinSupervisor.StoppedIff | src/builtin-coding-supervisor.js:256-260 | an owned process is marked as stopped exactly from the word to stop it on |
| BuiltinSupervisor.OwnedUntilClosed | src/builtin-coding-supervisor.js:284-290 | ownership ends only with the close event or with this program |
| BuiltinSupervisor.ReconciledRow | src/builtin-coding-supervisor.js:303-309 | a release makes the row failed and not resumable and changes nothing else |
| BuiltinSupervisor.LoadedRows | src/builtin-coding-supervisor.js:114-120 | a new process has the last hundred rows, and what was working is interrupted |
| BuiltinSupervisor.BuiltinCodingSupervisor.constructor | src/builtin-coding-supervisor.js:114-120 | recovery computes the loaded state from the file |
| BuiltinSupervisor.BuiltinCodingSupervisor.Prune | src/builtin-coding-supervisor.js:215-219 | the pruning loop over the rows in insertion order, with one reading each |
| BuiltinSupervisor.BuiltinCodingSupervisor.StartSession | src/builtin-coding-supervisor.js:203-227 | memory, file, answer and spawn of a start, in every branch |
| BuiltinSupervisor.BuiltinCodingSupervisor.LaunchRow | src/builtin-coding-supervisor.js:233-252 | memory, file, answer and spawn of a launch, in every branch |
| BuiltinSupervisor.BuiltinCodingSupervisor.ReplyTo | src/builtin-coding-supervisor.js:228-232 | a reply launches only a resumable row with a matching fingerprint |
| BuiltinSupervisor.BuiltinCodingSupervisor.OnClose | src/builtin-coding-supervisor.js:284-298 | the new status and file when an owned process closes |
| BuiltinSupervisor.BuiltinCodingSupervisor.ReconcileSession | src/builtin-coding-supervisor.js:303-309 | only a confirmed, interrupted and unowned row is released |
| ReplyReceipts.SentUnderReceipt | src/coding-supervisor.js:388-402 | By definition: each transmission has its receipt on disk, a matching fingerprint in the awaited list, and was checked within its approval |
| ReplyReceipts.EveryReceiptIsHonest | src/coding-supervisor.js:398-413 | over all runs a receipt says accepted, queued or blocked only if that was the answer, sending only while none has come, and unconfirmed if that was reported or a new process found it without an answer |
| ReplyReceipts.RestartedReceipt | src/coding-supervisor.js:398-413 | a restart keeps every receipt of the file and makes what was sending unconfirmed |
| ReplyReceipts.SettledReceipt | src/coding-supervisor.js:403-412 | an answer is written to the receipt that was sent, and to the file if that works |
| ReplyReceipts.BeginAnswers | src/coding-supervisor.js:376-387 | which request is known, which waits, and which is refused before the list |
| ReplyReceipts.ResumeAnswers | src/coding-supervisor.js:388-402 | which is known and which is transmitted after it, what is pruned, and what is in memory and in the file |
| ReplyReceipts.EveryRunIsSafe | src/coding-supervisor.js:368-413 | over all interleavings and deaths each request id is transmitted at most once and the journal never exceeds 2000 |
| ReplyReceipts.SentOnceIffWaitBounded | src/coding-supervisor.js:383-399 | that holds exactly when no wait for the list exceeds the thirty days |
| ReplyReceipts.LongWaitSendsTwice | src/coding-supervisor.js:391-396 | with a longer wait, a run that transmits one request twice |
| ReplyReceipts.NotSentBefore | src/coding-supervisor.js:390-391 | a reply that finds no receipt after the wait was never transmitted |
| ReplyReceipts.BeginKeeps | src/coding-supervisor.js:376-387 | an approval expires before the receipt of its request can be pruned |
| ReplyReceipts.CodingSupervisor.ResumeReply | src/coding-supervisor.js:388-402 | journal, file and answer from the list to the transmission, in every branch |
| ReplyReceipts.CodingSupervisor.BeginReply | src/coding-supervisor.js:376-387 | the answer of the part before the list, in every branch |
| ReplyReceipts.CodingSupervisor.SettleReply | src/coding-supervisor.js:403-412 | the outcome is written to the receipt object that was sent |
| G2Requests.EveryRunIsSafe | src/g2-requests.js:68-136 | over all runs with deaths, also during recovery, without straddling submissions: asked at most once; every active request holds a slot; one active per node; at most 16 slots and 512 records |
| G2Requests.AskedUnderClaim | src/g2-requests.js:86-100 | By definition: the agent is asked only for an active request whose claim is on disk and that was never asked |
| G2Requests.EveryStateHasItsCause | src/g2-requests.js:68-183 | over all runs with crashes a request is completed exactly if its answer arrived or was found, cancelled exactly if that was asked for or its node was revoked, open exactly as long as nothing has ended it, and otherwise unconfirmed; its file agrees unless storage failed |
| G2Requests.RecoveredFile | src/g2-requests.js:33-40 | a recovery completes what was open and answered, makes the rest of what was open unconfirmed with one more revision, drops what has expired, and changes nothing else |
| G2Requests.RecordsFollow | src/g2-requests.js:86-153 | a request keeps its question and its deadline, and its revision grows with every change but its start |
| G2Requests.ReportedRecord | src/g2-requests.js:95-122 | a report is one revision more, saved when due; without access, or if that fails, the request ends |
| G2Requests.CancelSettles | src/g2-requests.js:154-159 | a cancellation leaves the request settled |
| G2Requests.SweepSettles | src/g2-requests.js:160-167 | a sweep leaves nothing open that is revoked or past its deadline |
| G2Requests.SweepDrops | src/g2-requests.js:168-171 | it drops exactly what has expired, is not running and can be deleted |
| G2Requests.SweepReports | src/g2-requests.js:141-153 | it ends the admissions exactly if a write or a deletion failed |
| G2Requests.AnsweredAsKnownIff | src/g2-requests.js:73-77 | a known request is answered with its record exactly for the same question |
| G2Requests.AdmittedIff | src/g2-requests.js:69-86 | a new one is admitted exactly if it is fresh, nothing has failed or closed, there is room, its node has nothing open and its claim is saved; the claim as saved |
| G2Requests.RefusedChangesNothing | src/g2-requests.js:69-85 | a refused submission changes nothing but by its sweep |
| G2Requests.AdmittedIsNew | src/g2-requests.js:69-78 | a request admitted without straddling was never asked, even if its record is gone |
| G2Requests.ReadmittedIff | src/g2-requests.js:46-53 | By definition: a kept request is admitted again exactly when its submission straddles the expiry and nothing else stands in the way |
| G2Requests.StraddleAsksTwice | src/g2-requests.js:68-100 | a run in which one request is asked twice |
| G2Requests.DeletedIffRefused | src/g2-requests.js:160-172 | By definition: with one reading, a settled record is deleted exactly when its id would be refused |
| G2Requests.TerminalIsFinal | src/g2-requests.js:145-153 | within a process a terminal record never changes again |
| G2Requests.RecoveryIsQuiet | src/g2-requests.js:34-41 | By definition: right after a recovery nothing is active, queued or being asked |
| G2Requests.G2RequestHub.SweepRecords | src/g2-requests.js:160-172 | the sweeping loop equals the sweep as one step, whatever order it takes and whichever writes fail |
| G2Requests.G2RequestHub.SubmitRequest | src/g2-requests.js:68-90 | memory, files and answer of a submission, in every branch |
| G2Requests.G2RequestHub.StartRequest | src/g2-requests.js:91-100 | the queued start asks only an active request of an enrolled node |
| G2Requests.G2RequestHub.ReportProgress | src/g2-requests.js:95-122 | progress is saved when due, and a failed save stops the request |
| G2Requests.G2RequestHub.SettleRequest | src/g2-requests.js:123-135 | outcome, file and slot when the agent settles |
| G2Requests.G2RequestHub.CancelRequest | src/g2-requests.js:154-159 | a cancellation sweeps and then stops what is still active |
| G2Requests.G2RequestHub.CloseHub | src/g2-requests.js:173-176 | closing settles every active request, whichever writes fail |
| G2Requests.RecoverFiles | src/g2-requests.js:27-42 | the recovery loop computes the recovered files the laws are about |
| SessionArchive.HistoryIsAppended | src/agent-store.js:180-240 | after any appends, each completed or stopped anywhere, archive and active messages together are the completed appends in order |
| SessionArchive.RotationIsReplayed | src/agent-store.js:188-196 | By definition: a rotation that did not complete writes the same chunk when it is tried again |
| SessionArchive.ArchivedIsOldest | src/agent-store.js:209-233 | the archive, in whatever order the directory lists it, is the oldest part of the transcript |
| SessionArchive.CompletedIsDisjoint | src/agent-store.js:188-206 | a completed append leaves archive and active messages disjoint and the active ones within their maximum |
| SessionArchive.PageIsOfTranscript | src/shared-conversations.js:43-57 | a page read from the active tail alone is the page of the whole transcript |
| SessionArchive.WalkIsTranscript | src/shared-conversations.js:43-57 | following the pages back gives every message once, in order |
| SessionArchive.FileBackedAgentStore.SaveSession | src/agent-store.js:180-207 | the files after a save, for each point at which it can stop |
| SessionArchive.FileBackedAgentStore.AppendMessage | src/agent-store.js:241-248 | the files after an append |
| SessionArchive.FileBackedAgentStore.ReadArchive | src/agent-store.js:213-233 | sorting, joining and dropping repeated ids computes the archive |
| TailLock.RunsInArrivalOrder | src/agent-host.js:33-45 | turns of one key start in arrival order, each after the one before has settled, so never two at once |
| TailLock.OldestMayBegin | src/agent-host.js:37-38 | By definition: the oldest unsettled turn is running or may start, whether earlier ones succeeded or failed |
| TailLock.StepKeeps | src/chatgpt-auth.js:421-435 | arriving, starting, settling and dropping the tail keep the chain, though the tail is dropped late |
| TailLock.ForgotTail | src/agent-host.js:40-44 | a settled turn that drops its tail leaves none of its own and touches no other |
| TailLock.TurnTails.Enqueue | src/agent-host.js:37-39 | the work is chained after the tail of its key and becomes the tail |
| TailLock.TurnTails.DropTail | src/agent-host.js:40-44 | the tail is dropped only if it is still the caller's own |
| TokenRefresh.OneRequestWithLatestToken | src/chatgpt-auth.js:409-435 | at most one renewal is with the server, and it presented the refresh token still on disk |
| TokenRefresh.OneRenewalPerToken | src/chatgpt-auth.js:421-486 | with fresh tokens that are saved no token is renewed twice, whatever the calls and however late their turns |
| TokenRefresh.OneRenewalPerStaleToken | src/chatgpt-auth.js:421-429 | with fresh tokens that are saved and prompt turns, at most one renewal succeeds for one rejected token |
| TokenRefresh.RenewsAgainIff | src/chatgpt-auth.js:425-428 | a waiting call renews again exactly when the file still holds the rejected token or an expired one |
| TokenRefresh.SlowTurnRenewsTwice | src/chatgpt-auth.js:421-429 | two runs with two renewals for one rejected token: after a slow turn, and after a write that failed |
| TokenRefresh.UnforcedRenewsIff | src/chatgpt-auth.js:427-429 | a waiting call without a rejected token renews exactly when the stored one is about to expire |
| TokenRefresh.ShortLifeRenewsEach | src/chatgpt-auth.js:427-429 | a run in which each such call renews, because tokens are granted for no longer than the skew |
| TokenRefresh.AnswersAreStored | src/chatgpt-auth.js:422-429 | By definition: every waiting call that gets a token gets the one stored at that moment, never the rejected one unless the server granted it |
| TokenRefresh.RespondedFile | src/chatgpt-auth.js:454-486 | the tokens in the file after each kind of response, and the answer |
| TokenRefresh.TurnDecides | src/chatgpt-auth.js:422-442 | when a turn answers from the file, asks the server, or signs out |
| TokenRefresh.CalledWaitsIff | src/chatgpt-auth.js:413-421 | when a call waits for its turn, and with which rejected token |
| TokenRefresh.FatalAnswerIsFinal | src/chatgpt-auth.js:454-460 | after a fatal answer nothing is ever asked again |
| TokenRefresh.ChatGPTAuth.GetAccessToken | src/chatgpt-auth.js:413-431 | an answer from the file, or a place in the queue |
| TokenRefresh.ChatGPTAuth.TakeTurn | src/chatgpt-auth.js:422-442 | the decision of a turn, in every branch |
| TokenRefresh.ChatGPTAuth.Receive | src/chatgpt-auth.js:454-486 | the file and the answer for each kind of response, saved or not |
| BacklogReview.EveryItemFiledOnce | src/backlog-triage.js:470-548 | whatever the model returns, each item of a batch is filed exactly once |
| BacklogReview.OnlyDismissalsRetire | src/backlog-triage.js:482-507 | an item is retired only on an explicit, confident and explained dismissal |
| BacklogReview.FirstUsableReplyFiles | src/backlog-triage.js:470-548 | an item is retired exactly if the first usable reply about it is a confident dismissal, kept exactly if it is a keep, and deferred otherwise |
| BacklogReview.SentItemsFiledByReply | src/backlog-triage.js:433-549 | the same for everything that is sent, by the replies to its batch |
| BacklogReview.OrderedBy | src/backlog-triage.js:398-416 | never reviewed first, then the least recently reviewed, and the older of two alike |
| BacklogReview.SendableAreFirst | src/backlog-triage.js:417-418 | at most the allowed number is sent, and those are the first |
| BacklogReview.AppliedFit | src/backlog-triage.js:299-303 | of the dismissals exactly the first that fit under the ceiling are applied |
| BacklogReview.SentItemsFiledOnce | src/backlog-triage.js:433-549 | exactly the items of the batches that were sent are filed |
| BacklogReview.TrimToBudget | src/backlog-triage.js:1121-1131 | the number of batches is the largest whose estimates fit in the allowance |
| BacklogReview.Judge | src/backlog-triage.js:404-549 | the batches before the first that is not sent, judged and filed |
| BacklogReview.FileReplies | src/backlog-triage.js:470-529 | the loop over the replies: the first usable reply for each index counts |
| BacklogReview.WaitingGoFirst | src/backlog-triage.js:398-416 | whatever has waited longer is sent before anything reviewed since |
| BacklogReview.EveryItemIsReviewed | src/backlog-triage.js:398-416 | in any window of passes that have done with as many items as the backlog holds, or one of which sends all, every item is sent, whatever the verdicts, the ceiling, ages and listing order |
| BacklogReview.RegularPassesSuffice | src/backlog-triage.js:398-416 | passes that each are done with m items need n / m of them for n items |
| BacklogReview.OneFewerMayMissOne | src/backlog-triage.js:398-416 | for every n, a backlog of n items and a pass done with n - 1 of them that leaves one unsent |
| BacklogReview.CutIff | src/backlog-triage.js:300-302 | a sent item stays as it was exactly when its dismissal fell to the ceiling |
| BacklogReview.CeilingStarves | src/backlog-triage.js:300-302 | with the ceiling used up the passes are done with nothing: one item is sent in every pass and another never |
| BacklogUndo.PassDoes | src/backlog-triage.js:299-331 | a pass retires only pending records, at most its ceiling, lists exactly those, and a dry run writes nothing |
| BacklogUndo.AppliedInOrder | src/backlog-triage.js:299-303 | the rules come before the model, up to the ceiling |
| BacklogUndo.RetiredFields | src/backlog-triage.js:569-587 | the status, time, reason and pass in a retired record |
| BacklogUndo.RestoredFields | src/backlog-triage.js:1036-1039 | what an undo leaves in it |
| BacklogUndo.NotedIff | src/backlog-triage.js:592-622 | what the model kept or deferred is noted exactly if it is still pending and can be written |
| BacklogUndo.RetireAllLists | src/backlog-triage.js:301-317 | of the resolutions exactly those that are still pending and can be written are carried out and listed |
| BacklogUndo.UndoRestoresStatus | src/backlog-triage.js:1001-1045 | undo restores the status of what the pass retired and nobody touched, and leaves all else as it is |
| BacklogUndo.UndoTwiceIsOnce | src/backlog-triage.js:1001-1045 | undoing twice is undoing once |
| BacklogUndo.UndoResumes | src/backlog-triage.js:1018-1042 | undoing again after an undo that stopped anywhere completes it |
| BacklogUndo.StoppedUndoes | src/backlog-triage.js:1034-1041 | an undo that stops at a failed write has undone the entries before it and no other |
| BacklogUndo.LostReportIsFinal | src/backlog-triage.js:299-343 | what a pass retired whose report was never written stays retired, whatever other pass is undone |
| BacklogUndo.UndoIsExactIff | src/backlog-triage.js:993-1000 | a record comes back exactly as it was if and only if its other fields were empty |
| BacklogUndo.NoteIsNotRestored | src/backlog-triage.js:1036-1039 | a pass that notes a record, and a later one whose undo does not bring the note back |
| BacklogUndo.TriageStore.RunPass | src/backlog-triage.js:299-331 | records and ledger after the two loops of a pass |
| BacklogUndo.TriageStore.RetireRecord | src/backlog-triage.js:569-587 | a record that is no longer pending is left alone |
| BacklogUndo.TriageStore.UndoPass | src/backlog-triage.js:1018-1042 | records after the loop of an undo, and counts that add up, also when a write fails |
| BacklogRules.EverySuggestionOnce | src/backlog-triage.js:675-803 | each suggestion is resolved, fresh or ambiguous, and only one of them |
| BacklogRules.SurvivingLoopsDiffer | src/backlog-triage.js:726-741 | no two surviving mined suggestions have the same cycle up to rotation |
| BacklogRules.SurvivingTitlesDiffer | src/backlog-triage.js:743-762 | no two surviving prose suggestions of one category are as similar as the threshold |
| BacklogRules.TitlesApart | src/backlog-triage.js:743-762 | in numbers: surviving titles of one category share less than the threshold |
| BacklogRules.SupersededTitleIsClose | src/backlog-triage.js:743-762 | and a superseded one shares at least as much with the one it names |
| BacklogRules.SupersededNamesSurvivor | src/backlog-triage.js:729-759 | what is superseded names a survivor at least as recent, of the same loop or a similar title |
| BacklogRules.SurvivorResolvedIff | src/backlog-triage.js:764-799 | a survivor is resolved exactly if it is mined, old, and weakly evidenced or not seen for long |
| BacklogRules.SurvivorLeftIff | src/backlog-triage.js:764-801 | it is left to the user exactly while it is fresh, and sent to the model exactly if it is old and no rule retires it |
| BacklogRules.DeadEndIff | src/backlog-triage.js:688-706 | a suggestion is a dead end exactly if it has no accept action |
| BacklogRules.ResolvedForReason | src/backlog-triage.js:688-799 | every resolution has the reason it gives |
| BacklogRules.SupersededByRecent | src/backlog-triage.js:719-721 | the one it names was proposed no earlier, and has the smaller identity if at the same time |
| BacklogRules.SupersededByMostSimilar | src/backlog-triage.js:743-757 | a prose suggestion names the most similar of those kept before it, and the first of several as similar |
| BacklogRules.JaccardIs | src/backlog-triage.js:1243-1250 | similarity is the size of what is shared over the size of both together |
| BacklogRules.WinnerMayVanish | src/backlog-triage.js:719-778 | an input on which the survivor is retired in the same pass |
| BacklogRules.NewestDraftIsKept | src/backlog-triage.js:804-849 | of a task's drafts exactly the newest is kept |
| BacklogRules.NewestDraftIsNewest | src/backlog-triage.js:821-824 | the draft that is kept is at least as recent as any of its task |
| BacklogRules.UntaskedDraftIsKept | src/backlog-triage.js:816-820 | a draft of no task is never retired |
| BacklogRules.ClassifySuggestions | src/backlog-triage.js:675-803 | the loops of the triage, one after another, compute the triage the lemmas are about |
| BacklogRules.SupersedeLoops | src/backlog-triage.js:727-741 | the loop over mined suggestions with its map of seen cycles |
| BacklogRules.SupersedeTitles | src/backlog-triage.js:742-762 | the loop over prose suggestions |
| BacklogRules.BestKept | src/backlog-triage.js:745-753 | the inner loop finds the first most similar kept suggestion |
| BacklogPass.PendingIff | src/backlog-triage.js:299-317 | a pending record is pending after the pass exactly unless its first resolution is within the ceiling and can be written |
| BacklogPass.SurvivorWrittenIff | src/backlog-triage.js:267-317 | a survivor is to be retired exactly if the rules retire it or the model dismisses it, and never both |
| BacklogPass.WinnerIsLiveIff | src/backlog-triage.js:719-721 | the record a superseded one names is pending after the pass exactly unless it was mined long ago on weak or old evidence or dismissed by the model, within the ceiling, and could be written |
| BacklogPass.WinnerIsRetired | src/backlog-triage.js:719-778 | an input: a pass that retires a suggestion together with the one its evidence names |
| BacklogPass.CeilingAgrees | src/backlog-triage.js:299-303 | what the review counts as applied is what is written of the dismissals |
| BacklogPass.JudgedAreCandidates | src/backlog-triage.js:404-507 | the model can dismiss only suggestions the rules left ambiguous |
| ComputerUseLog.ReplayRebuilds | src/computer-use-log.js:196-240 | after any run, replay with or without a snapshot rebuilds sessions, actions, sequence numbers and outcomes, but for idle leases and the errors of exactly the lost actions |
| ComputerUseLog.SnapshotChangesNothing | src/computer-use-log.js:22-35 | a snapshot of an earlier state loaded first changes nothing |
| ComputerUseLog.RestartAborts | src/computer-use-log.js:313-325 | a restart keeps everything but lost errors and aborts what was active |
| ComputerUseLog.MarkedRebuildsIff | src/computer-use-log.js:152-166 | an outcome is rebuilt exactly unless a failed sensitive action is reported without an error |
| ComputerUseLog.FailedThenDone | src/computer-use-log.js:152-166 | a run that loses the error of a sensitive action |
| ComputerUseLog.NoneActivePastExpiry | src/computer-use-log.js:294-311 | nobody who asks sees a session active past its absolute expiry, however many actions extended its lease |
| ComputerUseLog.StepKeeps | src/computer-use-log.js:67-166 | every operation keeps replay equal to memory but for lost errors, and one active session per chat |
| ComputerUseLog.NothingTypedIsStored | src/computer-use-log.js:328-363 | no typed text and no reasoning about it reaches the journal |
| ComputerUseLog.ActionsAreNumbered | src/computer-use-log.js:120-150 | over all runs with restarts the actions of a session are numbered from one without a gap |
| ComputerUseLog.StartAnswers | src/computer-use-log.js:67-103 | a chat gets a new session exactly if it has no active one, and the one it has for the same terms |
| ComputerUseLog.EndedSession | src/computer-use-log.js:104-119 | ending a session does so as asked if it is active, and touches nothing else |
| ComputerUseLog.SweptSession | src/computer-use-log.js:294-311 | a sweep expires exactly the active sessions whose lease or absolute time is over |
| ComputerUseLog.RecordedAction | src/computer-use-log.js:120-150 | what is stored of an action and of its session |
| ComputerUseLog.MarkedAction | src/computer-use-log.js:152-166 | what is stored of a result |
| ComputerUseLog.ActionLog.constructor | src/computer-use-log.js:196-240 | loading and the replay loop compute the replayed state |
| ComputerUseLog.ActionLog.ExpireSessions | src/computer-use-log.js:294-311 | the sweep ends exactly the lapsed sessions and journals each |
| ComputerUseLog.ActionLog.StartFor | src/computer-use-log.js:67-103 | a new, an existing or a refused session for a chat |
| ComputerUseLog.ActionLog.RecordAction | src/computer-use-log.js:120-150 | action, sequence, lease and journal entry |
| ComputerUseLog.ActionLog.MarkActionResult | src/computer-use-log.js:152-166 | what is stored and journalled of a result |
| CreditLedger.PruningIsInvisible | src/credit-ledger.js:95-104 | a query made no earlier than the latest clock reading answers as it would from all rows, wherever the clock was before |
| CreditLedger.AnswersInFullIff | src/credit-ledger.js:76-104 | over any run with restarts and any clock, a query answers as it would from all rows ever recorded exactly when every dropped row is older than its window |
| CreditLedger.QueryReturns | src/credit-ledger.js:95-104 | a query returns the rows of so many whole days up to now, each as often as it is there, newest first |
| CreditLedger.MaintainedWhenDue | src/credit-ledger.js:76-93 | maintenance is due at the next size or after a day, leaves the retention window, and doubles the next size |
| CreditLedger.ClockSetBack | src/credit-ledger.js:76-104 | an input: with the clock set back by a day a query misses a row |
| CreditLedger.CompactionIsAmortized | src/credit-ledger.js:76-93 | the file sizes at size-triggered compactions sum to at most twice the bytes appended, and once the size found at each restart |
| CreditLedger.CreditLedgerStore.MaybeMaintain | src/credit-ledger.js:76-93 | file, next size and prune time after maintenance |
| CreditLedger.CreditLedgerStore.RecordRow | src/credit-ledger.js:53-68 | the file after a record |
| CreditLedger.CreditLedgerStore.QueryRows | src/credit-ledger.js:95-104 | the rows of the clamped window, newest first |
| Cron.EveryHistoryIsSafe | src/cron-scheduler.js:168-250 | over passes, manual runs, failed saves and deaths: one unended run per job, and a marker on disk while any run is in progress |
| Cron.EndedIsFinal | src/cron-scheduler.js:199-233 | By definition: a record that has ended holds no guard and never changes |
| Cron.RunsEndAsRecorded | src/cron-scheduler.js:199-238 | over all histories each run ends at most once, as ok, failed or timed out, and its record says which; a run has not ended exactly while its record is running |
| Cron.EndIsRecorded | src/cron-scheduler.js:212-249 | the end of a run gives its outcome to the record and to the row it was started from, and to nothing else |
| Cron.UnsavedIsRecorded | src/cron-scheduler.js:186-216 | a run that cannot save its marker has failed at once and holds nothing |
| Cron.DeathIsNoticed | src/file-backed-cron-scheduler.js:74-108 | By definition: a process that dies during a run leaves a marker for the next |
| Cron.DeathIsNoticedIff | src/file-backed-cron-scheduler.js:74-108 | over all histories a death leaves a marker exactly if some run was in progress when the file was last written |
| Cron.DeathNamesJob | src/file-backed-cron-scheduler.js:74-108 | the marker names a job that was in progress when it was written |
| Cron.ManualRunKeepsSchedule | src/cron-scheduler.js:287-325 | nothing but an edit or the end of a pass's own run moves a schedule |
| Cron.ResumedReschedules | src/cron-scheduler.js:275-283 | a job a pass has run is moved, after the pass exactly if its schedule moves on; with no date to move to it stays due and the pass is over; no row that was replaced and no other row is touched |
| Cron.NoFireMoved | src/cron-scheduler.js:252-285 | without edits, while a pass goes on each due job is run and moved by its schedule, after the pass exactly if that moves on, or left due with its time unchanged |
| Cron.NoFireLost | src/cron-scheduler.js:252-285 | a job keeps its time, in memory and on disk, until a pass has run it |
| Cron.DueJobsAre | src/cron-scheduler.js:102-120 | a pass considers exactly the due jobs, the one due longest first |
| Cron.NextRunIsLaterIff | src/cron-scheduler.js:363-373 | the next run is a later date exactly for a positive interval that ends in the range of dates, or a readable daily time at most a day ago; an ordinary daily time is met within a day |
| Cron.NextRunIs | src/cron-scheduler.js:363-373 | an interval moves the next run by itself, and a daily time to the first instant at that time of day |
| Cron.StuckJobBlocks | src/cron-scheduler.js:252-285 | however many passes there are, a first due job with no date to move to is run in each and no other due job is considered |
| Cron.LongIntervalBlocks | src/hosted-interface.js:2553-2573 | such a job, as it can be posted: an interval beyond the range of dates; and after its run a death leaves a marker although nothing is running |
| Cron.DailyRunKeepsItsTime | src/cron-scheduler.js:365-371 | a daily run is at its time of day, whatever its hours and minutes add up to |
| Cron.Evicted | src/cron-scheduler.js:155-164 | eviction never drops a running record and leaves at most fifty, or only running ones |
| Cron.EvictedDown | src/cron-scheduler.js:155-164 | up to fifty records are kept; beyond that no more go than needed, until only running ones are left |
| Cron.FirstFinishedIsFirst | src/cron-scheduler.js:159-160 | the record that goes is no later than any other that has ended |
| Cron.FileBackedCronScheduler.StartRun | src/cron-scheduler.js:168-199 | guard, record, marker and file at the start of a run, also when the marker cannot be saved |
| Cron.FileBackedCronScheduler.EndRun | src/cron-scheduler.js:212-249 | guard, record, marker and row at its end |
| Cron.FileBackedCronScheduler.Reschedule | src/cron-scheduler.js:279-281 | the row after a run, and whether the pass goes on |
| Cron.FileBackedCronScheduler.RunJobNow | src/cron-scheduler.js:297-325 | a manual run starts exactly when the job is known and not running |
| Cron.FileBackedCronScheduler.OldestRunning | src/file-backed-cron-scheduler.js:90-96 | the loop finds the marker of the earliest run |
| Cron.FileBackedCronScheduler.RecordRun | src/cron-scheduler.js:155-164 | the eviction loop computes the evicted records |
| Calendar.SameKeyIffSameWeek | src/activity-patterns.js:504-512 | two days share a key exactly when they are in the same week from Monday to Sunday, and weeks are 1 to 53 |
| Calendar.FourthOfJanuaryIsInWeekOne | src/activity-patterns.js:504-512 | By definition: 4 January is in week 1 of its year |
| Calendar.WeekdaysFollow | src/activity-patterns.js:504-512 | the days of the week follow each other from a Thursday, the first day of 1970 |
| Calendar.NextDateIsNextDay | src/daily-planner.js:340-344 | the next calendar date is one day later, across months, years and Februaries |
| Calendar.MonthsAndEpoch | src/daily-planner.js:340-344 | the lengths of the months, the leap years, and the first day |
| LocalDay.MidnightIff | src/daily-planner.js:350-363 | the corrected guess reads midnight exactly when some instant does |
| LocalDay.SkippedMidnight | src/daily-planner.js:357-363 | where midnight is skipped, the result is late or early by exactly the gap |
| LocalDay.SkippedMidnightIsLateIff | src/daily-planner.js:357-358 | for a jump at midnight it is late exactly in zones not behind universal time |
| LocalDay.SkippedMidnightBehind | src/daily-planner.js:357-363 | a zone behind universal time whose skipped midnight settles on eleven the evening before |
| LocalDay.RepeatedMidnight | src/daily-planner.js:350-363 | which of two midnights is taken |
| LocalDay.DaysFollow | src/daily-planner.js:337-348 | a day lasts 24 hours less the change of offset in it; by definition the next one starts where it ends |
| LocalDay.BoundsHoldTheDay | src/daily-planner.js:337-348 | the bounds hold exactly the instants whose local date is the day |
| Lifelog.MomentsPartition | src/conversation-lifelog.js:14-43 | moments hold every segment once, in order of time, and stay within 40 segments and 16000 characters whatever the edits |
| Lifelog.CutExactlyWhereItBreaks | src/conversation-lifelog.js:18-28 | moments are cut exactly where a segment breaks from what came before it |
| Lifelog.PrunedIsClean | src/conversation-lifelog.js:49-58 | By definition: after pruning every review is of a current moment as it is, and nothing refers to a missing segment |
| Lifelog.PruningIsLeast | src/conversation-lifelog.js:49-58 | pruning drops nothing else |
| Lifelog.DeletionIsComplete | src/conversation-lifelog.js:87-92 | By definition: a deleted moment leaves no segment, candidate, edit, review, failure or bookmark behind, and takes no other segment |
| Lifelog.EditIsClean | src/conversation-lifelog.js:79-86 | By definition: an edit is kept and leaves nothing stale |
| Lifelog.StoredReviewIsCurrent | src/conversation-lifelog.js:159-172 | a review is stored only for the moment it was made of |
| Lifelog.ReviewStoredIff | src/conversation-lifelog.js:159-172 | a review is stored exactly if nothing was edited meanwhile and its moment is unchanged |
| Lifelog.EditsAreCounted | src/conversation-lifelog.js:79-92 | every edit or deletion of something there makes a new generation, and one of something unknown changes nothing |
| Lifelog.EditedReviewIsDropped | src/conversation-lifelog.js:159-160 | a review asked for before an edit is not stored |
| Lifelog.SamePrintSameWords | src/conversation-lifelog.js:38-39 | moments with one fingerprint have the same words by the same speakers |
| Lifelog.FindMoments | src/conversation-lifelog.js:14-36 | the loop that grows the last moment computes the cut |
| Lifelog.LifelogStore.Prune | src/conversation-lifelog.js:49-58 | the pruning loops compute the pruned store |
| Lifelog.LifelogStore.Delete | src/conversation-lifelog.js:87-92 | the store after a deletion |
| Lifelog.LifelogStore.StoreReview | src/conversation-lifelog.js:159-172 | the store after a review, edited meanwhile or not |

## Left out

- Routes, pages, CLI, push, phone apps and relays: input and output only.
- Model providers, transports, spawned CLIs and agent turns: arbitrary replies, successes and failures.
- Writing a file is atomic, as `writeJsonAtomic` is; the plain rewrite in src/credit-ledger.js:85 and the append in
  src/computer-use-log.js:243 are taken as atomic too, so a torn line is not modelled.
- src/builtin-coding-supervisor.js: the owner's word that an interrupted process has stopped is taken as true; turn
  texts, configuration, workspace checks and what a provider prints are parameters or left out.
- src/coding-supervisor.js: watches, and choosing and pinning a remote node; a reply is split where it waits for the
  list, and the list itself is a parameter.
- src/g2-requests.js: texts, events and notifications of a request, and malformed requests, which change nothing.
- src/agent-store.js: chunks written by other versions without a start index, writers that replace a session's messages,
  and the parsing of stored tool arguments; redaction is one flag per message.
- src/shared-conversations.js: the filter for visible messages; every message counts as visible.
- src/chatgpt-auth.js: sign-in, sign-out and their one-time attempts, token verification and discovery; removing the
  token file is taken to succeed.
- src/computer-use-log.js: the migration of old journals, refused empty goals, and errors reported as an empty text.
- src/backlog-triage.js: scanning the directories, prompts, costs of a batch, and the ranking and samples of the report;
  a title is its set of words. Drafts are one store: when their snapshot is written is not modelled; the report, which
  holds the undo ledger, is written or lost as a whole.
- src/activity-patterns.js: classifying rows into actions, the statistics and confidence of a pattern, its cadence and
  trigger; rows with unreadable times.
- src/cron-scheduler.js: a daily time that a change of offset skips or repeats; the zone is at a fixed offset there.
  Intervals are whole numbers, and a stored next run is a time or missing.
  Handlers abandoned after a timeout go on outside the model, and passes do not overlap.
- src/conversation-lifelog.js: segment ids are distinct (of two moments with one id the model finds the first and the
  source the last); labels, titles, follow-up texts, search and export; whether words announce a new
  conversation is given with the segment.
- src/daily-brief.js: sharing out the rows of the daily brief among its kinds is a few minima, and the rest is building
  rows; it would only add easy members.
- BuiltinSupervisor.AsManyMayRun: the world it gives keeps every invariant of the runs, but is not shown to be reached by
  one; `ThreeAfterRestart` is reached.
- Cron.NextRunIsLaterIff: does not model changes of the zone's offset either.
- Cron.DailyRunKeepsItsTime: does not model changes of the zone's offset, because the time of day is taken at one offset.
- CreditLedger.CompactionIsAmortized: counts the size found at each restart once more, because a new process starts
  again from the smallest compaction size.

# Sevn: a verified model of its protocol, scheduler, stores and recovery

Sevn is a personal assistant: a host process with a SQLite store, bots that run turns on lanes,
and web clients that follow the host over a socket. This project models the parts of it whose
correctness depends on interleavings, crashes or arithmetic, and proves what they promise.
`dafny verify dfyconfig.toml` checks everything.

How it is laid out. A module whose name ends in `Model` (and the modules of lemmas beside it)
holds the state as values and each transaction or await-free stretch of code as one function or
step. The class of the same component holds the fields the source updates; its methods are the
source's methods and loops, each proved to leave exactly the state its function gives. What the
source promises is then proved about the functions: an invariant that every step keeps, and a
theorem about every run.

- **Event replication** (`Outbox`, `Session`, `Hub`, `Client*`, `Replication*`, `LogRuns`,
  `CatchUp*`, `ServingRuns`, `Restores`). The outbox is a log with a pruned front. One world holds
  the outbox, the events not fanned out yet, one session with its queues and holds, the FIFO channel
  both ways, and the client's cursor, buffer and catch-up. Emits, prunes, fan-outs (late, reordered,
  repeated), each await inside a request, disconnects and host restarts that lose a tail are
  separate actions. `OpClaim` is the operation log of the same hub.
- **Schedules** (`Calendar`, `Cron*`, `Strings`). The Gregorian calendar by day numbers, the five
  fields and their grammar (`CronGrammar`, `CronParse`), the meaning of the day fields on the date
  itself (`CronLaws`), the bounded search and the counting loop over it. A zone is a function from
  instants to offsets.
- **Routines** (`Routines`, `RoutineRuns`). The row, the jobs queued so far and the sweeps in
  progress, a sweep being four steps that may crash in between and cross with others and with the
  user's calls.
- **Memories** (`Memory*`). The rows, the pending and the writing batches, and the check that holds
  the lock, in steps: snapshot, read, decision. Writing transactions open and end in between.
  `MemoryEdits` and `MemoryTurns` say what each edit, and each committed turn, leaves in the rows.
- **Turns, jobs, messages, requests** (`Lifecycle*`, `JobTable`, `Questions`, `Recovery`). One job's
  rows with every attempt that still may write to them (`LifecycleOutcomes`: what each transaction
  stores, and who is owed each status, result and approval), and the host's tables for the startup
  sweep and the lanes.
- **Smaller cores** (`Relocation`, `Compaction`, `Paging`, `Cidr*`). The git relocation as
  file-system steps that can fail or crash anywhere, history compaction, cursor paging, and the
  network test of the web client.

## What turned out not to hold as written

Each of these is a lemma with a concrete case and a lemma that gives the exact condition, or the
guard under which the promise holds.

- A client whose buffer of 500 is full behind a gap, with `(head - next) % 501 == 500`, asks for the
  same page for ever: the overflow is tested before the awaited event is handed over
  (`CatchUpRounds.CatchUpEndsUnlessWedged`, `CatchUpRuns.ServingWedgedIsVain`,
  `CatchUpRuns.WedgeIsReached`).
- An outbox pruned to no row answers an empty page instead of asking for a resync, so a client can
  be silently behind until the next event, and a held frame can be dropped for good
  (`CatchUpComplete.EmptiedStoreLandsEarly`, `HubModel.EmptiedStoreDropsHeldEvent`).
- A host restored from a backup that has since grown to the client's cursor is not noticed, and a
  buffered event of the lost log can be handed over later (`Restores.RestoreNoticedIff`,
  `Restores.BufferOutlivesRestore`, `ReplicationSafety.RestoreGoesUnnoticed`).
- A claimed operation cut off after its work, before any emit, runs again
  (`OpClaimModel.WorkCompletesOnce`, `OpClaimModel.RunsAgainIff`).
- A nine-year search can miss an accepted schedule whose starred day field narrows the other one
  (`CronBound.SearchGivesUp`; `CronPeriod.SearchServesIff` says for which schedules it never does).
- A sweep that is overtaken by another schedule and a late budget restart puts the cursor at a time
  that the stored schedule never runs at (`RoutinesModel.OvertakenMisplaces`,
  `RoutinesModel.CursorMoves`).
- The bytes a budget check counts may exceed the budget, though what is pinned never does
  (`MemoryRuns.CountMayExceed`). A turn that changes the tier of one stored memory twice spoils its
  own commit (`MemoryTurns.SecondPromiseBlocks`; `MemoryTurns.TurnLands` gives what lands
  otherwise).
- Queueing on a lane stores the job before its message, and a worker in between makes a second turn
  (`LifecycleResults.AttachKeepsOneIff`, `LifecycleResults.ClaimBeforeAttach`). A blocking question
  of a cancelled attempt reopens its turn (`LifecycleResults.AskKeepsOneIff`). A failure recorded by
  job can fail a later attempt (`LifecycleResults.FailureByJobSparesIff`,
  `LifecycleResults.LateFailureFailsRetry`).
- A crash between creating and writing the `.git` pointer leaves it empty, and later attempts take
  it for good (`RelocationModel.RerunRelocatesIff`, `RelocationModel.CrashInPointerWrite`).
- Compaction keeps calls for the recent messages only: an older message kept for its capability part
  may answer a call that was summarized away (`CompactionModel.OutputAnswersIff`,
  `Compaction.KeptReturnCanDangle`).
- A network written as a mapped IPv4 address counts its prefix in 32 bits
  (`CidrModel.MappedNetworkIff`).

## What the runs assume

- The session serves one request at a time, as its receive loop does; a socket delivers in order
  until it closes.
- A zone reads `fold=0` as PEP 495 does: the first occurrence of a wall time is the earliest instant
  that shows it, first occurrences are ordered like their wall times, and no offset reaches a day.
  The calendar begins in year 1 and has no end.
- The clock of the routines does not go back. `RoutinesModel.CatchUpIsOneRun` speaks of sweeps that
  begin after the outage, as every sweep of a restarted host does.
- No operation edits a memory row that an open writing transaction names, two such transactions name
  different rows, a turn writes once at a time, memory ids are new, and the budget is constant.
- `persist_queued_cancel` and the claim of a job exclude each other by the job lock; interrupting,
  cancelling and parking a job in `reroute` is one locked step; one turn has one job. A run attaches
  a message only to a job without one and without an open turn, and a cancelled attempt asks no
  blocking question; the three lemmas named above say exactly what these exclude.

## Model

| member | source | states |
|---|---|---|
| ReplicationSafety.HandsOverTheLog | web/src/client/connection.ts:1138-1173 | Over every run from any outbox and any saved cursor (emits, prunes, fan-outs in any order or twice, requests cut at every await, disconnects, host stops and restores): what the handlers got since the last cursor reset is exactly the consecutive log from there to the cursor, unless the client is marked, which happens when it starts beyond the log or a stop of the host loses a position it holds, until its next reset |
| Restores.HandsOverUnlessCut | web/src/client/connection.ts:1138-1173 | So in every run in which the client starts within the log and no stop of the host loses a position the client holds, the client hands over exactly the log |
| Restores.RestoreNoticedIff | web/src/client/connection.ts:1015-1035 | After a restore to any shorter log, any growth and the next welcome: the client is in order again if and only if it is ahead of the host by then, or all it handed over above the cut was emitted again just as it was |
| Restores.RestoreMarksIff | web/src/client/connection.ts:1015-1035 | It stays marked if and only if the cut lost a position it holds, handed over or buffered, and the host has grown to its cursor by then; otherwise it agrees with the host again |
| Restores.BufferOutlivesRestore | web/src/client/connection.ts:1138-1173 | The case where only the buffer reaches past the cut, for any buffer with room and any cut at or above the cursor: however the host then serves, the client lands at the head with the events it kept handed over in place of the host's, so it is in order if and only if each of them was emitted again just as it was |
| Restores.BufferedSecond | web/src/client/connection.ts:1138-1173 | A client with only its buffer ahead is reached from an empty host and a fresh client |
| ReplicationSafety.CutAgreesIff | web/src/client/connection.ts:1138-1173 | A client that agrees with a log agrees with its first entries if and only if they reach every position it holds |
| ReplicationSafety.SafeStep | host/src/sevn/protocol/session.py:180-219 | The invariant behind it (everything queued, sent, held, deferred or buffered is an entry of the log; the client agrees with the log unless a restore contradicted it) is kept by every step of host, session, channel and client |
| ReplicationSafety.RunSafe | host/src/sevn/protocol/session.py:180-219 | The same invariant after any number of steps |
| ReplicationSafety.ResetAgrees | web/src/client/connection.ts:1015-1035 | Each cursor reset (first welcome, a welcome below the cursor, a resync answer) makes the client agree with whatever log the host now has, whatever it held before |
| ReplicationSafety.RestoreGoesUnnoticed | web/src/client/connection.ts:1015-1035 | The exception is real: a host that lost its tail and wrote another event in its place welcomes a client without a reset, and what was handed over is not the log |
| ClientPlaces.FirstWelcomeSkips | web/src/client/connection.ts:1015-1035 | In every run: the first welcome puts a client without a saved cursor at the host's position, and however the run goes on, no event up to there is handed over before a welcome below the cursor or a resync; a saved cursor above 0 stays where it is, unless the host is below it, and then the client starts over from 0 |
| ClientPlaces.WelcomedIff | web/src/client/connection.ts:1015-1035 | In every run: the client counts as welcomed if and only if a welcome arrived |
| ClientPlaces.ArrivalPlaces | web/src/client/connection.ts:1015-1035 | In every run, over any host: a welcome below the cursor starts over from 0 with nothing kept, the first welcome of a client without a saved cursor skips to the host, any other welcome leaves the place alone, a resync goes right below the oldest row, each of them asks from there, and a refusal ends the catch-up where it is; no other frame places the cursor anew |
| ClientPlaces.PagesLeadOn | web/src/client/connection.ts:1198-1237 | Whatever page a host sends: the client asks on only from above the place it asked last, or once more from its cursor for a hint that came up meanwhile |
| ClientPlaces.HandedInOrder | web/src/client/connection.ts:1138-1173 | In every run, even over hosts restored to other logs: what was handed over since the last reset is numbered on from there without a gap, up to the cursor |
| LogRuns.LogIsEmitted | host/src/sevn/store/outbox.py:36-68 | As long as the host keeps its log, it is what it was at the start and then exactly the emitted events, in order, each with its kind and data under the next number |
| LogRuns.HandsOverTheEmitted | web/src/client/connection.ts:1138-1173 | So the handlers get the events that were emitted, with their kind and data |
| LogRuns.PrunedStayGone | host/src/sevn/store/outbox.py:70-81 | A pruned row is never read again: a later read from below it asks for a resync at the oldest row, or finds no row left |
| LogRuns.OnlyPrunedGo | host/src/sevn/store/outbox.py:99-113 | The pruned front only grows, and only to a position that was pruned to |
| CatchUpComplete.QuiescentClientIsCaughtUp | web/src/client/connection.ts:1198-1237 | In every run: when nothing is on its way any more, every event was fanned out, and the last catch-up was not refused, the client has everything up to the head, although buffers overflowed and were cleared meanwhile; the one exception is a read of the run that found rows missing and none left, and without such a read there is none, however much was pruned |
| CatchUpComplete.LandedCatchUpIsComplete | web/src/client/connection.ts:1198-1237 | In every run: when a catch-up has landed and the events up to the `host_seq` of its last page that were sent have arrived, the client has delivered every event up to there, unless a read of the run found the store emptied; rows pruned in any other way, events that still wait for their fan-out, or are queued above it, do not matter |
| CatchUpComplete.ToldStep | host/src/sevn/protocol/hub.py:144-163 | No page on its way or received tells a position above the last one read, through every step |
| CatchUpComplete.OwesStep | web/src/client/connection.ts:1186-1237 | Whatever the client still lacks stays owed to it by a queued frame, a request in the air, a flight or a pending hint, through every step |
| CatchUpComplete.RunOwes | web/src/client/connection.ts:1186-1237 | The same debt is tracked over whole runs, together with the safety invariant |
| CatchUpComplete.EmptiedStoreLandsEarly | host/src/sevn/protocol/hub.py:144-163 | The exception is real: over a store with no row left, the answer to any cursor below the head ends the catch-up where it began |
| CatchUpRounds.CatchUpEndsUnlessWedged | web/src/client/connection.ts:1156-1160 | Without new emits, any client whose page is all that is on its way, with or without a hint left over, is caught up after at most two rounds if and only if it is not the case that its buffer is full and `(head - next) % 501 == 500`; in that case every later round asks for the same page and hands over nothing |
| CatchUpRounds.WedgedForever | web/src/client/connection.ts:1156-1160 | A wedged client is wedged after any number of rounds, with cursor and delivered events unchanged |
| CatchUpRounds.RoundReturns | web/src/client/connection.ts:1198-1237 | A flight that is ahead of a gap comes back to the cursor after its last page, with nothing handed over |
| CatchUpRounds.MissingFirstWedges | web/src/client/connection.ts:1156-1160 | A fresh client that got 500 of 501 events, all but the first, is wedged |
| CatchUpRuns.RestingWaits | web/src/client/connection.ts:1186-1237 | In every run, a client in flight with nothing else on its way is one the round theorems speak of |
| CatchUpRuns.ServingEndsCatchUp | web/src/client/connection.ts:1198-1237 | Every way in which the host and the channel can serve such a client whose buffer is not wedged: a number of pages bounds the steps that do something, and where no step is left the client has landed at the head (one asking below the pruned rows is rescued by a resync, wedged or not) |
| CatchUpRuns.ServingWedgedIsVain | web/src/client/connection.ts:1156-1160 | Every way in which a wedged client can be served: it hands over nothing, keeps its cursor, and there is always another step |
| CatchUpRuns.WedgeIsReached | web/src/client/connection.ts:1156-1160 | From an empty host and a fresh client: 501 ordinary events of which the first is fanned out before the socket is attached; then the host may serve as it will, and the client hands over nothing and never stops asking |
| ServingRuns.ServingPlays | host/src/sevn/protocol/hub.py:144-163 | However the steps of host, queue and channel interleave while nothing new is emitted: until a slow client is closed, what it got and will still get are the pages of its own requests, one after the other; a queue of more than 400 frames is never closed |
| ServingRuns.EndIsLanded | web/src/client/connection.ts:1198-1237 | Where serving can go no further, the client has landed, with all its frames received |
| CatchUpRuns.PagesOfRounds | host/src/sevn/protocol/hub.py:144-163 | Those pages make up the rounds of the client functions, any number of them |
| CatchUpRuns.PageOfTwoHundred | web/src/client/connection.ts:1198-1237 | A page over a log in full brings the next two hundred events, and the flight goes on exactly if there were more |
| CatchUpRuns.VainPages | web/src/client/connection.ts:1156-1160 | After any number of pages a wedged client meets the awaited event with a full buffer, or is filling up to one |
| CatchUpRounds.RoundLands | web/src/client/connection.ts:1198-1237 | A round that starts with room in the buffer delivers the whole log and ends the flight (measure: events still missing) |
| CatchUpRounds.RoundOverflows | web/src/client/connection.ts:1156-1160 | A round that starts with a full buffer discards the very event it waited for and leaves a buffer of a size given in closed form |
| CatchUpRounds.RoundPlaysServe | host/src/sevn/protocol/hub.py:144-163 | The page and answer a round plays are the ones the hub serves for that cursor |
| HubModel.RequestOrder | host/src/sevn/protocol/session.py:388-398 | One `sync.since`, with frames fanned out before, during and after the hold: the session queues the response, then the page ascending, then the surviving held frames, then what came later; it closes only when the queue would overflow |
| HubModel.HeldEventOnce | host/src/sevn/protocol/hub.py:144-163 | An event above the cursor that was fanned out once while frames were held appears at most once, and exactly once if and only if it is above the head that was read or the cursor is not below the pruned rows |
| HubModel.DroppedAreCovered | host/src/sevn/protocol/session.py:201-209 | With a page, the held frames dropped are exactly the events at or below the cursor or in the page |
| HubModel.EmptiedStoreDropsHeldEvent | host/src/sevn/protocol/hub.py:144-163 | Without that exception the previous rules are false: an emptied store answers an empty page and the release drops an event the client never saw |
| HubModel.ServedPage | host/src/sevn/protocol/hub.py:144-163 | The page is the consecutive run of log entries after the cursor; when there is more, the next cursor is its last entry and strictly advances; a resync names the oldest row and is asked exactly below it |
| Outbox.SinceIsConsecutive | host/src/sevn/store/outbox.py:70-81 | A read either asks for a resync, exactly when rows between cursor and store are gone, or returns consecutive rows from the cursor that stop early only at the head or in an emptied store |
| SessionModel.EnqueueAllAppends | host/src/sevn/protocol/session.py:211-219 | A session still open after queueing has queued everything in order; it never closes when the frames fit |
| SessionModel.DeliverAllDefers | host/src/sevn/protocol/session.py:180-189 | During a request with no hold, delivered frames all wait behind the response, in order |
| SessionModel.DeliverAllHolds | host/src/sevn/protocol/session.py:180-192 | While live frames are held, delivered frames are all held, in order |
| SessionModel.ReplayAllDefers | host/src/sevn/protocol/session.py:194-199 | A replayed page during a request waits behind the response, in order, held frames or not |
| SessionModel.SurvivingCounts | host/src/sevn/protocol/session.py:201-209 | The release keeps each wanted frame exactly as often as it was held, and no other |
| SessionModel.SurvivingMembers | host/src/sevn/protocol/session.py:201-209 | A frame survives the release if and only if it was held and is not an event at or below the high-water mark |
| SessionModel.OpensWithWelcome | host/src/sevn/protocol/session.py:370-386 | How a session opens: nothing fanned out before it is ready reaches it, the welcome is its first frame, and then come the frames fanned out from there on, in order |
| Session.SessionPeer.Enqueue | host/src/sevn/protocol/session.py:211-219 | The session after queueing one frame on the bounded queue, and nothing else changed |
| Session.SessionPeer.Deliver | host/src/sevn/protocol/session.py:180-189 | Where a live frame goes: dropped, held, deferred or queued |
| Session.SessionPeer.HoldLive | host/src/sevn/protocol/session.py:191-192 | Starts holding live frames and changes nothing else |
| Session.SessionPeer.Replay | host/src/sevn/protocol/session.py:194-199 | A replayed frame passes the hold |
| Session.SessionPeer.ReleaseLive | host/src/sevn/protocol/session.py:201-209 | Ends the hold and delivers exactly the surviving frames in order |
| Session.SessionPeer.BeginRequest | host/src/sevn/protocol/session.py:388-390 | Frames wait from here on |
| Session.SessionPeer.EndRequest | host/src/sevn/protocol/session.py:391-398 | Response first, then what was deferred, in order |
| Session.SessionPeer.EnterReady | host/src/sevn/protocol/session.py:370-386 | The welcome precedes every event of the session |
| Session.SessionPeer.SendOne | host/src/sevn/protocol/session.py:400-419 | One frame leaves from the front of the queue and none is lost or reordered; a closing session sends nothing |
| Hub.Hub.Attach | host/src/sevn/protocol/hub.py:77-86 | A session becomes a receiver and no other does |
| Hub.Hub.Fanout | host/src/sevn/protocol/hub.py:215-219 | Every session gets the frame delivered, each against its own earlier state |
| Hub.Hub.Emit | host/src/sevn/protocol/hub.py:124-135 | The row is appended at the head first, then that very event is delivered to every session |
| Hub.Hub.SyncSince | host/src/sevn/protocol/hub.py:144-163 | The imperative page replay with its running high-water mark answers and leaves the session as the served page and the release specify, for whatever was fanned out between its awaits |
| Hub.Hub.ReplayPage | host/src/sevn/protocol/hub.py:156-157 | The replay loop over a page, on the session object, is the ordered replay |
| Hub.Hub.Arrive | host/src/sevn/protocol/hub.py:215-219 | Frames that arrive one after another, on the session object, are delivered in order |
| ClientModel.AcceptAgrees | web/src/client/connection.ts:1138-1173 | A log event keeps the agreement of cursor, buffer and handed-over events with the log, and the awaited event is handed over whenever the buffer has room |
| ClientModel.AcceptWithoutFlight | web/src/client/connection.ts:1138-1173 | With no catch-up in the air, an event is handed over with nothing kept lost, or starts a catch-up from at most the cursor |
| ClientModel.AcceptDuringFlight | web/src/client/connection.ts:1138-1173 | During a catch-up an event ends up handed over or makes the loop run once more |
| ClientModel.DrainAgrees | web/src/client/connection.ts:1161-1172 | Handing over the buffered run keeps the agreement and stops only at an event that is missing |
| ClientModel.SettleAgrees | web/src/client/connection.ts:1156-1172 | What an overflow throws away is asked for again; otherwise nothing is lost |
| Client.Connection.CatchUp | web/src/client/connection.ts:1186-1196 | Starts one catch-up, or marks the one in the air to look again |
| Client.Connection.AcceptEvent | web/src/client/connection.ts:1138-1173 | The handler on the closure variables moves the client as specified |
| Client.Connection.HandOverRun | web/src/client/connection.ts:1161-1172 | The drain loop hands over exactly the consecutive buffered run |
| Client.Connection.OnWelcome | web/src/client/connection.ts:1015-1035 | First-welcome skip, rewind below the cursor, or catch-up above it |
| Client.Connection.OnReply | web/src/client/connection.ts:1198-1237 | One continuation of the replay loop: next page, resync, another look, or landing |
| Client.Connection.AskFor | web/src/client/connection.ts:1200-1207 | Each round forgets older hints before it asks |
| Client.Connection.OnClose | web/src/client/connection.ts:1050-1090 | A closed socket ends the flight and keeps the cursor |
| OpClaimModel.WorkCompletesOnce | host/src/sevn/protocol/hub.py:168-206 | Any number of calls sharing an operation id within one retention, failing, cut off or retried: the work completes more than once if and only if a call was cut off right after completing work that stored no event, and a later one completes before any call left a row |
| OpClaimModel.CompletionsApart | host/src/sevn/protocol/hub.py:168-206 | At any times, from any row: after a call that completed the work and left a trace, the work completes again only for a call that starts more than one retention later |
| OpClaimModel.RunsAgainIff | host/src/sevn/protocol/hub.py:168-206 | For a first completing call and the next one: the work runs again if and only if the first left no trace or its row expired |
| OpClaimModel.CompletedIsStored | host/src/sevn/protocol/hub.py:168-206 | Once the work completed, a row stands for it after any further calls |
| OpClaimModel.KeptResultAnswers | host/src/sevn/protocol/hub.py:240-244 | Through any sequence of calls within its retention a kept result stays, answers each call of the same operation, and refuses another method, or other parameters against a stored hash; none of them runs the work |
| OpClaimModel.RetryAfterFailure | host/src/sevn/protocol/hub.py:168-206 | A failed operation can be retried as if fresh; one cut off in its work can be retried if and only if it had stored no event |
| OpClaimModel.AnswersAreOwed | host/src/sevn/protocol/hub.py:168-206 | Any calls sharing an op id, at any times: a call that runs the work to its end gets the work's own result; every answer without work is owed to one earlier call: the form that call kept for the same method and parameters, a refusal of any other operation, or "in progress" against the mark of a call that was cut off |
| OpClaimModel.RowStandsADay | host/src/sevn/store/oplog.py:34-43 | A row answers for a day, through every call that does not run the work; a later call finds as good as no row |
| OpClaimModel.RowIsLeft | host/src/sevn/protocol/hub.py:196-205 | Whatever row stands was left as it stands by one of the calls: with its operation and the kept form of its own result, or as the mark of an event it had stored |
| OpClaim.OpLog.Lookup | host/src/sevn/store/oplog.py:34-44 | Finds the row or deletes an expired one; other operations untouched |
| OpClaim.OpLog.ForgetPending | host/src/sevn/store/oplog.py:54-61 | Removes a pending mark and never a kept result |
| OpClaim.OpLog.ClaimOp | host/src/sevn/protocol/hub.py:168-206 | The imperative claim answers and leaves the table as specified, touching no other operation |
| Cron.NextAfter | host/src/sevn/domain/cron.py:80-101 | The day, hour and minute loops return the least slot strictly after `after` (skipped wall times never, repeated ones at their first occurrence); an error means the searched days hold no slot; no error for accepted schedules under the guard in a zone that skips nothing |
| Cron.RunsBetween | host/src/sevn/domain/cron.py:104-121 | The counting loop returns the number of distinct slots in `(start, end]`, capped at `limit` |
| CronModel.FirstDayCut | host/src/sevn/domain/cron.py:88-97 | The hour and minute cut of the first day discards no later slot |
| CronModel.StartsAtNextMinute | host/src/sevn/domain/cron.py:84-87 | Starting at the next full minute discards no later slot |
| CronModel.SkipInstant | host/src/sevn/domain/cron.py:178-185 | A wall time that is skipped, or whose instant is not later, is passed over without loss |
| CronModel.FoundIsFirst | host/src/sevn/domain/cron.py:178-185 | The first surviving candidate is a slot and the least one after `after` |
| CronModel.CountOneMore | host/src/sevn/domain/cron.py:112-121 | Stepping to the next slot adds exactly one to the set of slots |
| CronLaws.EitherDayField | host/src/sevn/domain/cron.py:157-167 | With both day fields restricted a schedule runs exactly at the times of its date half and of its weekday half |
| CronLaws.BothDayFields | host/src/sevn/domain/cron.py:157-167 | With a starred day field it runs exactly at the times of both |
| CronLaws.DatesOnlyRuns | host/src/sevn/domain/cron.py:157-167 | The date half, on any real date and clock time: it runs exactly when month, day, hour and minute are all listed and no earlier instant shows that time |
| CronLaws.WeekdaysOnlyRuns | host/src/sevn/domain/cron.py:157-167 | The weekday half: exactly when month, weekday (counted from Monday, 1 January of year 1, with Sunday as 0), hour and minute are listed and no earlier instant shows that time |
| CronLaws.SlotsAreWhole | host/src/sevn/domain/cron.py:84-97 | Every slot is at a whole minute of a day, so these say what all slots are |
| CronLaws.NextOfEither | host/src/sevn/domain/cron.py:80-101 | The next run of a schedule with both day fields restricted is the earlier of the next listed date and the next listed weekday |
| CronLaws.MonthsEnd | host/src/sevn/domain/cron.py:88-101 | The calendar day by day: how long each month is, leap years included |
| CronBound.CanMatchIff | host/src/sevn/domain/cron.py:170-175 | A parsed schedule passes the test if and only if some real date of the Gregorian calendar matches it |
| CronBound.SearchFinds | host/src/sevn/domain/cron.py:40-101 | In a zone without skipped times, nine years of 366 days are enough for every accepted schedule that admits all weekdays (29 February across 1900 or 2100 included), and also for those that admit all days or restrict both day fields |
| CronPeriod.SearchServesIff | host/src/sevn/domain/cron.py:80-101 | In a zone whose clock never jumps, the search finds a run from every moment if and only if, over one 400-year cycle of the calendar, no two matching days in a row are further apart than it looks |
| CronPeriod.UtcIsSteady | host/src/sevn/domain/cron.py:80-101 | UTC is a zone that this speaks of |
| CronPeriod.ServedIsDense | host/src/sevn/domain/cron.py:80-101 | In any zone that skips nothing, a schedule served from every moment has no such gap |
| CronPeriod.SpareSearchFinds | host/src/sevn/domain/cron.py:80-101 | And a schedule whose gaps leave three days to spare is served from every moment, clocks set back included |
| CronPeriod.EagerIsDense | host/src/sevn/domain/cron.py:40-101 | Every accepted schedule that admits all weekdays, or meets the wider guard, has those days to spare |
| CronPeriod.CycleRepeats | host/src/sevn/domain/cron.py:88-101 | Every date comes again after 146097 days, on the same day of the week |
| CronBound.SearchGivesUp | host/src/sevn/domain/cron.py:40-101 | The guard is needed: `29 2 */7` is accepted, yet the search from 1 March 2004 ends without a run |
| CronBound.LeapSundayMatches | host/src/sevn/domain/cron.py:157-175 | That schedule passes every test and does match 29 February 2032 |
| Calendar.OrdinalOfDate | host/src/sevn/domain/cron.py:88-101 | Day number to date and back |
| Calendar.DateOfOrdinal | host/src/sevn/domain/cron.py:88-101 | Date to day number and back, for every real date |
| Calendar.OrdinalOrders | host/src/sevn/domain/cron.py:88-101 | Later dates have larger day numbers |
| Calendar.LeapWithinEight | host/src/sevn/domain/cron.py:40-41 | Some leap year lies within any eight years |
| Calendar.DayComesRound | host/src/sevn/domain/cron.py:40-41 | Every day a month can have comes round within the search bound |
| Calendar.FirstWeek | host/src/sevn/domain/cron.py:40-41 | Every month shows every weekday within the search bound |
| Calendar.DayOnWeekday | host/src/sevn/domain/cron.py:170-175 | Every possible day of a month falls on every weekday in some year |
| CronGrammar.ItemRead | host/src/sevn/domain/cron.py:124-154 | A written item (star, number or name, range, step) is accepted exactly when it means something legal, and then stands for exactly those numbers |
| CronGrammar.FieldRead | host/src/sevn/domain/cron.py:124-146 | A comma list in any case is accepted if and only if every item is, and is the union of their meanings |
| CronGrammar.EverySeventhWeekday | host/src/sevn/domain/cron.py:66-76 | `*/7` as weekday field leaves Sunday alone and still counts as a star |
| CronGrammar.AcceptedField | host/src/sevn/domain/cron.py:124-154 | Nothing else is accepted: every accepted field is a comma list of such items, numbers with leading zeros and empty steps included |
| CronField.Field | host/src/sevn/domain/cron.py:124-146 | The parsing loop returns the field the grammar lemmas are about |
| CronText.FieldWithin | host/src/sevn/domain/cron.py:124-146 | An accepted field is nonempty and within its limits |
| CronText.StarPart | host/src/sevn/domain/cron.py:124-146 | A star item, stepped or not, holds the lower limit |
| CronText.ParsedIsWellFormed | host/src/sevn/domain/cron.py:57-77 | Everything the parser accepts is a schedule that the search and the acceptance lemma above apply to |
| CronParse.ParseAcceptsIff | host/src/sevn/domain/cron.py:57-77 | Five fields are accepted if and only if they are written as lists of items that all mean something legal, and some real date is one they run on |
| CronParse.ParseReads | host/src/sevn/domain/cron.py:57-77 | However five fields are written: the schedule has the numbers of each field in its place and the marks of the starred day fields, and matches exactly the days it is written for (both day fields when one is starred, either one otherwise) |
| CronParse.NamesInOrder | host/src/sevn/domain/cron.py:30-39 | The only names: the months from January as 1, the weekdays from Sunday as 0 |
| CronParse.StarLeavesTheOther | host/src/sevn/domain/cron.py:157-167 | `*` as day field leaves exactly the listed weekdays of the months, `*` as weekday field exactly the listed dates |
| RoutinesModel.OneJobPerSlot | host/src/sevn/domain/routines.py:219-281 | In every run with crashes between the steps of a sweep, sweeps that compete and overtake each other, pauses, resumes, updates, cancels and budget pauses: a slot gets at most one job, and none before it is due |
| RoutinesModel.InvStep | host/src/sevn/domain/routines.py:219-281 | While sweeps do not overtake each other, a sweep that may still move the cursor works with the stored schedule, through every step |
| RoutinesModel.SaneStep | host/src/sevn/domain/routines.py:219-281 | What one job per slot rests on is kept by every step, whatever overtakes what |
| RoutinesModel.CursorMoves | host/src/sevn/domain/routines.py:268-281 | In every run a sweep leaves the row alone, or moves the cursor from the slot it read to the first run after its own time; that is the first run of the stored schedule if and only if the schedule it read has the same one |
| RoutinesModel.PunctualCursorMoves | host/src/sevn/domain/routines.py:268-281 | It always is when sweeps do not overtake each other |
| RoutinesModel.OvertakenMisplaces | host/src/sevn/domain/routines.py:268-345 | When one does: a budget pause, a new schedule and a restart by an earlier sweep, and the cursor ends at a time the stored schedule never runs at |
| RoutinesModel.SweepRestartsNothing | host/src/sevn/domain/routines.py:268-281 | In every run, a sweep never restarts a routine paused or cancelled after it was read |
| RoutinesModel.CatchUpIsOneRun | host/src/sevn/domain/routines.py:219-281 | After any outage, over every run with crashes, competing and overtaking sweeps, pauses, resumes, updates, cancels and budget pauses whose sweeps read the clock after it: of all the slots up to the end of the outage only the one the cursor stood at may still get its job, once |
| RoutinesModel.AloneIs | host/src/sevn/domain/routines.py:219-281 | A sweep that nothing interrupts queues exactly that slot (unless it has its job or the bot is paused) and moves the cursor past every other slot up to now |
| RoutinesModel.NothingDueUntilFollowing | host/src/sevn/domain/routines.py:188-216 | Further sweeps before the next slot find nothing due |
| RoutinesModel.CrashAfterQueue | host/src/sevn/domain/routines.py:219-281 | A sweep that crashed between queueing and moving the cursor is finished by the next one, without a second job |
| RoutinesModel.LaggingBudgetIff | host/src/sevn/domain/routines.py:300-345 | A budget restart while a sweep is about to move the cursor: the cursor ends on a first run of the stored schedule if and only if the restart did not put it back on the sweep's slot, or the sweep read a schedule with the same next run |
| RoutineRuns.RowIsDecided | host/src/sevn/domain/routines.py:152-185 | In every run with whatever sweeps, crashes and budget stages: the routine is active, paused by the user, paused by its budget or cancelled exactly as the last call or budget stage that decides it said, goes by the schedule of the last update, and has a cursor exactly while it is active |
| RoutineRuns.PauseHolds | host/src/sevn/domain/routines.py:152-160 | From a pause by the user until a resume, no sweep finds the routine due, whatever sweeps and budget stages run |
| RoutineRuns.CancelIsFinal | host/src/sevn/domain/routines.py:177-185 | A cancelled routine stays so, with its row as it was left |
| RoutineRuns.ResumeStarts | host/src/sevn/domain/routines.py:162-175 | A resume starts at the first run of the schedule after now, and marks the time exactly when it overrides a budget pause |
| RoutineRuns.ResumedKeepsRunning | host/src/sevn/domain/routines.py:300-345 | Once the owner resumed a routine that its budget had paused, no budget stage of that day pauses it again |
| RoutineRuns.BudgetPauseEnds | host/src/sevn/domain/routines.py:300-345 | A budget pause is ended by the stage that finds the budget no longer over, at the first run from there, and nothing else of the row changes |
| RoutineRuns.LastRunHasItsJob | host/src/sevn/domain/routines.py:268-281 | A last run is recorded only for a job that was queued for a slot due by then |
| Routines.Routine.First | host/src/sevn/domain/cron.py:80-101 | The first run of a schedule, or the search error |
| Routines.Routine.Pause | host/src/sevn/domain/routines.py:152-160 | A pause stops the cursor and keeps the jobs; a cancelled routine answers so and is unchanged |
| Routines.Routine.Resume | host/src/sevn/domain/routines.py:162-175 | A resume starts at the first run after now; any refusal changes nothing |
| Routines.Routine.Cancel | host/src/sevn/domain/routines.py:177-185 | Cancelling is final and keeps the jobs |
| Routines.Routine.Update | host/src/sevn/domain/routines.py:124-150 | A new schedule moves the cursor of an active routine to its first run after now; any refusal changes nothing |
| Routines.Routine.RunDue | host/src/sevn/domain/routines.py:188-216 | One sweep alone does exactly what the four steps of the run model do; not due or failing, it changes nothing |
| MemoryRuns.PinnedWithinBudget | host/src/sevn/memory/store.py:379-400 | In every run of staged saves, promotions, demotions, deletes, rollbacks, two-phase commits and user edits over many turns, with every check split into snapshot, read and decision: committed pinned bytes never exceed the budget |
| MemoryRuns.SoundStep | host/src/sevn/memory/store.py:331-400 | Committed and still-live promised bytes together stay within the budget, and a check in progress stays justified, through every step |
| MemoryRuns.RunSound | host/src/sevn/memory/store.py:331-400 | The same over whole runs |
| MemoryRuns.EffectKeeps | host/src/sevn/memory/store.py:68-92 | An operation paid for by its check leaves all live bytes within the budget |
| MemoryRuns.NewRevisionVoids | host/src/sevn/memory/store.py:175-201 | A new revision of a recall row voids every promise to pin it |
| MemoryRuns.StalePromiseBlocksBatch | host/src/sevn/memory/store.py:331-363 | A turn one of whose promises is stale lands nothing at all, commit or not |
| MemoryRuns.CountMayExceed | host/src/sevn/memory/store.py:379-400 | The counted total itself can exceed the budget, when a row grew after it was promised, while nothing live does |
| MemoryBudget.CountCoversLive | host/src/sevn/memory/store.py:379-400 | What a check counts covers all live bytes, snapshot older than the read or not |
| MemoryBudget.BatchLands | host/src/sevn/memory/store.py:331-363 | Where an applied batch leaves each row: inserted, moved with a new revision, deleted or untouched |
| MemoryRuns.AppliedBatchCommits | host/src/sevn/memory/store.py:331-363 | In every run, a batch whose rows went in can still go in when its transaction commits: the user and the other turns left its rows alone |
| MemoryBudget.CommitShape | host/src/sevn/memory/store.py:129-145 | A commit keeps the bookkeeping of drafts, promises and rows consistent |
| MemoryBudget.CommitNoMore | host/src/sevn/memory/store.py:129-145 | A commit adds no live bytes: what it pins was reserved |
| MemoryStore.PerformedIsRun | host/src/sevn/memory/store.py:68-92 | An operation under the lock is its begin, read and finish steps in a row |
| MemoryStore.RefusedChangesNothing | host/src/sevn/memory/store.py:374-376 | A refused operation changes no row, draft or promise |
| MemoryEdits.DeleteIs | host/src/sevn/memory/store.py:203-217 | A user's delete is answered as done exactly when the memory was there; it is gone then, every other row, draft and promise is as before, and the pinned bytes drop by its own |
| MemoryEdits.SetTierIs | host/src/sevn/memory/store.py:147-173 | The tier edit: which refusal it gets exactly when, and otherwise the tier and the next revision on that row, text and origin kept, nothing else changed |
| MemoryEdits.UpdateTextIs | host/src/sevn/memory/store.py:175-201 | The text edit: which refusal it gets exactly when, and otherwise the new text and the next revision on that row, tier and origin kept, nothing else changed |
| MemoryEdits.CheckIsExact | host/src/sevn/memory/store.py:374-400 | An operation is refused for the budget if and only if it passed every guard and what would be counted once it took effect, reservations of all turns included, is more than the budget |
| MemoryEdits.DeletedForGood | host/src/sevn/memory/store.py:203-217 | In every run: once a stored memory is deleted, by the user or by a turn that commits, no later operation or commit stores a memory with its id again |
| MemoryTurns.StagedAnswers | host/src/sevn/memory/store.py:244-297 | Which refusal a staged operation gets exactly when: a tier change looks at the turn's own draft first |
| MemoryTurns.StagingCommutes | host/src/sevn/memory/store.py:244-297 | A staged operation changes no stored row and no other turn's batch; what the turn would store is what it would have stored before, edited directly |
| MemoryTurns.TurnLands | host/src/sevn/memory/store.py:119-145 | A turn that stages any drafts, tier changes and deletes and commits leaves exactly the rows that the same operations would have left as direct edits, one by one; until then, and after a rollback or a failed transaction, it leaves nothing |
| MemoryTurns.SecondPromiseBlocks | host/src/sevn/memory/store.py:331-363 | The one way a turn spoils its own commit: it promises a stored memory that it keeps a second time |
| MemoryTurns.RunTidy | host/src/sevn/memory/store.py:244-255 | In every run a staged delete is of a memory that was stored, never of a draft of its own turn |
| MemoryStore.AddUp | host/src/sevn/memory/store.py:379-400 | The summing loop is the sum |
| MemoryStore.MemoryStore.CountBatch | host/src/sevn/memory/store.py:379-400 | Adds exactly a batch's reservations, each memory once |
| MemoryStore.MemoryStore.PinnedBytes | host/src/sevn/memory/store.py:379-400 | Committed, pending and writing reservations, each memory counted once |
| MemoryStore.MemoryStore.RejectOverBudget | host/src/sevn/memory/store.py:374-376 | Rejects exactly what does not fit beside everything counted |
| MemoryStore.MemoryStore.Save | host/src/sevn/memory/store.py:68-92 | Stages a draft or refuses it; the whole new store |
| MemoryStore.MemoryStore.StageTier | host/src/sevn/memory/store.py:257-297 | Stages a promise or edits a draft, with its guards; the whole new store |
| MemoryStore.MemoryStore.StageDelete | host/src/sevn/memory/store.py:244-255 | Stages a delete; the whole new store |
| MemoryStore.MemoryStore.SetTier | host/src/sevn/memory/store.py:147-173 | The user's tier edit with its revision; the whole new store |
| MemoryStore.MemoryStore.UpdateText | host/src/sevn/memory/store.py:175-201 | The user's text edit with optimistic revision; the whole new store |
| MemoryStore.MemoryStore.Delete | host/src/sevn/memory/store.py:203-217 | The user's delete; the whole new store |
| MemoryStore.MemoryStore.ApplyBatch | host/src/sevn/memory/store.py:331-363 | The batch loops give the new rows, or a conflict exactly when some promise is stale |
| MemoryStore.MemoryStore.Write | host/src/sevn/memory/store.py:129-145 | Moves a batch from pending to writing and applies it; the whole new store |
| MemoryStore.MemoryStore.EndTransaction | host/src/sevn/memory/store.py:129-145 | Commit or rollback of the writing transaction releases its reservation |
| MemoryStore.MemoryStore.Rollback | host/src/sevn/memory/store.py:125-127 | Drops the pending batch of the turn and nothing else |
| LifecycleResults.OneOpenTurn | host/src/sevn/runtime/turn.py:549-612 | In every run of claims, pauses, answers, the cancel paths, failures, reroutes, crashes and sweeps, with late attempts still writing: a job has at most one queued, running or waiting turn and at most one user message |
| LifecycleResults.QueuedJobHasItsMessage | host/src/sevn/domain/jobs.py:149-223 | The message of a queued job is on the turn that will run |
| LifecycleResults.MessageKept | host/src/sevn/runtime/recovery.py:107-138 | A stored user message is never lost, and keeps its id and time, in any run |
| LifecycleResults.CancelIsFinal | host/src/sevn/runtime/turn_end.py:201-274 | Once a turn is cancelled its row never changes again, whatever follows |
| LifecycleResults.FinishedTurnHasNoApproval | host/src/sevn/runtime/turn_store.py:122-149 | In any run an unanswered approval belongs to a running or waiting turn |
| LifecycleResults.AttachKeepsOneIff | host/src/sevn/domain/routing.py:685-736 | Attaching a message keeps one open turn and one message if and only if the job has neither yet |
| LifecycleResults.ClaimBeforeAttach | host/src/sevn/domain/routing.py:394-457 | Queueing on a lane stores the job before its message: a claim in between gives two open turns and then two messages |
| LifecycleResults.FailureByJobSparesIff | host/src/sevn/runtime/turn_end.py:113-136 | A failure recorded by job spares every row if and only if the job is not to run, or the turn it finds waits for the user |
| LifecycleResults.LateFailureFailsRetry | host/src/sevn/runtime/turn_end.py:113-198 | The late failure of a cancelled attempt fails the attempt that replaced it |
| LifecycleResults.ResumedIsAnswered | host/src/sevn/runtime/recovery.py:173-213 | A turn is listed to resume only with every request settled and decisions for calls it really paused on |
| LifecycleOutcomes.JobStatusIsOwed | host/src/sevn/runtime/turn.py:351-508 | In every run: the status a job has come to was written by a step that decides it and has stood since; a job failed only when a failure was recorded for it, and is done only by the result of a turn that was not cancelled, or by the answers to its questions |
| LifecycleOutcomes.TurnStatusIsOwed | host/src/sevn/runtime/turn.py:549-734 | In every run: the status a turn has come to was written by a step of its own that decides it |
| LifecycleOutcomes.ResultIsOwed | host/src/sevn/runtime/turn.py:351-508 | In every run: the conversation stored with a turn is one that a pause or the end of that very turn gave it, while it was not cancelled |
| LifecycleOutcomes.FailureIsOwed | host/src/sevn/runtime/worker.py:190-196 | In every run: a failure waits to be recorded for a turn only if the resumed run of that turn raised since, and by job only if a claim or a first run did |
| LifecycleOutcomes.RunsInMemoryIff | host/src/sevn/runtime/turn.py:351-508 | In every run: a turn has a run in memory if and only if it was started or resumed, and since then the host did not crash and no run of it raised or stored its end |
| LifecycleOutcomes.ApprovedWasApproved | host/src/sevn/domain/pending.py:52-63 | In every run: an approval that counts as given was given by an answer that said so |
| LifecycleOutcomes.AnswerIsKept | host/src/sevn/domain/pending.py:52-63 | An answer is stored as it was given, and stands in every continuation of the run |
| LifecycleOutcomes.ResumedAsAnswered | host/src/sevn/runtime/recovery.py:198-213 | In every run: a turn is resumed with an approval of a call only if that call was approved |
| LifecycleOutcomes.DoneIs | host/src/sevn/runtime/turn.py:351-413 | A run that ends with a result: turn done with that very result, job done, message stored, nothing else |
| LifecycleOutcomes.WaitingIs | host/src/sevn/runtime/turn.py:415-462 | A run that pauses: turn waiting with its checkpoint, job as it was, one open approval for each call that asked |
| LifecycleOutcomes.CancelledIs | host/src/sevn/runtime/turn.py:464-508 | A cancel of a running turn, by its own run or from outside: no checkpoint, no open request, message stored, job cancelled |
| LifecycleOutcomes.CancelPausedIs | host/src/sevn/runtime/turn_end.py:252-347 | A cancel of a paused or a queued turn, and of no other |
| LifecycleOutcomes.FailedIs | host/src/sevn/runtime/turn_end.py:51-198 | Exactly which turn and job a recorded failure fails, by the turn it finds and what holds it |
| LifecycleOutcomes.ClosedIs | host/src/sevn/runtime/turn_end.py:277-308 | Exactly which paused turns of a lane are done once questions are answered, in terms of requests and calls alone, and when the job is done with them |
| LifecycleOutcomes.HeldIs | host/src/sevn/domain/pending.py:73-107 | What holds a turn: an open approval, or an open question asked to block |
| LifecycleOutcomes.AskedIs | host/src/sevn/tools/user.py:22-80 | A question is open from then on, and its turn waits exactly when it blocks |
| LifecycleOutcomes.RegisteredIs | host/src/sevn/runtime/turn.py:589-734 | A claimed job runs its queued turn, with its messages, or a new one, on its own lane |
| LifecycleOutcomes.ResumedIs | host/src/sevn/runtime/turn.py:615-655 | A turn resumed from its answers runs again with its checkpoint |
| LifecycleOutcomes.AttachedIs | host/src/sevn/domain/routing.py:685-736 | A routed message comes with its turn, queued to run or done |
| LifecycleOutcomes.ParkedIs | host/src/sevn/domain/jobs.py:149-223 | A moved job: what goes to the new lane, what goes to a new turn there, and what stays |
| LifecycleOutcomes.StoppedIs | host/src/sevn/domain/routing.py:204-259 | What a reroute finds running or waiting is cancelled first |
| LifecycleOutcomes.ResumedIff | host/src/sevn/runtime/recovery.py:173-195 | A turn is resumed after a restart if and only if its job was started with no Claude run cut off, no paused turn of the job has an open request, and it ran or waited with a checkpoint and a request settled for a call it paused on |
| LifecycleOutcomes.RequeuedIs | host/src/sevn/runtime/recovery.py:97-138 | A crashed job with nothing to go on from: running turns failed, the messages of its failed attempts on one new queued turn on the lane of the attempt it copies, nothing else changed |
| LifecycleOutcomes.InterruptedIs | host/src/sevn/runtime/recovery.py:227-292 | A Claude job cut off by a restart: exactly the turns cut off are interrupted, and exactly their open requests settled |
| LifecycleOutcomes.LeftAloneIs | host/src/sevn/runtime/recovery.py:43-94 | Every other job is left alone by the sweep, but for a started one all of whose attempts were cancelled |
| LifecycleResults.SweepTwice | host/src/sevn/runtime/recovery.py:43-94 | A second sweep of a job changes nothing and finds the same work, for all rows |
| LifecycleRuns.InvStep | host/src/sevn/runtime/turn_end.py:155-198 | Turns, message and requests of a job fit together after every step of every party |
| LifecycleSafety.ParkPlaced | host/src/sevn/domain/jobs.py:149-223 | Moving a job carries or recreates the turn that has its message |
| LifecycleSafety.ReroutePlaced | host/src/sevn/domain/routing.py:204-259 | Interrupting and moving a job as one locked step keeps message and turns in order |
| LifecycleSafety.RequeuePlaced | host/src/sevn/runtime/recovery.py:97-138 | Requeueing a crashed job leaves its message on a fresh queued turn |
| RecoveryModel.StartedJobsAccounted | host/src/sevn/runtime/recovery.py:43-94 | For the whole table: each started job ends queued on a lane that is kicked with no live turn, cancelled, waiting, in the resume list, or with a stored result |
| RecoveryModel.SweepAgainIsIdle | host/src/sevn/runtime/recovery.py:43-94 | A second sweep with new ids and any order changes no row of any job or agent, and returns the same kicks and resumes |
| RecoveryModel.SweepAllAt | host/src/sevn/runtime/recovery.py:43-94 | The loop over jobs sweeps each once and independently of the order |
| RecoveryModel.LanesGoIdle | host/src/sevn/runtime/recovery.py:141-156 | A lane that lost a crashed job is not left running with nothing live on it |
| RecoveryModel.LanesChangeOnly | host/src/sevn/runtime/recovery.py:141-156 | The sweep changes a lane only by making it idle, and only one that a job of its own left: because its Claude run was cut off, or with nothing live on it in the end |
| RecoveryModel.InterruptedIff | host/src/sevn/runtime/recovery.py:43-94 | A turn is interrupted by the sweep if and only if its started job is on the lane of a Claude agent and it was running, waiting or asking |
| LifecycleResults.SweepClassifies | host/src/sevn/runtime/recovery.py:43-94 | After the sweep a started job is queued with nothing live, cancelled, waiting, listed to resume, or holds a result |
| LifecycleResults.CancelledAttemptIsSilent | host/src/sevn/runtime/turn.py:351-508 | Whatever a cancelled attempt does at its end, however late and often (done, waiting or cancelled persists, raising and recording its failure), changes no row, requeued job or not |
| LifecycleResults.AskKeepsOneIff | host/src/sevn/tools/user.py:22-80 | A question leaves a cancelled turn cancelled if and only if it does not block; one that blocks leaves one open turn if and only if the job has none, which a requeued job has |
| Recovery.HostTables.Recover | host/src/sevn/runtime/recovery.py:43-94 | The imperative sweep leaves the tables, kicks and resume list of the specification |
| QuestionsModel.ClosesIff | host/src/sevn/runtime/turn_end.py:277-308 | Whatever the order of the answers, some repeated or too late: a paused turn is done in the end if and only if it was on the lane, nothing but the questions answered held it, and its latest response has no deferred approval |
| QuestionsModel.CloseThenSettle | host/src/sevn/runtime/turn_end.py:277-308 | Closing early and settling more afterwards equals settling all first |
| QuestionsModel.AnyOrderSameEnd | host/src/sevn/domain/routing.py:347-391 | Questions answered one by one, in any order, end as one answer to all of them; answers to nothing open change nothing |
| QuestionsModel.ReleasedIff | host/src/sevn/domain/routing.py:497-544 | After any answers, in any order, to questions of any jobs, a waiting lane is released if and only if the answers free every paused turn on it (nothing else holds it, no deferred approval); no other lane changes |
| QuestionsModel.ClaimEachIs | host/src/sevn/domain/routing.py:497-544 | Answers across jobs, with the lane looked at after each, come to all of them at once with one look in the end |
| QuestionsModel.AnswersSettle | host/src/sevn/domain/routing.py:547-573 | Exactly the open questions among those answered are settled, none as an approval; every other request is as it was |
| JobTable.JobRows.ResolveOpenPendings | host/src/sevn/runtime/turn_store.py:122-149 | Settles every unanswered request of the turn and no other |
| JobTable.JobRows.KeepUserMessage | host/src/sevn/runtime/turn_store.py:115-119 | A turn that has its message keeps it; otherwise one is stored |
| JobTable.JobRows.PersistRunningCancel | host/src/sevn/runtime/turn_end.py:201-249 | Writes exactly for a running turn; the whole new rows |
| JobTable.JobRows.PersistQueuedCancel | host/src/sevn/runtime/turn_end.py:252-274 | Writes exactly for a queued turn; the whole new rows |
| JobTable.JobRows.CancelPersistedWaiting | host/src/sevn/runtime/turn_end.py:311-347 | Writes exactly for a waiting turn; the whole new rows |
| JobTable.JobRows.Cancel | host/src/sevn/runtime/worker.py:261-289 | The three paths tried in order: one of them cancels turn and job exactly when the turn is open |
| JobTable.JobRows.RecordFailure | host/src/sevn/runtime/turn_end.py:50-99 | The failure path by turn or by job; the whole new rows |
| JobTable.JobRows.PersistDone | host/src/sevn/runtime/turn.py:351-413 | The end of a run, or nothing for a cancelled turn |
| JobTable.JobRows.PersistWaiting | host/src/sevn/runtime/turn.py:415-462 | A pause with its approvals and checkpoint, or nothing for a cancelled turn |
| JobTable.JobRows.PersistCancelled | host/src/sevn/runtime/turn.py:464-508 | The attempt's own cancel, or nothing when already cancelled |
| JobTable.JobRows.CloseQuestionTurns | host/src/sevn/runtime/turn_end.py:277-308 | The closing loop over a lane's turns |
| JobTable.JobRows.ParkJob | host/src/sevn/domain/jobs.py:149-223 | Moves job, queued turn and messages to another lane, the messages of each cancelled attempt to a fresh turn of its own; refused exactly for done and failed jobs |
| JobTable.ParkEachIsPark | host/src/sevn/domain/jobs.py:149-223 | With messages on one cancelled attempt at most, as in every run, that is the move the runs take |
| JobTable.JobRows.CloseCrashedTurns | host/src/sevn/runtime/recovery.py:97-104 | Every running turn of a crashed job becomes failed |
| JobTable.JobRows.PreserveRetryMessage | host/src/sevn/runtime/recovery.py:107-138 | The message of a crashed job moves to a fresh queued turn |
| JobTable.JobRows.Recover | host/src/sevn/runtime/recovery.py:43-94 | The sweep of one job and the turns it resumes |
| RelocationModel.HistoryIsKept | host/src/sevn/domain/workspace.py:171-217 | From every crash and error point of any number of attempts: one complete copy of the history exists, a visible `repo` is complete, and never two live directories |
| RelocationModel.InvStep | host/src/sevn/domain/workspace.py:90-118 | The invariant behind it is kept by every file-system step |
| RelocationModel.RerunRelocatesIff | host/src/sevn/domain/workspace.py:90-118 | Rerunning from any state ends, and ends relocated with a valid pointer, if and only if `.git` was not left as a file with other text |
| RelocationModel.OriginalSurvives | host/src/sevn/domain/workspace.py:171-217 | Through any attempts, errors and crashes: once a repository is published, the directory it was copied from is still there, complete, exactly when it had to be copied |
| RelocationModel.TwoRepositoriesIff | host/src/sevn/domain/workspace.py:90-104 | An attempt refuses at once, changing nothing, exactly when it finds a published repository and another git directory in the workspace |
| RelocationModel.CrashInPointerWrite | host/src/sevn/sandbox/paths.py:63-73 | That exception is real: a crash between creating and writing the pointer file leaves it empty for good |
| RelocationModel.StepsAdvance | host/src/sevn/domain/workspace.py:171-217 | Every step of an attempt that does not fail comes nearer to its end |
| RelocationModel.NeverStuck | host/src/sevn/domain/workspace.py:171-217 | An unfinished attempt always has a step to take |
| Relocation.Metadata.RestoreMetadata | host/src/sevn/domain/workspace.py:113-119 | Puts a withdrawn directory back exactly when no repository is published and `.git` is free |
| Relocation.Metadata.CopyMetadata | host/src/sevn/domain/workspace.py:229-264 | The copy loop makes an equal tree, and fails exactly on a special file |
| Relocation.Metadata.RelocateMetadata | host/src/sevn/domain/workspace.py:171-217 | Ends with the complete repository published, or with nothing visible and the history in the backup |
| Relocation.Metadata.PrepareMetadata | host/src/sevn/domain/workspace.py:90-111 | One attempt from whatever was left behind: ready with a complete repository, or put back; with the exact condition for a valid pointer |
| Compaction.SplitPoint | host/src/sevn/runtime/compaction.py:103-129 | The split is the largest index not past the last six whose kept suffix has a call for every return, or 0 |
| Compaction.Answered | host/src/sevn/runtime/compaction.py:103-129 | The two set loops decide that closure exactly |
| Compaction.CompactMessages | host/src/sevn/runtime/compaction.py:72-100 | When it leaves the list alone, and what it returns otherwise: best split, one summary at the first dropped message |
| Compaction.Summarized | host/src/sevn/runtime/compaction.py:89-100 | The loop with its `inserted` flag drops the unkept messages and puts one summary at the first |
| Compaction.KeptReturnCanDangle | host/src/sevn/runtime/compaction.py:103-129 | The output as a whole can hold a return without its call, on an older message kept for its capability part |
| CompactionModel.CompactedPromises | host/src/sevn/runtime/compaction.py:72-100 | Last six messages a suffix, kept messages in order, one summary, never longer, every return after the split answered |
| CompactionModel.OutputAnswersIff | host/src/sevn/runtime/compaction.py:103-162 | The whole output answers all its returns if and only if the older kept messages do |
| CompactionModel.BestSplitIsUnique | host/src/sevn/runtime/compaction.py:103-129 | The split is determined by the messages |
| CompactionModel.BuiltFromFirst | host/src/sevn/runtime/compaction.py:89-100 | The step-by-step output equals prefix, summary, kept rest |
| CompactionModel.StaysIff | host/src/sevn/runtime/compaction.py:147-162 | The result holds the summary text, every recent message, and of the older ones exactly those with a part of a capability's loading or the memories |
| CompactionModel.CalledIff | host/src/sevn/runtime/compaction.py:132-139 | A call counts as made by any response with a part of that id, of a tool or of a capability |
| CompactionModel.OverThresholdIff | host/src/sevn/runtime/compaction.py:141-144 | A list is shortened only when it fills more than three quarters of a known window |
| Paging.WalkReadsAll | host/src/sevn/domain/jobs.py:112-146 | Following the cursors reads exactly what was left at the start, newest first, each message once, in the fewest pages, whatever newer messages arrive in between |
| Paging.WalkEnds | host/src/sevn/domain/jobs.py:112-146 | From every known cursor there is a walk to the end |
| Paging.WalkIsBounded | host/src/sevn/domain/jobs.py:112-146 | However far a reader has got, with newer messages arriving between pages: the pages are the start of what was left when the walk began, and no more pages than that takes |
| Paging.PageIsStart | host/src/sevn/domain/jobs.py:112-146 | A page is the first part of what is left, with a cursor exactly when more is left |
| Paging.NextLeaves | host/src/sevn/domain/jobs.py:112-146 | Its cursor leaves exactly what the page did not have |
| Paging.ArrivalsUnseen | host/src/sevn/domain/jobs.py:112-146 | Messages newer than the cursor do not change what is left |
| Paging.LateArrivalIff | host/src/sevn/domain/jobs.py:112-146 | A new message is read by the walk if and only if it is not newer than the cursor |
| Paging.OrderedIsListing | host/src/sevn/domain/jobs.py:112-146 | The order by time and id determines the list |
| Paging.WalkReadsOlder | host/src/sevn/domain/jobs.py:112-146 | In terms of bots, times and ids alone: a walk reads exactly the messages of the bot older than the cursor, or all, each once, newest first, equal times by id |
| Paging.PageHoldsFifty | host/src/sevn/domain/jobs.py:112-146 | A page holds fifty messages and says where to go on, or is the last and holds at most fifty |
| Paging.PageRefusedIff | host/src/sevn/domain/jobs.py:112-135 | A page is refused exactly for an unknown bot, or a cursor that is no message of the bot |
| Cidr.InNetwork | web/src/client/profiles.ts:389-418 | An address is inside exactly when the entry is well formed, of its family, and the first `prefix` bits agree (section 3.1 of RFC 4632) |
| Cidr.SameBits | web/src/client/profiles.ts:406-416 | The byte-and-mask loop compares exactly the first `prefix` bits |
| CidrModel.MaskComparesBits | web/src/client/profiles.ts:408-415 | Equality under the mask of a width is equality of that many first bits |
| Cidr.ParseOctets | web/src/client/profiles.ts:294-311 | The octet loop of a dotted address |
| Cidr.ParseGroups | web/src/client/profiles.ts:343-352 | The group loop gives two bytes for each group, or fails on a bad one |
| CidrModel.DottedReads | web/src/client/profiles.ts:294-311 | Every dotted address reads as its four bytes |
| CidrModel.GroupsRead | web/src/client/profiles.ts:313-353 | Every literal of groups (section 2.2 of RFC 4291), in any case, reads as its 16 bytes with `::` filled by zeros; refused exactly when `::` stands for no group |
| CidrModel.HalvesRead | web/src/client/profiles.ts:330-343 | A written literal is taken apart into the groups it was written with |
| CidrModel.AcceptedIsWritten | web/src/client/profiles.ts:313-353 | Nothing else is accepted |
| CidrModel.DottedTail | web/src/client/profiles.ts:319-329 | A dotted tail stands for the two groups of its four bytes |
| CidrModel.MappedReadsAsIpv4 | web/src/client/profiles.ts:313-373 | `::ffff:a.b.c.d` reads as 16 bytes that end in the four |
| CidrModel.MappedAddress | web/src/client/profiles.ts:356-373 | A mapped address is the IPv4 address itself |
| CidrModel.NetworkReads | web/src/client/profiles.ts:389-405 | A network with a prefix of up to three digits is read exactly when the prefix fits its address |
| CidrModel.MappedNetworkIff | web/src/client/profiles.ts:389-405 | A mapped network counts its prefix in 32 bits: with more it matches nothing |
| CidrLaws.DottedIff | web/src/client/profiles.ts:294-311 | A text is a dotted address if and only if it is four numbers of one to three digits, none above 255, with dots between; those are its bytes |
| CidrLaws.LiteralIff | web/src/client/profiles.ts:313-353 | A text without dots is an IPv6 literal if and only if it is eight groups of one to four hexadecimal digits, or at most seven around one `::` |
| CidrLaws.LiteralBytes | web/src/client/profiles.ts:313-353 | Each pair of its bytes is the number at that place: left groups first, right groups last, zeros between |
| CidrLaws.PlaceValue | web/src/client/profiles.ts:343-352 | Digits count by place, in base ten and sixteen |
| CidrLaws.AddressIs | web/src/client/profiles.ts:356-373 | Which literals are IPv4 and which IPv6 addresses, the mapped ones by their first twelve bytes |
| CidrLaws.BracketsAside | web/src/client/profiles.ts:356-359 | Brackets around an address do not matter |
| CidrLaws.NetworkIff | web/src/client/profiles.ts:389-405 | A network is read exactly when it is an address alone, for all its bits, or an address, a slash and a prefix length of one to three digits that fits |
| CidrLaws.TrimIs | web/src/client/profiles.ts:389-391 | Blanks around it are taken off and nothing else |
| CidrLaws.TrimmedEnds | web/src/client/profiles.ts:389-391 | And all of them are |

## Left out

- CronBound.SearchFinds: one direction, for a guard that is easy to read off a schedule; `CronPeriod.SearchServesIff` has both directions for zones whose clock never jumps. Where clocks are set back, `CronPeriod.ServedIsDense` and `CronPeriod.SpareSearchFinds` leave the schedules open whose longest gap is within four days of the search bound.
- Cron.NextAfter: does not model the error for a time without zone, nor the end of the calendar in year 9999.
- OpClaimModel.WorkCompletesOnce: the count over calls within one retention; `OpClaimModel.CompletionsApart` bounds calls at any times, and `OpClaimModel.RunsAgainIff` gives the exact condition across the retention for two calls.
- LifecycleResults.OneOpenTurn: runs in which a message is attached to a job that a worker has claimed, or a cancelled attempt asks a blocking question, are left out; `LifecycleResults.AttachKeepsOneIff` and `LifecycleResults.AskKeepsOneIff` say exactly when those steps break it.
- CatchUpRuns.ServingEndsCatchUp: nothing is emitted while the client is served; a socket that is closed for a slow client ends the run, and with a queue of up to 400 frames that may happen.
- LifecycleSafety.ReroutePlaced: the interrupt, the cancel and the move of a reroute are one step under the job lock; a cancelled job is not moved again.
- Relocation.Metadata.PrepareMetadata: does not model config normalization, the exclude file, a symbolic link as `.git` or the checks against a concurrent replacement; an I/O failure is an error step.
- CidrModel.GroupsRead: lower-casing and trimming are modelled for ASCII only.
- CronParse.ParseAcceptsIff: five fields of ASCII digits and letters; the macros, the split of the text at blanks and the interpreter's limit on the length of a number are not modelled.
- Paging.WalkReadsAll: ids are ordered as numbers, and a message knows its bot instead of joining its thread.
- MemoryRuns.PinnedWithinBudget: the store of one bot; texts are byte sequences of one byte a character; a batch's inserts are a map by id. Checks across bots, full-text search and exports are left out.
- Compaction.CompactMessages: the summary text and the token estimate are parameters.
- Handshake, cryptography, pairing, devices, scopes and share links: phases are kept only as far as the welcome coming before any event.
- WebSocket, HTTP, unix sockets, the command line and the pages of the web client: input and output.
- SQLite, full-text search and the migrations: tables are maps, and one transaction is one step.
- The model's own answers, tool execution, Claude sessions while they run and the shell tool's turns without a job: a run is an outcome chosen freely (text, approvals, questions, error, cancel).
- Agent status outside recovery and question release, usage sums, locks on workspaces, assistant messages, memory commits inside a turn's end, and the events a transaction emits: no row of the lifecycle depends on them.
- Spend computation of routine budgets (any spend, apart from the day's spend of a routine that its owner resumed that day, may pause or restart a routine), the idle lane left by a lost insert race, and the text of a stale routine run.
- Tick coalescing, dashboards, briefs, metrics, doctor probes and observability export: they would add easy members only.
- Other handlers of the client connection (requests with deadlines, ticks, backoff timers): a request either gets its answer or fails with its socket.

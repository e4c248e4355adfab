# Nebiros: a verified model

Nebiros starts, stops and watches Kubernetes clusters. A gRPC server runs the commands
`aks-status`, `aks-config`, `aks-start` and `aks-stop`; a registrar writes an audit trail of
them to a database; a web front end shows the clusters' states and lets entitled users start
and stop them. This project models the logic of those programs in Dafny and proves what it
keeps. `dafny verify dfyconfig.toml` checks all of it.

| file | component |
|---|---|
| `Commands.dfy`, `Server.dfy` | command lookup, dispatch, the unary and the streaming handler |
| `CommandRuns.dfy` | from a command's name and options to the entries it visits |
| `Records.dfy`, `Registrar.dfy` | audit records, the insert, the `Watch` loop |
| `AuditPipeline.dfy`, `ServerPipeline.dfy` | handlers, bounded channel and registrar as one transition system; its link to the handlers' code |
| `PowerState.dfy`, `PowerRuns.dfy` | the entry list and the Run loops; any number of them interleaved |
| `ConfigTable.dfy` | the configuration table: alignment and reading it back |
| `Json.dfy`, `StatusJson.dfy` | a JSON reader after RFC 8259; the text `aks-status` builds and what the web side decodes |
| `StatusPage.dfy` | the database query helper and the overlay of markers on the status rows |
| `InFlight.dfy` | the per-cluster in-flight marker |
| `StateCache.dfy` | the cache that saves itself |
| `Entitlement.dfy` | the user map |
| `Sequences.dfy`, `Wrappers.dfy` | shared helpers |

How it is modelled:

- Code that updates objects is a class or a method with a loop, proved against a function
  (`RunStatus` against `PowerState.Run`, `CommandListener` against `Streamed`, `PrintConfigTable`
  against `TableText`). What the source promises is then proved of the function.
- Concurrency is a transition system; a run is any sequence of states linked by steps, so the theorems
  hold of every interleaving of these steps: the sends and receives of the handlers, the check,
  receive and insert of `Watch`, the guard and the remote call of a start or stop, the Get, Add,
  call and Delete of a marker, and in the state cache the setting of a value, the look at the next
  tick, the encoding and the writing of a file. One step is coarser than the code: a status turn,
  which touches the shared list only to write the answer. Readings that merge steps the code keeps
  apart (`Atomic`, `Merged`) or that assume an order it does not keep (`InOrder`) are marked as such.
- The systems are tied to the code by `ServerPipeline.ScriptIsTheCode`, `AuditPipeline.WatchTurnIsVisit`,
  `PowerRuns.AloneIsRun` and `GuardThenCall`, `InFlight.ExecuteCommand`, and `EncodeItems`, `WriteFile`, `Add` and `HandleTick`
  of `StateCache.StateCache`.
- The cloud, the database, the clock, option parsing and other goroutines are parameters (`oracle`,
  `DbAnswer`, `now`, `FlagResult`, `caches`), so the theorems hold for all they can answer. Two speak
  of a clock that is not set back, and say so; elapsed time in `StateCache.dfy` is read off Go's monotonic
  clock.
- A `char` is a rune. Table widths count bytes of its UTF-8 form, padding counts runes, as in Go.

Where the code does not meet what it is for, a run or an input shows it, and the exact condition is
proved:

- Nothing locks the entry list between the guard of a start or stop and its remote call
  (`Server/ServerCommands/ServerCommands.go:212-220,312-320`). A cluster can be both started and stopped
  between two refreshes of its state (`SeparateReadingMixes`). Every action is issued under a last
  refresh that allows it if and only if each call finds the cached state still as its guard wants it
  (`PermittedIffCallsFresh`). One stale call need not mix kinds at once (`StaleCallCanPass`), but it is
  what decides: whatever comes after a call, with fresh calls only, stays of one kind if and only if
  the cached state is not the one the other kind requires (`CallKeepsOneKindIff`); for a cluster that is
  Running or Stopped, if and only if the call is fresh (`FreshIffAlwaysOneKind`).
- `executeCommand` ignores the error of the cache's `Add` (`Web/Utils/PageHandler.go:159`). Two
  commands for one cluster can be in flight, and the first to finish deletes the marker while the other
  flies on (`FirstToFinishUnmarks`). Beforehand: an `Add` keeps them apart if and only if its cluster
  has no marker, and no continuation of the present jobs can fail if and only if no cluster has two
  waiting jobs, nor one past its Get while it has a marker (`AlwaysExclusiveIffUnhurried`).
- A shutdown can leave any number of sent records up to 20 untaken (`ShutdownStrands`). A queued record
  can then still be taken if and only if it is the first and `Watch` is past its check; once `Watch` has
  stopped nothing sent so far is lost if and only if the queue is empty. A handler blocked on the
  full channel waits for ever if and only if there is a shutdown and `Watch` is not past its check.
- A request that does not resolve leaves its audit record and then panics on a nil command
  (`Server/NebirosServer.go:93,153`). An unknown command name is enough, and can take its own audit
  record down with it (`UnknownCommandPanics`); what is queued at that moment is lost (`CrashedRequest`).
- `SaveCache` encodes memory first and writes the file later, without a lock, so saves of a tick and an
  `Add` can overtake each other (`Utils/StateCache.go:69-95`). A value can then be missing from the file
  for a whole interval, however long, instead of 30 seconds (`OvertakingLosesValue`). The bound holds in
  every run whose files are written in the order of their encodings (`StalenessBounded`). If saves take
  no time, a write does no lasting harm if and only if the present memory is about to be saved anyway,
  or the snapshot then written last is the present memory, or the next tick is due at most 30 seconds
  after it fell behind (`WriteHarmlessIff`).
- `DelUser` looks up the lowercase name but writes the name as it was spelled
  (`Web/Utils/Entitlement.go:36-37`), so disabling `A` leaves `A` entitled (`DeletionCanFail`). Deletion
  works if and only if there was nothing to delete or the name was given in lowercase.
- The JSON of `aks-status` is put together without escaping; it denotes the intended document if and
  only if every field is free of quotes, backslashes and control characters. One quote in a name, and
  the web side decodes nothing (`QuoteBreaksReply`). The web side skips names: for fields free of quotes
  its rows are right if and only if every name is the inside of a JSON string and the rest is clean.
- The table is aligned if and only if no cell holds a newline, and gives its rows back if and only if,
  besides, no cell ends in a space (`NewlineBreaksTable`, `TrailingSpaceIsLost`).

The streaming handler leaves the status record's `CmdType` zero, the unary one sets it; the registrar
never reads it, so both end up in the same table.

## Model

| member | source | states |
|---|---|---|
| AuditPipeline.Conservation | Server/Data/Registrar.go:167-186 | In every state of every run of any number of handlers and the registrar, what was sent is what was taken followed by what is queued, and at most 20 are queued: nothing lost, duplicated or reordered. |
| AuditPipeline.OnlyAFullChannelBlocks | Server/NebirosServer.go:91 | A handler that cannot go on is at a send, and the channel holds exactly 20. |
| AuditPipeline.BlockedCanProceedIff | Server/Data/Registrar.go:170-176 | A handler blocked on the full channel can still go on, in some continuation, if and only if there is no shutdown or Watch is past its check; otherwise it waits for ever. |
| AuditPipeline.ShutdownLosesAtMostTheQueue | Server/Data/Registrar.go:171-173 | After shutdown the taken records stay a prefix of the sent ones and grow by at most one; once Watch has stopped they never grow, and at most 20 sent records stay behind. |
| AuditPipeline.TakeableIff | Server/Data/Registrar.go:170-176 | In every state of every run, some continuation takes the record at queue position p if and only if the process is alive and there is no shutdown, or it is the first and Watch is past its check. |
| AuditPipeline.StoppedLosesIffQueued | Server/Data/Registrar.go:171-173 | Once Watch has stopped, nothing sent so far is ever lost if and only if the queue is empty. |
| AuditPipeline.ShutdownStrands | Server/Data/Registrar.go:167-186 | For every n up to 20 there is a run that ends with Watch stopped and exactly n sent records untaken. |
| AuditPipeline.CrashedState | Server/NebirosServer.go:93 | When the process has died, a handler stands on a request that panics and has sent exactly its audit record; it is the end of the run; nothing sent is lost if and only if the queue is empty. |
| AuditPipeline.CrashStrands | Server/NebirosServer.go:88-93 | For every n from 1 to 20 there is a run that dies with n records queued, the panicking request's own among them. |
| AuditPipeline.FinishedRequest | Server/NebirosServer.go:88-111 | Whatever is interleaved, a served request has sent exactly its audit record and, if it has one, its status record; one in progress a prefix of that; one not reached nothing. |
| AuditPipeline.FinishedHandler | Server/NebirosServer.go:116-169 | A handler that has returned has sent, whatever ran beside it, the records of its requests one after the other, cut at the first request without a user; none of those served panicked. |
| AuditPipeline.StreamEqualsUnaryCalls | Server/NebirosServer.go:71-169 | The same requests sent through one stream and through one unary call each leave the same records in the same order, up to timestamps and CmdType. |
| AuditPipeline.AuditTakenFirst | Server/NebirosServer.go:88-111 | In every reachable state each status record Watch took came after the audit record of the same request. |
| AuditPipeline.InsertsMatchTaken | Server/Data/Registrar.go:145-165 | Whatever the clock does, every taken record but the one in hand has been inserted, in order, with nothing changed but a timestamp: audit records into nebiroslogs, status records into k8sstatus. |
| AuditPipeline.ExecStamps | Server/Data/Registrar.go:145-165 | The insert of the record in hand is always possible, with either outcome, stamped with the clock as it then stands, into the table of its type. |
| AuditPipeline.AllServed | Server/NebirosServer.go:71-169 | For any requests with users that do not panic, in one stream or in a call, there is a run in which all are served and all their records taken in order. |
| AuditPipeline.StampsInOrder | Server/Data/Registrar.go:158 | With a clock that is not set back, the timestamps assigned over any run never decrease. |
| AuditPipeline.WatchTurnIsVisit | Server/Data/Registrar.go:170-185 | The registrar's three steps, with nothing in between, are one turn of the Watch loop: same stop, same record taken, same insert, same rest of the queue. |
| AuditPipeline.RunWf | Server/NebirosServer.go:116-169 | Every reachable handler stands on a request that has a user, with all requests before it served. |
| AuditPipeline.AdvanceAccounts | Server/NebirosServer.go:88-111 | One blocking step of a handler adds to its account exactly the record it sends, both in order and for its own request only. |
| ServerPipeline.ScriptIsTheCode | Server/NebirosServer.go:71-169 | The transition system's script of a request sends, record for record, what each of the two handlers sends (CmdType included), and dies exactly where they panic. |
| ServerPipeline.RequestLeaves | Server/NebirosServer.go:88-111 | In every interleaving a served request has left one audit record of its user, and a second one, Running or Stopped, if and only if its command was aks-start or aks-stop. |
| ServerPipeline.HandlerLeaves | Server/NebirosServer.go:116-169 | In every interleaving a handler that has returned has sent what ExecCommand sends for each of its requests in turn, as far as the stream is served. |
| ServerPipeline.CrashedRequest | Server/NebirosServer.go:88-93 | When the process has died, a handler stands on a request that did not resolve, which has left exactly its audit record; the rest is lost if and only if it is queued. |
| ServerPipeline.UnknownCommandPanics | Server/NebirosServer.go:204-207 | A command name the server does not have kills it, and there is a run in which its own audit record is lost. |
| Server.NebirosServer.constructor | Server/NebirosServer.go:41-69 | The server is built with its table, and the table is consistent. |
| Server.NebirosServer.DoCommand | Server/NebirosServer.go:171-208 | The step-by-step code gives Dispatch's response for every request, errors included. |
| Server.NebirosServer.ExecCommand | Server/NebirosServer.go:71-114 | Rejects a missing user without a record; otherwise sends exactly RecordsOf, gives the reply of the dispatched command, and panics exactly if the command did not resolve. |
| Server.NebirosServer.Handle | Server/NebirosServer.go:126-167 | One turn of the stream sends RecordsOf with CmdType left zero, although it builds the second record field by field. |
| Server.NebirosServer.CommandListener | Server/NebirosServer.go:116-169 | Serves the stream exactly as far as Served says, replies to each request, and sends the records of each in turn. |
| Server.ServedIsCut | Server/NebirosServer.go:119-129 | A stream is cut before its first request without a user, or just after the first that does not resolve, and otherwise served to its end; both directions. |
| Server.DispatchSound | Server/NebirosServer.go:171-208 | A command comes back if and only if the name is listed and Init of its first entry succeeds; it answers to the requested name, so the handlers' type assertions cannot fail. |
| Server.StreamingRefinesUnary | Server/NebirosServer.go:116-169 | Up to timestamps and CmdType, a stream sends the concatenation of what ExecCommand sends for each request in turn. |
| Server.EmitsByName | Server/NebirosServer.go:93-111 | The second record is there exactly for a resolved aks-start or aks-stop, names the cluster given by the option, and says Running or Stopped accordingly. |
| Server.AuditTells | Server/Data/Registrar.go:55-68 | The audit record names user, command and options, and holds the result exactly when the command succeeded and otherwise the error; an unknown command has no end time, the other unresolved requests end where they failed. |
| Server.ServerTables | Server/NebirosServer.go:50-63 | Every table entry makes a command that answers to its name, and the server's two tables agree. |
| CommandRuns.ListedCommands | Server/NebirosServer.go:57-63 | The server resolves exactly aks-status, aks-start and aks-stop unless their options do not parse, and aks-config and help always, each to its own command. |
| CommandRuns.RefusalTexts | Server/NebirosServer.go:177-207 | No name, an unknown name and bad options are refused with these texts. |
| CommandRuns.StatusVisits | Server/ServerCommands/ServerCommands.go:25-50 | Without an option aks-status visits exactly the entries with a resource group and a cluster name, with a cluster exactly those of that name, and ALL is no option. |
| CommandRuns.StatusRefreshes | Server/ServerCommands/ServerCommands.go:75-100 | If the cloud answers for all, the run refreshes exactly these entries' state and response, and changes nothing else. |
| CommandRuns.ActVisits | Server/ServerCommands/ServerCommands.go:158-179 | aks-start and aks-stop look at exactly the configured entries of the cluster given; without the option, at none. |
| CommandRuns.WatcherIsAJob | Server/NebirosServer.go:223-240 | The status watcher is one more job among the interleaved runs: from any state it starts at the first entry and, turn by turn, refreshes exactly the configured entries. |
| Commands.InCommandListFirst | Commands/Commands.go:20-26 | The lookup succeeds if and only if the name is listed, with the first index of that name, and gives -1 otherwise. |
| Registrar.Registrar.ExecInsert | Server/Data/Registrar.go:145-165 | An accepted audit record is added to nebiroslogs, an accepted status record to k8sstatus, stamped with the clock and otherwise unchanged, and the other table stays as it was; a refused one or an unknown command type changes nothing. |
| Registrar.Registrar.Visit | Server/Data/Registrar.go:170-185 | One turn of Watch stops on shutdown, else takes the oldest record if there is one and inserts it newly stamped (VisitOf, with VisitTakes). |
| Registrar.VisitTakes | Server/Data/Registrar.go:170-185 | A turn takes at most one record, the oldest, none only when it stops or there is none, and its insert changes nothing but the timestamp. |
| Registrar.Registrar.WatchLoop | Server/Data/Registrar.go:167-186 | The loop leaves channel, tables, flag, taken records and inserts as WatchOf says, and goes on only while there is no shutdown. |
| Registrar.WatchKeeps | Server/Data/Registrar.go:167-186 | Over any stretch of turns: conservation of the records, every taken one answered by its insert, tables made of the accepted inserts, stamps sorted under a monotone clock. |
| Registrar.StoredHolds | Server/Data/Registrar.go:158-164 | A table keeps its rows, and has a new one exactly if an accepted insert for that table brought it. |
| Registrar.Registrar.Watch | Server/Data/Registrar.go:167-186 | Over any turns: arrivals are taken in order or still queued, each taken record has its insert in the right table, the tables hold exactly the accepted ones, and with a monotone clock the stamps never decrease. |
| Registrar.Registrar.Shutdown | Server/Data/Registrar.go:136-143 | Sets the flag Watch reads, closes the database unless that fails, and returns the failure. |
| Records.EraseConcat | Server/Data/Registrar.go:55-80 | Dropping Tstp and CmdType commutes with putting record sequences together. |
| Records.ErasedAlike | Server/Data/Registrar.go:23-47 | Records are equal when erased if and only if they are of one type and agree on every field but Tstp and CmdType. |
| Records.StampOnly | Server/Data/Registrar.go:35-37 | SetTimestamp sets the Tstp to the time given and nothing else. |
| PowerState.StatusUpdatesPrefix | Server/ServerCommands/ServerCommands.go:75-100 | A status run is an exact prefix update: matching entries before the first failure hold the cloud's answer, all others are unchanged, and there is an error (that failure's) if and only if there was a failure. |
| PowerState.StatusReportsRefreshed | Server/ServerCommands/ServerCommands.go:97-102 | A successful status run reports the refreshed matching entries, all of them, in configuration order. |
| PowerState.ReportedRefreshed | Server/ServerCommands/ServerCommands.go:84-99 | The j-th report shows the name, resource group and cluster of the j-th matching entry, and the state that the cloud answered for it. |
| PowerState.MatchIndicesExact | Server/ServerCommands/ServerCommands.go:75-82 | The entries a run visits are exactly the configured, matching ones, each once, in list order. |
| PowerState.StopOfIsFirstStop | Server/ServerCommands/ServerCommands.go:202-236 | A run stops at its first matching entry with a failed guard or remote call, or not at all. |
| PowerState.RunError | Server/ServerCommands/ServerCommands.go:202-243 | A run fails if and only if some entry stops it, and with that entry's error. |
| PowerState.ActIssuesExactly | Server/ServerCommands/ServerCommands.go:202-243 | The remote starts (stops) issued are exactly those of the matching entries in list order before the first failure, and the failing one too when it was the call that failed; the error is the guard's or the call's. |
| PowerState.ActKeepsEntries | Server/ServerCommands/ServerCommands.go:302-343 | A start or stop changes no cached state. |
| PowerState.AksEntryList.StatusTurn | Server/ServerCommands/ServerCommands.go:75-100 | One turn of the status loop updates just its entry, in place, and appends its text, or skips it, or gives the error. |
| PowerState.AksEntryList.RunStatus | Server/ServerCommands/ServerCommands.go:52-110 | The loop over the shared entries leaves the state, error and JSON text that Run gives; a failed setup changes nothing. |
| PowerState.AksEntryList.ActTurn | Server/ServerCommands/ServerCommands.go:203-236 | One turn of the start or stop loop skips, refuses, calls or fails as VisitEntry says. |
| PowerState.AksEntryList.RunAct | Server/ServerCommands/ServerCommands.go:181-244 | The start and stop loops issue the calls and give the error of Run: starts only for entries that are Stopped, stops only for Running ones; with the texts of the guard error and of success. |
| PowerState.ActInWords | Server/ServerCommands/ServerCommands.go:202-236 | A run calls the cloud for entries of its cluster alone, for a start only while Stopped, for a stop only while Running, and for all of these before it gives up; a guard refuses only an entry that is not so. |
| PowerRuns.ActionsJustified | Server/ServerCommands/ServerCommands.go:212 | In any interleaving, guard and call being separate steps, every start (stop) went to an entry whose last refresh, or initial state, was Stopped (Running) when its guard looked. |
| PowerRuns.CacheIsLastRefresh | Server/ServerCommands/ServerCommands.go:92 | In every reachable state the cached state of an entry is what its last refresh said: nothing else writes it. |
| PowerRuns.PermittedIffCallsFresh | Server/ServerCommands/ServerCommands.go:212-220 | A run issues every action under a last refresh that allows it if and only if each call finds the cached state still as its guard wants it. |
| PowerRuns.FreshCallsKeepOneKind | Server/ServerCommands/ServerCommands.go:312-320 | While calls are fresh, all actions on an entry between two refreshes are of one kind, however many runs and the status watcher interleave. |
| PowerRuns.CallKeepsOneKindIff | Server/ServerCommands/ServerCommands.go:212-220 | If all actions so far were permitted, whatever comes after a job's call, with fresh calls only, stays of one kind if and only if the cached state of its entry is not the one the other kind requires. |
| PowerRuns.FreshIffAlwaysOneKind | Server/ServerCommands/ServerCommands.go:312-320 | For an entry that is Running or Stopped: every such continuation stays of one kind if and only if the call finds the cached state its guard wanted. |
| PowerRuns.OneKindIffNoClash | Server/ServerCommands/ServerCommands.go:212-220 | One kind over a run, brought down to its steps: no call is made while an action of the other kind is on record since its entry's last refresh. |
| PowerRuns.StaleCallBreaks | Server/ServerCommands/ServerCommands.go:312-320 | From any state, a stale call breaks the rule as soon as a job of the other kind standing at the entry takes its two steps. |
| PowerRuns.SeparateReadingMixes | Server/ServerCommands/ServerCommands.go:212-220 | There is a run of the code in which a cluster is started and stopped between two refreshes. |
| PowerRuns.StaleCallCanPass | Server/ServerCommands/ServerCommands.go:212-220 | There is a run with a stale call that still keeps to one kind, so freshness is not necessary for it. |
| PowerRuns.OneKindBetweenRefreshes | Server/ServerCommands/ServerCommands.go:212-220 | Were guard and call one step, every run would issue permitted actions only and keep to one kind between refreshes. |
| PowerRuns.GuardThenCall | Server/ServerCommands/ServerCommands.go:203-236 | With nothing in between, the two steps make up one turn of the Run loop. |
| PowerRuns.AloneIsRun | Server/ServerCommands/ServerCommands.go:202-243 | A job launched and left alone does, step by step from the first entry on, what the Run loop does: same entries, same events, over exactly if the loop fails. |
| ConfigTable.GetColumnMaxLength | Utils/EntryData.go:47-75 | The width loop computes the column's maximum. |
| ConfigTable.MaxLengthIsLeast | Utils/EntryData.go:47-75 | That width is the least number that is at least 15 and at least every cell's byte length. |
| ConfigTable.PrintConfigTable | Utils/EntryData.go:77-106 | The builder code writes exactly the table's lines. |
| ConfigTable.PrintRows | Utils/EntryData.go:99-101 | The entry loop writes one body line for each entry, in order. |
| ConfigTable.RowsFit | Utils/EntryData.go:88-91 | Every cell fits its column when padded by runes, multi-byte names included. |
| ConfigTable.LineBarred | Utils/EntryData.go:91-104 | Every line written has the same number of runes and bars at the same four offsets. |
| ConfigTable.BordersSpell | Utils/Utilities.go:8-20 | The three borders consist of their box-drawing signs, code point by code point, for all rows. |
| ConfigTable.BarsStand | Utils/EntryData.go:80-85 | The bars stand at offsets fixed by the three maxima alone. |
| ConfigTable.HeaderReads | Utils/EntryData.go:95 | The second line reads Name, Resource Group, Cluster Name between upright bars. |
| ConfigTable.RuneBytesIsUtf8 | Utils/EntryData.go:50-51 | The byte width of a rune is that of its UTF-8 form, whose payload is the rune (Utf8Payload), none out of place, and fewer bytes would not do. |
| ConfigTable.ByteLenIsAscii | Utils/EntryData.go:50-51 | Bytes and runes are as many for ASCII text, and only for it. |
| ConfigTable.AlignedIffNoNewline | Utils/EntryData.go:47-106 | The printed text's lines are all equally wide if and only if no cell holds a newline; then there are exactly entries + 4 of them, with bars at the same offsets. |
| ConfigTable.TableReadsTrimmed | Utils/EntryData.go:77-106 | Reading the table gives all rows in order, their cells without trailing spaces, if and only if no cell holds a newline. |
| ConfigTable.TableRoundTrip | Utils/EntryData.go:77-106 | Taking the widths from the top border, slicing and trimming gives back exactly the rows if and only if no cell holds a newline or ends in a space. |
| ConfigTable.NewlineBreaksTable | Utils/EntryData.go:99-101 | A name of two lines makes a table that is neither aligned nor readable. |
| ConfigTable.TrailingSpaceIsLost | Utils/EntryData.go:99-101 | A name ending in a space makes a table that is aligned but does not read back. |
| Json.QuotedExactly | Server/ServerCommands/ServerCommands.go:98 | A string put between quotes unescaped reads back as itself if and only if it is free of quotes, backslashes and control characters, whatever follows. |
| Json.ContentsRead | Web/Utils/PageHandler.go:75 | The inside of a JSON string is read as what it stands for, whatever follows its closing quote. |
| Json.TwoCharEscapesRead | Web/Utils/PageHandler.go:75 | The eight escapes of two characters, and no others, read as section 7 of RFC 8259 has them. |
| Json.CodeUnitsRead | Web/Utils/PageHandler.go:75 | A code unit reads as its character, half of a surrogate pair as U+FFFD. |
| Json.SurrogatesRead | Web/Utils/PageHandler.go:75 | Two surrogates read as the one character that they make up. |
| Json.WhiteSpace | Web/Utils/PageHandler.go:75 | Exactly the four characters of section 2 of RFC 8259 may stand before a value. |
| StatusJson.ReplyDenotesIffClean | Server/ServerCommands/ServerCommands.go:97-102 | The reply with the server's newline is a JSON text denoting exactly the refreshed entries in order, if and only if all fields are clean; the empty list included. |
| StatusJson.DocumentInWords | Server/ServerCommands/ServerCommands.go:98 | The intended document: for each entry the members name, resourceGroup, clusterName, powerState, in this order. |
| StatusJson.FieldsInWords | Web/Utils/Page.go:15-21 | Which member fills which field of a status row. |
| StatusJson.MemberReads | Server/ServerCommands/ServerCommands.go:98 | One formatted member reads back as itself exactly if its value is clean. |
| StatusJson.WebDecodesReply | Web/Utils/PageHandler.go:74-75 | The web handler decodes the reply to one row per refreshed entry, in configuration order, whenever the fields it uses are clean and each name, which it skips, is the inside of a JSON string. |
| StatusJson.WebDecodesMeant | Web/Utils/PageHandler.go:74-75 | Fields with escapes decode to the rows they stand for if all of them stand for something; if they are free of quotes, to nothing otherwise. |
| StatusJson.WebDecodesIffShown | Web/Utils/PageHandler.go:74-75 | For fields free of quotes the web handler sees the right rows if and only if every name is the inside of a JSON string and the other fields are clean. |
| StatusJson.QuoteBreaksReply | Server/ServerCommands/ServerCommands.go:98 | With one quote in a name the reply does not denote the document and the web handler decodes nothing. |
| StatusJson.QuotesCanPass | Server/ServerCommands/ServerCommands.go:98 | A name whose quotes spell a further member decodes to the right row all the same, so with quotes no rule for single fields is exact. |
| StatusPage.Record | Web/Utils/DataSource.go:94-101 | One database row becomes the map from column to value. |
| StatusPage.RecordMapHolds | Web/Utils/DataSource.go:94-101 | The map holds a column's value, the last one where a name occurs twice. |
| StatusPage.ExecQuery | Web/Utils/DataSource.go:60-91 | Succeeds exactly if fetching ended at the end of the rows; then the result is nil exactly when there were none, and otherwise holds every row in order. |
| StatusPage.OverlayRows | Web/Utils/PageHandler.go:80-106 | In place, keeps number, order, clusters and resource groups of the rows; changes a status exactly where there is a marker; fills user and time from marker or query; never indexes an empty result. |
| StatusPage.PageShowsTheCloud | Web/Utils/PageHandler.go:71-108 | From the status run through the server's reply, JSON and the overlay to the page: one row for each matching entry in order, showing its cluster's marker and the viewer, or else what the cloud answered with the user and time of the first logged row. |
| InFlight.MarkersOwnedInRun | Web/Utils/PageHandler.go:153-169 | With Get, Add, call and Delete as separate steps, in every interleaving a marker means a job on that cluster between its Add and its Delete recorded that value. |
| InFlight.NoJobNoMarker | Web/Utils/PageHandler.go:167 | When no job is between its Add and its Delete, no marker remains. |
| InFlight.HasLooked | Web/Utils/PageHandler.go:154-157 | In every run a job past its Get has stood at its Get in an earlier step and found no marker of its cluster. |
| InFlight.MarkedJobWaits | Web/Utils/PageHandler.go:154-157 | A job started while its cluster has a marker that stays never calls the server. |
| InFlight.ExclusiveIffNoAddRefused | Web/Utils/PageHandler.go:154-167 | A run keeps at most one command per cluster in flight if and only if no Add of it returned the error the code ignores. |
| InFlight.AddKeepsExclusiveIff | Web/Utils/PageHandler.go:159 | In a guarded state, an Add keeps one command per cluster in flight if and only if its cluster has no marker. |
| InFlight.AlwaysExclusiveIffUnhurried | Web/Utils/PageHandler.go:153-169 | From a guarded state with no new jobs, every continuation keeps one command per cluster in flight if and only if no cluster has two jobs before their Add, nor one past its Get while it has a marker. |
| InFlight.SeparateReadingConflicts | Web/Utils/PageHandler.go:154-159 | For every cluster there is a run of the code with two commands for it in flight. |
| InFlight.FirstToFinishUnmarks | Web/Utils/PageHandler.go:167 | For every cluster there is a run in which the first command to finish deletes the marker while another is in flight. |
| InFlight.AtomicGuards | Web/Utils/PageHandler.go:154-167 | Were Get and Add one step, every reachable state would have at most one command per cluster in flight and a marker exactly where there is one. |
| InFlight.AtomicFlies | Web/Utils/PageHandler.go:154-167 | That reading is not empty: for every cluster there is a run with its command in flight and its marker set. |
| InFlight.OtherClustersUntouched | Web/Utils/PageHandler.go:154-167 | A job's step changes neither the marker nor the jobs of another cluster. |
| InFlight.ExecuteCommand | Web/Utils/PageHandler.go:153-169 | Calls the server if and only if Get found no marker, even when another goroutine comes first between Get and Add; deletes the marker whoever wrote it; agrees with the transition system's steps. |
| StateCache.StateCache.EncodeItems | Utils/StateCache.go:69-76 | The first half of a save takes a snapshot of memory and is the timed system's Encode. |
| StateCache.StateCache.WriteFile | Utils/StateCache.go:78-89 | The second half makes a snapshot the file, whatever memory holds by then, and is the timed system's Write. |
| StateCache.StateCache.SaveCache | Utils/StateCache.go:69-95 | With nobody in between, the file becomes the memory. |
| StateCache.StateCache.LoadCache | Utils/StateCache.go:97-115 | Memory becomes what the file holds. |
| StateCache.StateCache.Add | Utils/StateCache.go:45-52 | Stores the value, writes the file if and only if the next tick is more than 30 seconds away, and, with nobody in between, is the timed system's Add. |
| StateCache.StateCache.HandleTick | Utils/StateCache.go:61-63 | A tick sets the tick time, saves everything, and, with nobody in between, is the timed system's Tick. |
| StateCache.StateCache.AutoSaver | Utils/StateCache.go:58-67 | Without a tick nothing changes; the last tick handled saves everything and becomes the tick time. |
| StateCache.StalenessBounded | Utils/StateCache.go:45-67 | For any interval, any schedule of adds and any interleaving in which files are written in the order of their encodings, at every moment the file is exactly what memory held until at most 30 seconds ago, plus however late ticks are handled and however long writing takes. |
| StateCache.ValueReachesFile | Utils/StateCache.go:45-67 | In such a run, a value that has been in memory for longer than that is in the file. |
| StateCache.StalenessReached | Utils/StateCache.go:49 | With ticks handled when due and saves at once, for every interval over 30 seconds some value waits exactly 30 seconds: the bound is tight. |
| StateCache.OvertakingLosesValue | Utils/StateCache.go:69-95 | The code does not keep the bound: for every interval over 30 seconds there is a run, with ticks handled when due and saves taking no time, in which a value is missing from the file for the whole interval. |
| StateCache.AlwaysInBoundIff | Utils/StateCache.go:45-95 | If saves take no time, every continuation written in order keeps the bound if and only if the file is in bound now, and the present memory is about to be saved, or the version to be written last is the present one, or the next tick is due at most 30 seconds after it fell behind. |
| StateCache.WriteHarmlessIff | Utils/StateCache.go:78-89 | The same decided at one write, overtaking or not, by the state before it. |
| StateCache.HarmlessInBound | Utils/StateCache.go:69-95 | If saves take no time, every run of the code whose writes pass that test keeps the bound, in whatever order they come. |
| StateCache.RunTimed | Utils/StateCache.go:117-119 | In any interleaving the next save is never later than the last tick plus the interval, but for the lateness of ticks, and every snapshot was the present memory when it was encoded. |
| Entitlement.Entitlement.AddUser | Web/Utils/Entitlement.go:31-33 | Sets the answer for every name that agrees with the given one letter by letter but for case, and for no other. |
| Entitlement.SpellingDoesNotMatter | Web/Utils/Entitlement.go:23-29 | In every map, names that agree letter by letter but for case get the same answer. |
| Entitlement.AddsSpellings | Web/Utils/Entitlement.go:31-33 | In every map, adding a user changes the answer for exactly these spellings. |
| Entitlement.Entitlement.DelUser | Web/Utils/Entitlement.go:35-39 | Revokes only spellings whose lowercase form is the name exactly as given, and only if that name was entitled. |
| Entitlement.EntitledIsMembership | Web/Utils/Entitlement.go:23-39 | Over any operations every name mapped to true is lowercase, and IsEntitled is, for all spellings, membership in a set of lowercase names where a deletion counts when its name is lowercase. |
| Entitlement.DeletionWorksIff | Web/Utils/Entitlement.go:35-39 | After DelUser the user is not entitled if and only if they were not before or the name was given in lowercase. |
| Entitlement.AgreesIffLowercase | Web/Utils/Entitlement.go:35-39 | A whole run agrees throughout with the set in which every deletion counts, if and only if every deletion that found its user was given in lowercase. |
| Entitlement.DeletionCanFail | Web/Utils/Entitlement.go:35-39 | Adding and then deleting "A" leaves "A" entitled. |

## Left out

- The Azure SDK, the Oracle driver, gRPC, OAuth, cookies, templates, environment and files: their results are parameters.
- The `flag` package: option parsing is the parameter `FlagResult` (error, no cluster, or a cluster).
- `Client/NebirosClient.go`: how it uses a stream depends on gRPC behaviour the sources do not show.
- The reflection in `ValidCommand.Call` and its error for a wrong number of parameters: all five constructors take one.
- HandleCommandError, GetNullString, NewAuditRecord and NewKubeStatusRecord: only compute a value; their effect is stated by `Server.AuditTells`, `Server.EmitsByName` and the handlers' contracts.
- `Usage`, `GetRemoteCommands`, configuration loaders and logging: no hard property.
- Server.NebirosServer: a command's own Run is a parameter of the request here; its loops are modelled in `PowerState.dfy`. Its audit channel is the history of everything sent; the bound of 20 and blocking are in `AuditPipeline.dfy`.
- Server.NebirosServer.CommandListener: a receive error ends the stream like its end, and sending a reply is taken to be a history; both leave the records alone.
- Registrar.Registrar.Watch: a finite stretch of its turns, and the sleep between turns is not timed. Records are values, so a caller that kept a pointer to a sent record is not modelled; the source has none.
- Registrar.Registrar.Shutdown: whether an insert after closing fails is up to the database and stays a parameter.
- PowerState.AksEntryList.RunAct: `aks-start` and `aks-stop`, the same loop over different words, are one method with the action as a parameter; BeginStart and PollUntilDone share one outcome.
- PowerState.AksEntryList.Valid: entries are distinct objects, as the JSON decoder makes them; a `null` in the configuration, which gives a nil entry, is left out.
- PowerRuns.ActionsJustified: the fetch and the write of a status turn are one step, because the answer is arbitrary anyway; PollUntilDone touches nothing shared and is part of its call.
- StatusJson.WebDecodesIffShown: fields with quotes can spell further members and objects, across entries too; for them the model has `WebDecodesReply` one way and the two examples.
- ConfigTable.GetColumnMaxLength: the three width methods, which differ only in the field, are one method with the column as a parameter; strings are sequences of runes, so invalid UTF-8 is left out.
- Json.ReadText: numbers and literals are not read, because the status text has none; the decoder's case-insensitive match of field names is not modelled, because the text uses the exact names.
- StatusPage.OverlayRows: the cache as each row sees it and each database answer are parameters; rows have as many values as columns, as the driver makes them.
- InFlight.ExecuteCommand: the marker's text is a parameter; tokens in the same cache are taken to have keys that are not cluster names; entries do not expire, as the code asks.
- StateCache.StateCache.SaveCache: saving succeeds, so encoding and file errors are left out, and entries do not expire; a write is one step, so the bytes of two writes do not mix.
- StateCache.StateCache.LoadCache: loading succeeds.
- StateCache.AlwaysInBoundIff: for saves that take no time; with slow ones the saver misses ticks while it writes, which the model does not follow (the bound of `StalenessBounded` does cover slow saves).
- Entitlement.EntitledIsMembership: lowercasing is any idempotent mapping of single characters, which covers names where lowercasing does not depend on neighbouring characters; Save and Load are left out.

# A model of the NervesHub device agent

The agent keeps a device in touch with NervesHub over a websocket: it joins a channel, confirms
the running image, sends heartbeats and logs, answers a console, and installs updates. Its
protocol logic is kept free of sockets and flash, and that logic is what is modelled here, file
by file, in the form the code has: a class where the code updates an object, a method with a loop
where the code loops, a step relation where two tasks share state.

| file | models |
|---|---|
| `Reassembly.dfy` | `src/inbound.rs`: pieces of frames put back into messages (section 5.4 of RFC 6455) |
| `Handoff.dfy` | `src/transport.rs`: the client's task and the run loop sharing that state and a channel |
| `Protocol.dfy` | what a session does, as an automaton over its events |
| `World.dfy` | the socket, clock, platform and application of a session, each free to answer anything |
| `Link.dfy`, `Pump.dfy`, `Session.dfy` | `src/link.rs` and `src/agent.rs`: the code, shown to make only lawful runs |
| `SessionTheorems.dfy`, `Heartbeats.dfy`, `ChannelTheorems.dfy`, `LogTheorems.dfy`, `Endings.dfy`, `EarlyUpdate.dfy` | what lawful runs never do |
| `Known.dfy` | what the code remembers, as facts of the run |
| `Responses.dfy`, `Stages.dfy`, `Turns.dfy` | what must follow: each message, each stage of a session, each look at the clock |
| `Install.dfy`, `Http.dfy`, `Ota.dfy`, `Throttle.dfy`, `Checksum.dfy` | downloading, verifying, writing and committing an image |
| `Updates.dfy` | what an update asks for, and what having put it in place comes to |
| `LogQueue.dfy`, `Meta.dfy` | the bounded log queue, and the sorted map a line's metadata is written as |
| `Console.dfy` | the console's line editor, checked against a terminal |
| `StopProtocol.dfy` | `src/tls.rs`: stopping a client from another thread |
| `SharedSecret.dfy`, `Decimal.dfy` | the token's encoders |
| `Common.dfy` | results, options and joined pieces |

## How a session is modelled

A session is the list of its events: each clock reading and what it is for, each message sent or
received, each answer of the platform or the application. `Protocol.Next` folds a run of events
into a `History`; `Protocol.Allowed` says which event may follow a history, and `Protocol.MayEnd`
how the session may end there. A run is lawful when each of its events was allowed. What must
happen is part of this too: while a `Duty` is owed nothing else is allowed, and no frame may be
waited for while a heartbeat, a confirmation, a join, a message of log lines or a window's end is due.

So a theorem about lawful runs is of one of two kinds. Some say what no run does. The others say
what comes next: of an event in a run, which event is the next one if there is one, and that the
session cannot have ended in between. Neither kind is told by the state that the automaton keeps:
`Known` says of each part of that state which events of the run it is, and the theorems are about
those events, with the numbers and the texts written out.

The code is written as methods over a `World`, whose methods accept only allowed events, so
`Session.Agent.SessionWithin` verifying means that every run of the code is lawful and ends as
`MayEnd` says. The environment is a set of arbitrary functions, one answer for every point of the
run, and an arbitrary finite list of frames after which the socket is dead; every finite part of
an endless session is one of these. The theorems are then about all lawful runs.

An update a session applies is installed by the code of `Install`, over a server and a flash that
may do anything, with the session's own pump told how it gets on (`Install.Progress`). A `World`
takes the end of an install only as it was deserved (`World.Deserved`). Success is having the image in
place: all that the server gave, whole, taken by the slot, booted once, and what the message that began
it asked for. Failure is for want of a server that gives such an image, or of a flash that takes it, or
of a connection to tell the platform on. So an update that can be installed is, and whatever a session
says it has installed, it has (`Session.Agent.SessionWithin`, by way of `Endings.DoneMeansInstalled`).

## What was found

* An update may be installed before the running image has been confirmed. That is so exactly when the
  join had not been accepted before the message that brought the update
  (`EarlyUpdate.ConfirmedFirstIffAcceptedFirst`), and it comes about in two ways: the join's own reply
  carries the update, and that is applied before the turn that would confirm the image
  (`EarlyUpdate.TheJoinsReplyCanComeFirst`); or an update is pushed before the join has been answered
  at all, which the link does not ask (`EarlyUpdate.APushCanComeFirst`).
* A join never names a download in progress (`ChannelTheorems.JoinSpeaksForTheBoot`). The comment
  at `src/agent.rs:959-961` counts on `set_downloading` for a reconnect in the middle of a
  download, but each session makes a link of its own, and its one join comes before any download.
* `install` says that anything but success aborts the sink (`src/install.rs:112-115`). It aborts exactly
  when the download fails, and commits exactly when it succeeds, so a commit that fails is not followed
  by an abort, nor is an update that is not actionable (`Install.InstallUpdate`). After a commit that
  fails in finalizing a patch the slot is still open (`Install.AFailedCommitLeavesTheSlotOpen`).
* A writer can boot a patch that never finalized well: exactly when a commit finds the slot left open by
  a commit whose finalize failed, and ends it (`Ota.UnpatchedBootsExactly`; `Ota.AFailedPatchCanBoot`
  is one such run). A writer asked to commit once at most never does (`Ota.OneCommitBootsNoBadPatch`),
  and `install` asks once, so with a sink of its own it never does either (`Install.InstallUpdate`).
* The count of closes is 32 bits. A close ends the session exactly when its number, so counted, is past
  the count at the first connection (`Handoff.CloseEndsExactlyWhen`); the first close after connecting is
  missed exactly when it wraps the count (`Handoff.FirstCloseEndsUnlessItWraps`), as after 2^32 - 1
  attempts that fail (`Handoff.WrappedCloseIsMissed`).
* A token's payload reads back exactly when the identifier is shorter than 2^32 bytes
  (`SharedSecret.PayloadRoundTrips`).
* A stopped transport is said to connect to nothing more (`src/tls.rs:418-419`). It can still do so exactly
  when a connect was past its check (`StopProtocol.AConnectCanCompleteIffPastItsCheck`; its handshake may
  fail, but `StopProtocol.ALateConnectCanComplete` is a schedule where it does not).

## Model

| member | source | states |
|---|---|---|
| `Reassembly.Inbound.Connected` | src/inbound.rs:80-82 | only the first connection fixes how many closes came before it |
| `Reassembly.Inbound.SocketClosed` | src/inbound.rs:85-88 | closes are numbered as they come, in 32 bits |
| `Reassembly.Inbound.Read` | src/inbound.rs:109-111 | a frame read stops counting against the limit |
| `Reassembly.Inbound.TakePiece` | src/inbound.rs:119-164 | the whole new state and what is emitted, for every piece: data, close, control, before and after an overflow |
| `Reassembly.StepRefinesGather` | src/inbound.rs:119-164 | one event emits what an uncapped, uncounted reassembler would, or is the overflow |
| `Reassembly.RunRefinesGather` | src/inbound.rs:119-164 | over any events, the frames emitted are those of the uncapped reassembler, all of them unless something overflowed, and then the first few |
| `Reassembly.OverflowedIsSilent` | src/inbound.rs:122-124 | after an overflow there is no frame, and no second overflow |
| `Reassembly.ControlFrames` | src/inbound.rs:119-124 | a close frame is numbered as a close of the socket is; other control frames do nothing |
| `Reassembly.MessageShape` | src/inbound.rs:128-143 | of the pieces of a message, however fragmented and cut, the first alone starts one and the last alone completes one |
| `Reassembly.MessageBytes` | src/inbound.rs:138-145 | the pieces of a message hold its payload, in order |
| `Reassembly.WireGathers` | src/inbound.rs:119-164 | whole messages come out with the kind of their first frame, less text that is not UTF-8; nothing of a message cut off is in the next |
| `Reassembly.ReassemblesExactly` | src/inbound.rs:119-164 | for all messages, fragmentations and pieces, the pieces of messages being told by their opcodes alone, with pings, closes, connections and reads between: exactly those messages, in order, unless something overflows |
| `Reassembly.NothingIsLeftOut` | src/inbound.rs:119-122 | the pieces taken for data are exactly those of text, binary and continuation frames |
| `Reassembly.TheWireComesOut` | src/inbound.rs:119-164 | handed nothing but the pieces of some messages, however fragmented, the reassembler gives those messages unless something overflows |
| `Reassembly.LittleNeverOverflows` | src/inbound.rs:133-137 | nothing overflows while no more than 16 KiB of messages has come, read or not |
| `Handoff.NextKeepsInv` | src/transport.rs:406-436 | every step of either task keeps the accounting, the overflow, the numbering of closes and the delivery as they should be |
| `Handoff.UnreadIsExact` | src/inbound.rs:107-158 | for every interleaving, `unread` is the bytes in the channel and of the frame taken but not read; the subtraction never saturates; with `partial` it never passes 16 KiB; and once overflowed no part of a message is held |
| `Handoff.OverflowIsFirstBreach` | src/inbound.rs:133-137 | an overflow is sent once at most, exactly by the first data piece that would pass the limit, and no frame follows it |
| `Handoff.SessionGetsWhatItIsOwed` | src/transport.rs:484-510 | a close after the first connection ends the session whenever it is read, one before never does; exactly the frames queued ahead of the end are delivered |
| `Handoff.CloseEndsExactlyWhen` | src/inbound.rs:85-105 | for every schedule and any number of closes: the k-th ends the session exactly when k, in 32 bits, is past the count at the first connection; it came after connecting exactly when k is past it |
| `Handoff.FirstCloseEndsUnlessItWraps` | src/inbound.rs:85-105 | the first close after connecting ends the session unless the closes before it are one short of a multiple of 2^32 |
| `Handoff.WrappedCloseIsMissed` | src/inbound.rs:85-105 | 2^32 - 1 failed attempts, a connection and its close: the close is numbered 0 and goes unseen |
| `Handoff.ConnectedMeansReported` | src/inbound.rs:80-82 | having connected is a connection among the actions |
| `Handoff.MessagesSurviveTheHandoff` | src/transport.rs:406-510 | end to end: for every schedule, what the session gets is a prefix of the messages whose pieces the client was handed, and all of them once the queue is drained, unless something overflowed |
| `Handoff.RunLoopDrains` | src/transport.rs:484-510 | reading on, the run loop takes all that was sent, or comes to what ends the session |
| `Handoff.EveryMessageArrives` | src/transport.rs:406-510 | whatever the schedule was, a run loop that goes on reading gets every message the socket carried, unless they overflowed or the socket closed on it; 16 KiB never overflow |
| `Link.Link.constructor` | src/link.rs:89-105 | nothing joined, sent, attached or downloading |
| `Link.Link.TakeRef` | src/message.rs:331-334 | the next ref: a count in 64 bits, in decimal |
| `Link.Link.Write` | src/link.rs:600-602 | one message goes out, with the ref and the label it should have, and the history says so |
| `Link.Link.SendJoin` | src/link.rs:122-142 | a join is its own label, and the link is not joined until it is answered |
| `Link.Link.SendHeartbeat` | src/link.rs:144-151 | a heartbeat has no label, and is unanswered from then on |
| `Link.Link.Send` | src/link.rs:164-224 | device messages are labelled with the join |
| `Link.Link.SendConsoleJoin` | src/link.rs:310-325 | a console join is its own label |
| `Link.Link.SendConsole` | src/link.rs:332-343 | nothing is sent for no text |
| `Link.Link.SendExtensionsJoin` | src/link.rs:422-427 | an extensions join is its own label |
| `Link.Link.SendExtension` | src/link.rs:430-445 | every frame an extension calls for, in order, until one fails |
| `Link.Link.SendLogs` | src/link.rs:473-494 | log lines go out under the extensions join |
| `Link.Link.HandleMessage` | src/link.rs:246-293 | every message, on every topic: what the channels become, and the action it calls for |
| `Link.Link.HandleDeviceFrame` | src/link.rs:272-292 | replies, updates, reboots, invitations, closes |
| `Link.Link.HandleReply` | src/link.rs:523-558 | joined exactly by an ok reply to the join's ref; a refusal is an error; the reply's update is considered |
| `Link.Link.DecideOn` | src/link.rs:560-587 | an update is applied, ignored or rescheduled as the application says, and the platform told |
| `Link.Link.HandleConsoleFrame` | src/link.rs:345-387 | a prompt on joining, typing passed on, file transfers declined |
| `Link.Link.HandleExtensionFrame` | src/link.rs:496-521 | the join's reply attaches what it lists, and each is confirmed; requests count only when attached |
| `World.World.Receive` | src/agent.rs:825-830 | a frame, a timeout, or a dead socket, only when the loop may wait for one |
| `Pump.SendLogs` | src/agent.rs:1072-1100 | once logging is attached and a second has passed with batches, or a quarter without, the lines waiting are asked for, a hundred at most or one, and go out at once if there are any; before that, nothing |
| `Pump.Pump.Tick` | src/agent.rs:1114-1125 | the clock is read, and then a heartbeat goes out exactly when one is due, and the log has its turn; after it, less than an interval has gone by since the last |
| `Pump.Pump.Report` | src/agent.rs:1127-1130 | progress goes out, or the download is over |
| `Pump.Pump.Wait` | src/agent.rs:1135-1148 | it ends; it succeeds only at or after the deadline; no nap is over a second, and each is followed by a tick |
| `Install.Progress.Tell` | src/install.rs:61-84 | what is told to an agent's pump it does, a tick, a report or a wait, and touches nothing else of the session; anything else may answer anything |
| `Session.Agent.Download` | src/agent.rs:1021-1051 | begun, installed with the connection kept alive, and ended as it was deserved |
| `Session.Agent.Pumped` | src/agent.rs:1032-1050 | the install succeeds only with the image in place; it fails only for want of a server that gives it, a flash that takes it, or a connection |
| `Session.Agent.Apply` | src/agent.rs:952-1019 | success is said three times, then a pause and a restart; failure is reported, and the session goes on |
| `Session.Agent.RunLines` | src/agent.rs:444-479 | each line is run, and answered with what is to be written so far and a prompt; `reboot` says so, pauses, restarts |
| `Session.Agent.AnswerConsole` | src/agent.rs:427-482 | echo and lines are the line editor's; nothing without a console |
| `Session.Agent.AnswerExtension` | src/agent.rs:517-546 | a location only if one is found, a report only from a provider |
| `Session.Agent.ConfirmRunningImage` | src/agent.rs:933-945 | marked only when pending, and the platform told either way |
| `Session.Agent.Settle` | src/agent.rs:725-754 | confirmed once joined, and the other channels joined, before the turn goes on |
| `Session.Agent.JoinExtensions` | src/agent.rs:736-746 | once, joined, and on invitation or after five seconds |
| `Session.Agent.JoinConsole` | src/agent.rs:751-754 | once, joined, and only if there is a console |
| `Session.Agent.Beat` | src/agent.rs:765-779 | a heartbeat when due, or the end of the session if the last is unanswered |
| `Session.Agent.Consult` | src/agent.rs:785-799 | leaving, staying, or a health report if health is attached |
| `Session.Agent.CheckWindow` | src/agent.rs:803-823 | over at the limit, or lingered with nothing outstanding; an error if never joined |
| `Session.Agent.Handle` | src/agent.rs:839-894 | every action, and what the loop goes on with |
| `Session.Agent.ActOnUpdate` | src/agent.rs:840-849 | rebooting, or a whole interval afresh after a failed update |
| `Session.Agent.RebootNow` | src/agent.rs:850-858 | said before it is done |
| `Session.Agent.RestartConsole` | src/agent.rs:869-875 | the half-typed line is forgotten |
| `Session.Agent.TakeTurn` | src/agent.rs:725-823 | nothing is waited for until everything due has been done |
| `Session.Agent.SessionWithin` | src/agent.rs:682-896 | it ends; every run is lawful, and ends as it may; with readings that advance, a bounded one has taken no more of its frames than its limit has milliseconds; every install it made succeeded with the image in place, whole, and what the message that began it asked for, or failed for want of a server, a flash or a connection; and it says that an update is done only after one that succeeded |
| `SessionTheorems.EachHappensOnce` | src/agent.rs:708-754 | the join, marking the image, `firmware_validated`, and joining the extensions and the console each happen at most once |
| `SessionTheorems.ConfirmedOnlyOnceAccepted` | src/agent.rs:724-730 | the image is marked and the platform told only after an ok reply to this session's own join; marked only right after the bootloader said it is on probation, and told only right after that worked or the bootloader said it is not |
| `SessionTheorems.ConfirmedBeforeListening` | src/agent.rs:724-730 | once the join is accepted, nothing more is read until the platform has been told |
| `SessionTheorems.StaysJoined` | src/link.rs:286-290 | an accepted join lasts until the channel closes, and that ends the session |
| `SessionTheorems.JoinRefIsTheJoins` | src/link.rs:127-129 | the ref replies are compared with is that of the session's one join |
| `Heartbeats.LastBeatIsKnown` | src/link.rs:144-162 | the link remembers the last heartbeat until it is answered, and no longer |
| `Heartbeats.RefsCountMessages` | src/message.rs:320-335 | the ref of every message is its number in the session, modulo 2^64, in decimal |
| `Heartbeats.HeartbeatsAreAnswered` | src/agent.rs:767-779 | outside a download, between a heartbeat and the next there is a reply to the first |
| `Heartbeats.RefsNeverRepeat` | src/message.rs:320-335 | no two of fewer than 2^64 messages have the same ref |
| `Heartbeats.OldRepliesDoNotCount` | src/link.rs:262-270 | a reply to an older heartbeat never answers a newer one |
| `Heartbeats.SilenceEndsTheSession` | src/agent.rs:767-779 | with no update tried meanwhile, an unanswered heartbeat ends the session at the first turn a whole interval later, and in no other way |
| `Heartbeats.SilenceOutlastsAFailedUpdate` | src/agent.rs:840-849 | after a failed update, a heartbeat sent during the download or before and still unanswered does so at the first turn an interval after the session took up again |
| `Heartbeats.DownloadsKeepBeating` | src/agent.rs:1112-1125 | in a download, the first look at the clock an interval late is followed at once by a heartbeat, and nothing is read |
| `Heartbeats.DownloadsAreSeen` | src/agent.rs:1021-1051 | the pump runs only between a download's beginning and its end |
| `ChannelTheorems.JoinSpeaksForTheBoot` | src/agent.rs:699-708 | the join comes third, says what the bootloader said, and names no download |
| `ChannelTheorems.ExtensionsAreJoinedInTurn` | src/agent.rs:736-746 | the extensions channel is joined after acceptance and confirmation, on invitation or five seconds late |
| `ChannelTheorems.AttachmentIsKnown` | src/link.rs:501-509 | an extension is attached only by a reply that lists it, to this session's join of the channel, or to nothing while there has been none |
| `ChannelTheorems.ExtensionsRefIsKnown` | src/link.rs:422-427 | the ref such replies are compared with is that of the join, once there is one |
| `LogTheorems.LogsNeedAttaching` | src/agent.rs:1079-1094 | every message of log lines, in a download or out of one, comes after logging was attached, and holds a hundred lines at most |
| `LogTheorems.LogsArePaced` | src/agent.rs:1084-1097 | outside a download, logs are a quarter second from those before, or from the session's first reading; in batches a second |
| `LogTheorems.DownloadLogsArePaced` | src/agent.rs:1112-1125 | in a download likewise, from those before or from its beginning |
| `LogTheorems.InstallingMeans` | src/agent.rs:1021-1051 | from a download's beginning to its end, the download is what is owed |
| `LogTheorems.LoggingAlwaysFits` | src/agent.rs:1072-1092 | what is about to be sent of the log is due, and no more than may go |
| `Endings.TimesAreReadings` | src/agent.rs:714-729 | the loop's times are readings of the clock taken for them |
| `Endings.FinishedMeansDone` | src/agent.rs:803-823 | a bounded session finishes only joined and validated, and at its limit or lingered with nothing outstanding |
| `Endings.BoundedSessionsEnd` | src/agent.rs:803-823 | while readings advance, a bounded session waits for no more frames than its limit has milliseconds, whatever it is sent |
| `Endings.DoneMeansInstalled` | src/agent.rs:968-979 | `completed`, and progress at 100 while updating, are said only after an install that succeeded |
| `Endings.RestartsAreAnnounced` | src/agent.rs:850-858 | a restart is the last event, and was announced: `rebooting` right before, or that, on the device channel or in so many words at the console, before a quarter second's pause |
| `Endings.RebootingIffRestarted` | src/agent.rs:842-858 | a session says it is rebooting exactly when it restarted the device |
| `Endings.InstalledMeansRestarting` | src/agent.rs:968-1000 | after an install the farewell is all that happens, and the session restarts or could not say so |
| `EarlyUpdate.BeginningFollows` | src/link.rs:560-587 | an update is applied only right after the application's word, and that right after the message that brought that very update |
| `EarlyUpdate.ConfirmedFirstIffAcceptedFirst` | src/agent.rs:724-730 | when an update begins to install, the platform has been told the image is good exactly if the join was accepted before the message that brought the update |
| `EarlyUpdate.TheJoinsReplyCanComeFirst` | src/link.rs:548-557 | an update in the join's own reply is installed with the image neither marked nor reported |
| `EarlyUpdate.APushCanComeFirst` | src/link.rs:274-277 | so is one pushed before the join is answered |
| `Known.IntervalsAreKnown` | src/agent.rs:712-781 | the loop counts its heartbeats from the last reading taken for them or the last turn that sent one, and its logs likewise |
| `Known.AttachedIsTheLastReply` | src/extensions.rs:449-470 | what is attached is what the last reply to the extensions join listed, until the channel closes |
| `Known.ExtensionsUpIsAnswered` | src/extensions.rs:415-417 | the extensions are up exactly when their join has been answered, while the session goes on |
| `Known.InvitationsAreHeard` | src/extensions.rs:377-404 | invited, and whether with batches, is what the last invitation says |
| `Known.JoinedMeansSent` | src/agent.rs:741-754 | a channel counts as joined only once its join was sent |
| `Known.AsidesAreKnown` | src/agent.rs:736-823 | what a turn has asked is what has been asked since the last wait |
| `Known.HealthIsAnswered` | src/agent.rs:877-881 | a health check counts as answered exactly when one came with health attached |
| `Known.ReaderIsKnown` | src/agent.rs:427-433 | the line editor is what all typing since its last restart makes of it |
| `Known.ConsoleRefIsKnown` | src/link.rs:310-325 | the ref console replies are compared with is that of the console join |
| `Stages.SessionsBegin` | src/agent.rs:699-720 | every session asks the bootloader its two questions, joins, reads the clock three times and comes to its loop; it ends before that only if the join cannot be sent |
| `Stages.ConfirmationRunsItsCourse` | src/agent.rs:725-730 | the time of joining is followed by asking whether the image is on probation, marking it if so, and telling the platform; failing to mark it ends the session, as does failing to say so |
| `Stages.DownloadsKeepToThemselves` | src/agent.rs:1021-1051 | in a download there is nothing but ticks, waits, heartbeats, logs and progress; the session cannot end; and once something cannot be sent the install has failed |
| `Stages.WaitsAreTickedThrough` | src/agent.rs:1135-1148 | in a download a wait begins with a tick, and every nap is followed by one |
| `Stages.BrokenMeansUnsent` | src/agent.rs:1021-1051 | a download that cannot go on has just failed to send something |
| `Stages.MessagesAreLabelled` | src/link.rs:122-224 | every message is labelled with the join of its channel as it was sent, a join with its own ref, and a heartbeat with none |
| `Responses.RebootsAreObeyed` | src/agent.rs:850-858 | a reboot is answered with `rebooting` and then done, and the session can end in no other way but that not being sent |
| `Responses.TurnedAwayReconnects` | src/link.rs:523-558 | a close, a refused join and an update that does not parse each end the session, to be tried again |
| `Responses.UpdatesAreDecidedOn` | src/link.rs:560-587 | every update with something to download is put to the application; then it is installed, or the platform is told what was said |
| `Responses.TheRestIsHeard` | src/link.rs:272-292 | nothing else on the device channel is answered, nor ends the session |
| `Responses.WaitsEnd` | src/agent.rs:825-830 | a wait with no frame goes round again; a dead socket or a frame that does not decode ends the session |
| `Responses.ExtensionsAreConfirmed` | src/link.rs:501-513 | each key listed by a reply to the extensions join is confirmed, in order |
| `Responses.LocationsAreAnswered` | src/agent.rs:517-528 | with geo attached a location is looked for, and sent if there is one |
| `Responses.HealthChecksAreAnswered` | src/agent.rs:529-541 | with health attached, and a provider, a report is sent |
| `Responses.NothingElseIsAnswered` | src/link.rs:262-270 | no other message of the extensions, and no reply to a heartbeat, is answered |
| `Responses.ConsoleIsAnswered` | src/link.rs:345-387 | a prompt on joining and on restarting, a refusal of files, and to anything but typing nothing |
| `Responses.TypingIsAnswered` | src/agent.rs:427-482 | typing is echoed as the line editor has it and every line it completes is run, each answered with what is still to be echoed, its output and a prompt; `reboot` says so, pauses a quarter second and restarts |
| `Responses.FailuresAreReported` | src/agent.rs:1002-1017 | an update that could not begin or failed is reported, and the loop goes on, its interval begun afresh |
| `Responses.HealthIsReported` | src/agent.rs:787-796 | a report the application asks for is sent, with health attached |
| `Turns.LoopKeepsBeating` | src/agent.rs:765-779 | with none unanswered, a turn an interval or more after the last heartbeat, or what it is counted from, sends the next before anything else, and nothing ends the session |
| `Turns.LoopBeatsOnTime` | src/agent.rs:765-779 | no heartbeat of the loop goes out but right after such a turn |
| `Turns.DownloadBeatsOnTime` | src/agent.rs:1114-1120 | nor one of a download but right after a tick an interval after the last |
| `Turns.HeartbeatIsUnanswered` | src/link.rs:153-162 | a heartbeat counts as unanswered exactly when the last one sent has had no reply |
| `Turns.JoinedBeforeTheTurn` | src/agent.rs:724-754 | a turn whose session was accepted has told the platform, joined the console if there is one, and joined the extensions if invited or five seconds late |
| `Turns.WaitsOnlyForSomething` | src/agent.rs:783-830 | a frame is waited for only with the leave of the application, below the limit, and once lingered only for something outstanding |
| `Turns.FinishesOnlyWithNothing` | src/agent.rs:783-823 | a session finishes only when told to, at its limit, or lingered with no reply, health check or log line outstanding |
| `Turns.LoopKeepsLogging` | src/agent.rs:1079-1097 | with logging attached, a turn a second or a quarter after the last lines asks the log for more, after a heartbeat that is due |
| `Turns.DownloadsKeepLogging` | src/agent.rs:1114-1125 | so does a tick of a download |
| `Turns.LogsTakenAreSent` | src/agent.rs:1093-1097 | lines taken off the log are sent at once |
| `Http.HttpStream.Read` | src/install.rs:41-49 | the next chunk, no larger than the buffer, or why there is none |
| `Http.GivenInOrder` | src/install.rs:41-49 | whatever has been read is the front of all the stream gives before its end |
| `Install.OpenUrl` | src/install.rs:266-296 | the result, the attempts and the waits are those of the retry policy, and success leaves the stream whole |
| `Install.WaitsAreBounded` | src/install.rs:28-37 | the waits are 5, 15 and 45 s, or a longer `Retry-After` up to 120 s, each after no answer, a 408, a 429 or a 5xx |
| `Install.OpeningIsBounded` | src/install.rs:266-311 | at most four attempts; stops at the first success, the first failure that cannot pass, or the fourth, with that attempt's result unless a wait failed, and then at once |
| `Install.AnswersMean` | src/install.rs:266-311 | opening succeeds exactly when one of the first four attempts does and those before it failed in ways that may pass, unless a wait fails, and with that answer |
| `Install.Follow` | src/install.rs:229-246 | one tick, then too much is refused, then the report is made; it fails exactly if a call fails or too much has come, and says which |
| `Install.CopyChunk` | src/install.rs:220-246 | one chunk read, hashed, passed on, ticked for and reported; it fails exactly if one of these does, and says which; it is finished only at the end of the stream |
| `Install.Copy` | src/install.rs:203-254 | it succeeds exactly if nothing failed; then it has read the stream to its end, the sink took exactly that, and the checksum is of exactly that; the reports are the throttle's; a tick for every chunk taken; and what failed first is what is blamed |
| `Install.Check` | src/install.rs:168-195 | the checks pass exactly for a body that is not empty, of the length it should have, with the advertised digest; the length is complained of before the digest |
| `Install.FetchedMeans` | src/install.rs:147-198 | what a download comes to, in the terms of the last opening's answer: how long the body should be, when it is well fetched, and why opening failed |
| `Install.DownloadImage` | src/install.rs:147-198 | it succeeds exactly when it was opened, nothing failed since, and the body is whole |
| `Install.InstallUpdate` | src/install.rs:116-142 | committed exactly when the download succeeded, and aborted exactly when it failed; success means that the last opening succeeded, and that the body is all the stream gave, as long as the update said or else as that opening announced, with its digest; the sink took exactly the bytes read, and one not committed before boots only a patch that finalized well; a flash that takes all it is given fails no good image; the reports are the throttle's for that length; a tick for every chunk; and each failure is blamed on what failed |
| `Install.InstallAfresh` | src/agent.rs:1027-1050 | with a stream and a sink of its own, success means the image is in place: all that the server gave, whole, all the slot took, booted once, and no patch that did not finalize well; and it does succeed if the server gives the image, the flash takes it, and nothing the agent was told failed |
| `Install.AFailedCommitLeavesTheSlotOpen` | src/install.rs:128-134 | a commit leaves the slot open and its handle live exactly when it was patching and finalizing failed |
| `Ota.OtaWriter.OpenTheSlot` | src/ota.rs:229-247 | the slot is begun, and open if that worked |
| `Ota.OtaWriter.BeginThePatch` | src/ota.rs:259-304 | a delta needs an open slot and the running partition |
| `Ota.OtaWriter.WriteChunk` | src/ota.rs:308-376 | opened at the first byte, classified by it, and fed to the slot or the patch |
| `Ota.OtaWriter.CommitImage` | src/ota.rs:378-414 | a patch is finalized and released, the slot ended, and booted if that worked |
| `Ota.OtaWriter.AbortImage` | src/ota.rs:416-435 | whatever is live is released, and the writer finished |
| `Ota.EveryCallIsAllowed` | src/ota.rs:306-436 | for every sequence of writes, commits and aborts and every outcome, each call into ESP-IDF is made when it may be, and no delta outlives a commit or abort |
| `Ota.SlotIsLeftAlone` | src/ota.rs:308-330 | nothing is touched for an empty chunk, nor written after finishing |
| `Ota.HandlesAreUsedOnce` | src/ota.rs:378-436 | one begin, one end or abort, one release, one boot, and no use after |
| `Ota.BootOnlyAfterEnd` | src/ota.rs:396-411 | the boot partition is set only after a successful end |
| `Ota.FinalizeBeforeEnd` | src/ota.rs:378-396 | a patched slot is ended only after its patch was finalized |
| `Ota.UnpatchedBootsExactly` | src/ota.rs:378-411 | for every use of a new writer and every outcome: a slot is booted for a patch that never finalized well exactly when a commit ends one left open by a failed commit |
| `Ota.OneCommitBootsNoBadPatch` | src/ota.rs:378-411 | with one commit at most, booting after a patch was begun means it finalized well |
| `Ota.FirstCommitBootsNoBadPatch` | src/ota.rs:378-411 | the same of any writer that has been asked once at most |
| `Ota.SecondCommitSkipsAFailedFinalize` | src/ota.rs:378-411 | after a failed finalize, with only writes between, the next commit boots the slot if ending it works |
| `Ota.AFailedPatchCanBoot` | src/ota.rs:378-411 | a byte of a patch, a finalize that fails, and another commit |
| `Ota.CommitLeavesOpen` | src/ota.rs:378-396 | the slot stays open after a commit exactly when finalizing a patch failed, and is finished with otherwise |
| `Ota.WriteFeeds` | src/ota.rs:308-376 | a write feeds its chunk or nothing, and never boots |
| `Ota.CommitFeedsNothing` | src/ota.rs:378-414 | a commit feeds nothing, and boots once if it succeeds |
| `Ota.AbortFeedsNothing` | src/ota.rs:416-435 | an abort feeds and boots nothing |
| `Ota.WriteSucceedsExactly` | src/ota.rs:308-376 | a write succeeds exactly when it is empty or every call it made did; the first byte decides, 0xE9 being an image's |
| `Ota.CommitSucceedsExactly` | src/ota.rs:378-414 | a commit succeeds exactly when the slot was open and every call it made went well, and then it has made them all |
| `Ota.AbortLetsGo` | src/ota.rs:416-435 | after an abort nothing is held; a live slot is aborted, and with none nothing is called |
| `Ota.ASturdyFlashTakesAll` | src/ota.rs:308-376 | with no call failing, every chunk is taken until the writer is finished |
| `Ota.ASturdyFlashCommits` | src/ota.rs:378-414 | and an open slot is committed |
| `Ota.ChunkingDoesNotMatter` | src/ota.rs:308-376 | when nothing fails, mode and bytes fed depend on the concatenation alone |
| `Throttle.ProgressThrottle.Take` | src/update.rs:117-136 | the percentage due, if one is |
| `Throttle.ReportsAreSpaced` | src/update.rs:117-136 | reports climb, a step at a time but for a last 100, and never run ahead |
| `Throttle.SpacedIsFew` | src/update.rs:117-136 | there are at most 99 / step + 2 of them |
| `Throttle.WholeDownloadReports` | src/install.rs:220-251 | over a whole download all of that, and 100 exactly once, last |
| `Throttle.ReportedExactlyWhen` | src/update.rs:117-136 | of any positions: the first is reported, then each a whole step past the last report or at 100 that says something new, and no other |
| `Throttle.NoStepGoesUnsaid` | src/update.rs:117-136 | what was last said is never a whole step behind |
| `Checksum.Sha256.Update` | src/checksum.rs:21-23 | what is hashed is what was given, in order |
| `Checksum.Sha256.FinalizeHexUpper` | src/checksum.rs:27-36 | the digest of all of it, in upper-case hex |
| `Checksum.MatchIsTheDigest` | src/checksum.rs:40-42 | checksums match exactly when the advertised one reads as the digest, in either case of hex |
| `Checksum.HexReadsBack` | src/checksum.rs:27-36 | a digest in hex is upper-case digits, two to a byte, that read back |
| `LogQueue.LogBuffer.TryPush` | src/logging.rs:191-211 | kept exactly when both caps allow it, at the back and with its bytes counted; otherwise nothing but the count of drops changes |
| `LogQueue.LogBuffer.AskRoom` | src/logging.rs:218-229 | a refusal is a drop, counted |
| `LogQueue.LogBuffer.TakeFront` | src/logging.rs:134-138 | the oldest line, and its bytes given back |
| `LogQueue.LogBuffer.PopOne` | src/logging.rs:286-300 | the oldest line, or one note of what was dropped |
| `LogQueue.LogBuffer.TakeStamped` | src/logging.rs:250-279 | the batch is what the specification takes, each line stamped for its place |
| `LogQueue.CostIsWhatItHolds` | src/logging.rs:331-353 | a line is reckoned at every byte of its strings and what goes with them, on the heap and as JSON |
| `LogQueue.TakeIsLongestPrefix` | src/logging.rs:250-279 | exactly the longest prefix that fits, and the note only when that empties the queue with room left |
| `LogQueue.StampsAreInOrder` | src/logging.rs:321-326 | with a clock, an unstamped line at place i gets now + i, in decimal, under "time"; a stamped one goes as it is, and without a clock all do |
| `LogQueue.TheNoteSaysHowMany` | src/logging.rs:293-299 | the note is a warning that begins with the count of lines dropped |
| `LogQueue.HasRoomRefusesNothingPushTakes` | src/logging.rs:213-229 | asking for room never turns away what would be kept |
| `LogQueue.RoomIsForSomeLine` | src/logging.rs:213-229 | it says yes exactly when there is a line that would be kept |
| `LogQueue.WhatFitsIsKept` | src/logging.rs:191-229 | over any critical sections: while neither cap is met and no room was refused, every line offered is kept, in order |
| `LogQueue.EveryHistoryBalances` | src/logging.rs:191-300 | over any critical sections in any order: bytes are those held, both caps hold, delivery is first in first out, and offered = delivered + held + dropped + reported |
| `LogQueue.EveryQueueBalances` | src/logging.rs:191-300 | all of that of every queue from empty on |
| `LogQueue.PopFrontNeverSaturates` | src/logging.rs:133-139 | bytes given back were counted |
| `LogQueue.BatchesGiveTheBacklog` | src/logging.rs:250-279 | draining ends, and gives the backlog in order and one note if anything was lost |
| `Meta.NextAfter` | src/extensions.rs:236-250 | the least key after the last, with its last value |
| `Meta.Serialize` | src/extensions.rs:253-267 | it ends; the entries are the sorted form of the map, last value winning; the length announced is right |
| `Meta.CanonicalIsUnique` | src/extensions.rs:222-267 | a map has one sorted form |
| `Meta.CanonicalMeans` | src/extensions.rs:222-267 | the entries are exactly the last pair of each key |
| `Meta.LessIsLexicographic` | src/extensions.rs:236-250 | and in the order of the dictionary |
| `Console.LineReader.FeedAll` | src/console.rs:141-200 | the loop is the fold of single keystrokes |
| `Console.FeedAppend` | src/console.rs:141-200 | chunks make no difference to state, echo or lines |
| `Console.LinesAreSound` | src/console.rs:141-200 | no line holds a control character or more than 259 bytes |
| `Console.EchoIsTruthful` | src/console.rs:141-200 | a terminal shown the echo shows exactly the completed lines and the current one |
| `Console.TypingIsKept` | src/console.rs:141-200 | printable text is kept and echoed as typed, up to 256 bytes |
| `Console.TypingStopsAtTheLimit` | src/console.rs:141-200 | past that it is neither |
| `Console.LengthIsInUtf8` | src/console.rs:141-200 | the limit counts bytes of UTF-8 (section 3 of RFC 3629) |
| `Console.ALineIsWhatWasTyped` | src/console.rs:141-200 | a return, a line feed or both complete exactly the line typed |
| `Console.ErasingUndoesTyping` | src/console.rs:141-200 | backspace and delete take off the last character |
| `Console.ControlsAreIgnored` | src/console.rs:141-200 | other control characters do nothing |
| `Console.SequencesAreIgnored` | src/console.rs:141-200 | escape sequences do nothing, whatever is in them |
| `Console.AnEscapeTakesOne` | src/console.rs:141-200 | a lone escape takes one character with it |
| `StopProtocol.NextKeepsInv` | src/tls.rs:165-456 | every step of client, stopper and others keeps the invariant |
| `StopProtocol.ShutdownHitsOnlyOwnSocket` | src/tls.rs:420-430 | only a socket that is open and the current connection's is shut down |
| `StopProtocol.OnlyTheStopperShutsDown` | src/tls.rs:420-430 | nothing else shuts one down |
| `StopProtocol.NoWaitOutlastsAStop` | src/tls.rs:440-480 | no lost wake-up: after a stop every wait returns at once |
| `StopProtocol.NoSelectAfterTheFlag` | src/tls.rs:440-456 | no wait begins once the flag is up |
| `StopProtocol.OnlyAConnectPastItsCheckCompletes` | src/tls.rs:188-248 | at most one connect completes after the flag, and it was past its check |
| `StopProtocol.AConnectCanCompleteIffPastItsCheck` | src/tls.rs:418-430 | in every state a stop has reached, some schedule completes a connect exactly when one is past its check |
| `StopProtocol.ALateConnectCanComplete` | src/tls.rs:188-248 | a schedule in which `stop` returns and a connect then leaves its socket open |
| `StopProtocol.AConnectPublishes` | src/tls.rs:188-248 | until there is a stop, a connect that succeeds publishes its socket |
| `StopProtocol.AWaitSelects` | src/tls.rs:445-456 | and a wait selects on it |
| `StopProtocol.ACloseLetsGo` | src/tls.rs:166-178 | a close clears the published socket before it closes the connection |
| `StopProtocol.AStopShutsDown` | src/tls.rs:420-430 | a stop raises the flag and shuts down the published socket |
| `SharedSecret.EncodeBase64url` | src/shared_secret.rs:150-169 | the loop encodes chunk by chunk as specified |
| `SharedSecret.Base64urlRoundTrips` | src/shared_secret.rs:150-169 | decodes back for all bytes (section 5 of RFC 4648, unpadded), in the exact length |
| `SharedSecret.LettersAreTheUrlSafeOnes` | src/shared_secret.rs:150-169 | the alphabet is that of table 2 of RFC 4648 |
| `SharedSecret.KnownEncodings` | src/shared_secret.rs:150-169 | two examples of section 10 of RFC 4648, and one with both letters of its own |
| `SharedSecret.KnownHeader` | src/shared_secret.rs:139-147 | the header reads HS256 |
| `SharedSecret.EncodeInteger` | src/shared_secret.rs:116-136 | appends the integer's form |
| `SharedSecret.IntegerRoundTrips` | src/shared_secret.rs:116-136 | every 64-bit integer decodes back, whatever follows it |
| `SharedSecret.FormFitsTheValue` | src/shared_secret.rs:116-136 | each value takes the smallest of the three forms it fits |
| `SharedSecret.BigFormDigits` | src/shared_secret.rs:126-136 | the big form has the fewest digits, least first |
| `SharedSecret.EncodePayload` | src/shared_secret.rs:97-113 | the payload is built as specified |
| `SharedSecret.PayloadRoundTrips` | src/shared_secret.rs:97-113 | reads back exactly when the identifier is shorter than 2^32 bytes |
| `SharedSecret.TokenParses` | src/shared_secret.rs:139-147 | the token splits into header, payload and a signature of both |
| `SharedSecret.SaltIsInjective` | src/shared_secret.rs:90-95 | for one algorithm, the salt determines key and time |
| `SharedSecret.SaltIsTheHeaders` | src/shared_secret.rs:90-95 | the salt is its purpose, a blank line and the three headers |
| `Decimal.UnsignedIsInjective` | src/message.rs:331-334 | no two counts are written alike |

## Left out

- Serialization and cryptography: JSON, msgpack, SHA-256, HMAC and PBKDF2 are functions that are given; a message is what it decodes to.
- The TLS handshake, session saving and the sets given to `select`: only the steps that touch the flag, the lock and the socket are modelled.
- Loops around sessions: `run`'s backoff, and the turning of an ended connection into an error by `run_session` and `run_session_until`, are a line or two each.
- Session.Agent.SessionWithin: the clock does not run backwards and a sleep lasts as long as it was asked to; frames come from a finite list, so an endless session is modelled by all its finite parts.
- Session.Agent.RunLines: what a command prints, and which line is `reboot`, are arbitrary; parsing and the command registry are user interface.
- Session.Agent.Apply: the reason a `failed` status gives is left out of it; `Install.InstallUpdate` says which error it is.
- Link.Link.HandleDeviceFrame: `identify` calls back into the application, changes nothing here, and is treated as an unknown event; reasons inside an error are dropped.
- Link.Link.SendLogs: the queue behind it may hold any number of lines at any time, since any thread may log, and of a message of lines only their number is kept; `LogQueue` is the queue.
- Extension versions: only whether logging may be batched is kept of an invitation; a location's and a health report's contents are not.
- LogQueue: the drop counter and byte counts are unbounded, as are the microseconds of the clock; locks are not poisoned, and memory does not run out.
- Meta: the order and number of a line's other fields.
- Console: one terminal cell to a character; `Output`'s cutting of long answers.
- Ota: `written` counts bytes of a patch, not of the image it makes; what the delta library does with them is its own.
- Reassembly: pieces are as the client's documentation has them, none empty but the only one of an empty frame, for the results about whole messages; every other result is for any pieces.
- Plumbing: HTTP, identity, TLS sessions' storage, boot metadata, Wi-Fi and health metrics.

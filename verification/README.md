# Verified model of the DMX firmware cores

This project models the state machines at the heart of a DMX lighting controller with a browser
remote control, and proves what they promise over all inputs and all runs. `dafny verify
dfyconfig.toml` checks everything.

| file | what it models |
|---|---|
| `live_state.dfy`, `bridge.dfy`, `browser.dfy` | the live-state protocol: bridge, dispatcher and controller on the device, the store in the browser, owner and HTTP tasks interleaved |
| `live_answers.dfy`, `live_replies.dfy`, `live_transfer.dfy`, `live_effects.dfy` | in that protocol: one event for each message a client sends; what it is answered; the archive import; what each step does |
| `bridge_server.dfy`, `owner_task.dfy` | the bridge object with its client slots and rings, and the owner task over all its objects; each locked block is one protocol step |
| `controller.dfy`, `controller_effects.dfy`, `dispatcher.dfy`, `dispatcher_effects.dfy` | the controller's commands and revisions and what they do to the universe; the command FIFO with admission, and that the wire follows the controller |
| `transport.dfy`, `transport_effects.dfy`, `tx_core.dfy`, `ring.dfy` | DMX output: latest frame and barrier ring over the transmit phase machine; progress with a driver that cooperates |
| `maintenance.dfy`, `maintenance_effects.dfy` | restart and power-off over the transport: safety, and that a restart gets through |
| `wire_output.dfy`, `wire_effects.dfy` | the transport on its driver, down to the bytes in the FIFO |
| `preset_store.dfy`, `preset_archive.dfy`, `preset_reader.dfy`, `archive_grammar.dfy` | the two-bank preset store; the archive text, its parser, printer and grammar |
| `archive_transfer.dfy`, `archive_upload.dfy` | chunked import and export; that an upload sent in order arrives |
| `wifi_journal.dfy`, `faults.dfy`, `words.dfy` | the Wi-Fi undo journal; storage faults and words shared with the preset store |
| `base64.dfy`, `wire_guard.dfy` | the two canonical Base64 codecs, the stream guard in front of the frame decoder |
| `device_settings.dfy`, `thdiff.dfy`, `thdiff_effects.dfy` | preview and commit of device settings; the guarded register trial, what it never does and how it gets under way |

How it is built. Each machine has a specification: a `State` value, step functions with the same
branches as the code, and whole-run lemmas about them. Beside it stands a class with the code's own
fields, arrays and loops, whose methods are proved equal to the step functions. What the outside
answers (drivers, storage, radio, clocks, register bus) is a parameter of each step, so a lemma over
all runs is one over all answers. Names such as `past`, `sent`, `shown`, `writes` and `entry` in a
state are a record of what happened, never read by the steps. The modules named `...Effects` say, without
naming the step functions' parts, what each operation is for: when it acts, what it then does and what it
leaves alone; the progress results in them say that the machines do get somewhere.

Storage. Every key is written atomically. A read is truthful or reports an error; a write or an erase
that reports failure may have taken effect; power may be cut at any call, before or after its effect,
and then nothing changes any more.

Concurrency. The owner task works out what to send and sends it block by block, each block under the
lock. In the protocol model these blocks are scheduled (`pending`) and any HTTP call may come between
two of them.

Where the code and the expectations about it differ, the code is followed:

- A refusal carries the id of the message it refuses, and a malformed message does not use up its id. So an
  id can be carried by a refusal before it is granted, or after: `LiveAnswers.RefusalMayRepeatAnId` gives
  both runs. Granted ids are answered once each; an answered id is carried by one event alone if and only
  if its client named it once (`LiveAnswers.AnsweredOnce`), which a client can see to before it sends.
- The 2000 ms deadline bounds the decision to restart, not the restart: the machine tests its executing phase
  before the deadline, so the next owner poll executes, however late it comes
  (`Maintenance.ExecutionIsNextPoll`, `Maintenance.LateRestart`).
- The stream guard reports an extended length of 512 or more only with its second byte;
  `WireGuard.FailsOnlyWhenHopeless` says so and that it is the only delay.
- A reset of the sender darkens the controller but is not published by the dispatcher; whoever resets sees to the
  wire. `DispatcherEffects.OneEntryInStep` says exactly when an entry leaves the newest frame behind.
- Wi-Fi text: the decoder accepts the empty text into a buffer of any size; `Base64.WireTravels` states it.

## Model

| member | source | states |
|---|---|---|
| LiveState.EveryBrowserIsAReplica | src/websocket_bridge.cpp:81-151 | Replica theorem over every run from power-up, owner blocks and HTTP calls interleaved: each connected client is served as `Served` says; a ready browser that has received its events shows exactly the 512 values, blackout, loaded slot, modified flag, sender mode and preset metadata of the device, and no guard of its message handler ever fires |
| LiveState.InvServes | src/websocket_bridge.cpp:24-29 | The invariant gives every client: its queue is the tail of one stream, owner events in it strictly increase, granted ids are the answers so far followed by at most four owed ones |
| LiveState.RunKeepsInv | src/websocket_bridge.cpp:110-249 | The protocol invariant holds along every run of enabled steps |
| LiveState.StepKeepsInv | src/websocket_bridge.cpp:110-249 | Every single step, HTTP or owner, keeps the invariant |
| LiveState.PublishedPlan | src/websocket_bridge.cpp:219-240 | Whatever a command did to the controller, what `completed` schedules brings every page to the new state, with nothing left out when the revision did not move |
| LiveState.SnapshottedPlan | src/websocket_bridge.cpp:131-151 | The snapshot captured for one client is exactly what is published by the time it is delivered, also when reading the preset metadata finds it changed |
| LiveState.FlightIsQueued | src/websocket_bridge.cpp:213-249 | A command in flight is the one external entry of the dispatcher queue, so exactly its completion answers the request it came from |
| LiveAnswers.EveryMessageIsAnswered | src/websocket_bridge.cpp:66-80 | Conservation of ids over every run from power-up: for each connected client and each nonzero id, the events carrying it plus the granted request still owed under it are exactly the messages in which the client named it |
| LiveAnswers.AnsweredOnce | src/websocket_bridge.cpp:66-80 | For every answered id of every client in every run: exactly one event carries it if and only if the client named it exactly once since it connected, malformed messages included |
| LiveAnswers.RunAccounts | src/websocket_bridge.cpp:24-29 | Along every run each message that reached a client was granted or refused by one event with its id |
| LiveAnswers.RefusalMayRepeatAnId | src/websocket_bridge.cpp:71-76 | From every start state a run in which "one event per accepted id" fails: a client names an id in a malformed message and then in a request, or twice in a request; it is granted and answered once and two events carry the id |
| LiveTransfer.ReplacementIsTheUpload | src/websocket_bridge.cpp:271-314 | In the whole protocol, a new stored content is the parse of exactly the chunks accepted from the owner, at the preset revision the import began with |
| LiveTransfer.LaterWriteRefuses | src/dmx_controller.cpp:204-216 | In the whole protocol: once a command moved the preset revision, the transfer open at that time replaces nothing in any further run |
| LiveTransfer.InitialTransfer | src/websocket_bridge.cpp:30-43 | The transfer invariant holds when the device starts |
| LiveTransfer.RunKeepsTransfer | src/websocket_bridge.cpp:271-314 | The transfer invariant survives every interleaving of clients, commands and expiry |
| Bridge.HttpKeeps | src/websocket_bridge.cpp:30-80 | Open, close, take and receive, at any moment between two owner blocks, keep queues, tokens, owed answers and replicas coherent |
| Bridge.EmitKeeps | src/websocket_bridge.cpp:98-109 | Every locked block of the owner task keeps them coherent: a full queue drops the client, never an event |
| Bridge.ReceiveKeeps | src/websocket_bridge.cpp:66-80 | Receiving keeps the bridge coherent and touches its client only: past the rate limit it drops it; a refusal adds one event with the id of the message and changes no granted id; a grant is new, leaves the stream alone, adds its id and its request, with at most four outstanding and the inbox never over full |
| Bridge.OpenKeeps | src/websocket_bridge.cpp:30-43 | Opening fails exactly when the inbox is full, the generations are used up or no slot is free, and then changes nothing; otherwise the new client has a generation no client or waiting request had, an empty record and exactly its greeting owed, and the others are as they were |
| Bridge.TakeKeeps | src/websocket_bridge.cpp:59-64 | Taking removes the oldest queued event and nothing else; the stream of the client is as it was |
| Bridge.CloseKeeps | src/websocket_bridge.cpp:44-44 | Closing ends that token, leaves all other clients and the requests alone, and a stale token changes nothing |
| Bridge.AnswerKeeps | src/websocket_bridge.cpp:102-109 | An answer settles exactly the oldest owed request of its client |
| Bridge.GreetedKeeps | src/websocket_bridge.cpp:131-151 | Hello and first snapshot bring a page that heard only refusals to the published content |
| Bridge.BroadcastKeeps | src/websocket_bridge.cpp:98-101 | A broadcast moves every listening page to the new content and leaves the others unheard |
| BridgeServer.Server.OpenNow | src/websocket_bridge.cpp:30-43 | The object does exactly the protocol step `Open`, in its client slots and inbox ring |
| BridgeServer.Server.CloseNow | src/websocket_bridge.cpp:44-44 | The object does exactly the protocol step `Close` |
| BridgeServer.Server.TakeNow | src/websocket_bridge.cpp:59-64 | The object does exactly the protocol step `Take` |
| BridgeServer.Server.ReceiveNow | src/websocket_bridge.cpp:66-80 | The object does exactly the protocol step `Receive` |
| BridgeServer.Server.BroadcastNow | src/websocket_bridge.cpp:98-101 | The locked loop over the four slots is exactly one broadcast block |
| BridgeServer.Server.AnswerNow | src/websocket_bridge.cpp:102-109 | The locked part of a reply is exactly one answer block |
| BridgeServer.Server.DeliverNow | src/websocket_bridge.cpp:144-149 | The locked end of a snapshot is exactly one delivery block |
| BridgeServer.Server.SubscribeNow | src/websocket_bridge.cpp:196-198 | The locked subscription is exactly one subscription block |
| BridgeServer.Server.MakeEvent | src/websocket_bridge.cpp:81-97 | `state`: the event describes the controller as it is and takes the next sequence |
| BridgeServer.Server.InspectPresets | src/websocket_bridge.cpp:87-93 | The loop over the eight slots refreshes the metadata and marks it stale again when any slot could not be read |
| BridgeServer.Server.ReplyNow | src/websocket_bridge.cpp:102-109 | `reply` equals scheduling its answer and running it |
| BridgeServer.Server.SnapshotNow | src/websocket_bridge.cpp:131-151 | The snapshot turn equals its schedule run at once, the early broadcast of changed metadata included |
| BridgeServer.Server.PublishNow | src/websocket_bridge.cpp:219-240 | The publication half of `completed` equals its schedule run at once |
| BridgeServer.Server.CompletedNow | src/websocket_bridge.cpp:219-249 | `completed` equals its schedule run at once: publish, then answer the flight |
| BridgeServer.Server.SideNow | src/websocket_bridge.cpp:163-212 | A request to a side service: subscribe, or let the service answer if the client had subscribed before; pass on news, answer, in that order |
| BridgeServer.Server.ModeNow | src/websocket_bridge.cpp:127-127 | A changed sender mode is announced once |
| BridgeServer.EmitIgnores | src/websocket_bridge.cpp:98-109 | A locked block neither reads nor changes what only the owner task keeps |
| BridgeServer.DrainCounted | src/websocket_bridge.cpp:110-249 | Working an event out after the earlier blocks have run, or before, comes to the same |
| OwnerTask.Owner.ServeNow | src/websocket_bridge.cpp:128-218 | One inbox request taken and dealt with across bridge, archive transfer, dispatcher and controller objects equals the protocol step with its blocks run |
| OwnerTask.Owner.SubmitFor | src/websocket_bridge.cpp:213-217 | Handing a command to the dispatcher: in flight, or refused at once and an archive transfer aborted |
| OwnerTask.Owner.RunHeadNow | src/command_dispatcher.cpp:152-161 | Carrying out the oldest command on the objects, with its completion, equals the protocol step |
| OwnerTask.Owner.constructor | src/websocket_bridge.cpp:7-9 | The objects as the device starts form a start state of the protocol theorems, the transfer invariant included |
| OwnerTask.Owner.SoundServes | src/websocket_bridge.cpp:110-249 | Whenever the objects are between turns, every connected browser is served as the replica theorem says |
| OwnerTask.Owner.OwnerPoll | src/websocket_bridge.cpp:110-218 | `ownerPoll` on the objects: expiry, news and mode, then one request when none is in flight; what the theorems promise holds again afterwards |
| OwnerTask.Owner.CommandTurn | src/command_dispatcher.cpp:152-177 | A command carried out on the objects keeps what the theorems promise |
| OwnerTask.Owner.HttpCall | src/websocket_bridge.cpp:30-80 | Every call of the HTTP task on the objects is the protocol step and keeps what the theorems promise |
| OwnerTask.TurnIsSteady | src/websocket_bridge.cpp:110-249 | Any protocol step with its blocks run at once leads from one such state to the next |
| OwnerTask.Owner.PrepareNow | src/websocket_bridge.cpp:110-127 | The first half of `ownerPoll` equals the protocol step; owner, mode and the 10 s and 120 s limits of the transfer are looked up |
| OwnerTask.TurnsKeepReplicas | src/websocket_bridge.cpp:110-249 | A turn of the objects is a run of the protocol, so after every turn nothing is left to send and the replica statement holds |
| OwnerTask.PlayedIsARun | src/websocket_bridge.cpp:110-249 | Running the scheduled blocks at once is a run of emit steps |
| LiveReplies.AnswersTellTheTruth | src/websocket_bridge.cpp:102-109 | Over every run from power-up, of every answer a client was sent: it carries the id of a request of that client, a command is acknowledged if and only if the dispatcher carried out that very command with status applied or no change, it gets an error if and only if it was refused without being queued or carried out with another end, and an archive request gets an archive result |
| LiveReplies.RunRecorded | src/websocket_bridge.cpp:219-249 | Along every run each answer that is queued for a client or waits to be sent is one the owner task worked out for a request of that client |
| LiveEffects.ReceiveTells | src/websocket_bridge.cpp:66-80 | A message costs the client its connection past 20 in a second, is granted if and only if it is a decoded request of a ready client with a new id, fewer than four outstanding and room in the inbox, and is refused by one event otherwise |
| LiveEffects.EmitTells | src/websocket_bridge.cpp:98-109 | Each locked block reaches exactly the clients it is meant for; the ninth event costs a client its connection |
| LiveEffects.PublishTells | src/websocket_bridge.cpp:219-240 | A command is told to everybody if and only if the revision moved, a load succeeded, or the storage failed a command on presets; a channel command as one channel, anything else as the whole state |
| LiveEffects.ServeTells | src/websocket_bridge.cpp:128-217 | A turn deals with the oldest request: forgotten when its client is gone, a snapshot, an archive or side request, or a command, which a committed restart turns into an error |
| LiveEffects.CommandTells | src/websocket_bridge.cpp:213-217 | A command is queued under a fresh nonzero id and in flight if and only if it is valid and there is room, and refused at once otherwise |
| LiveEffects.SnapshotTells | src/websocket_bridge.cpp:131-151 | A snapshot turn ends with the delivery of the state as it is, hello before it for a new client; others are told exactly when the preset metadata changed |
| LiveEffects.SideTells | src/websocket_bridge.cpp:163-212 | A side service answers only a client that had subscribed before; a subscription, news and the answer go out in that order |
| LiveEffects.PrepareTells | src/websocket_bridge.cpp:110-127 | An open transfer outlasts an owner turn if and only if the device is and stays in sender mode, nothing else is at work, its owner is connected and the 10 s and 120 s limits have not passed |
| LiveEffects.CompletedTells | src/websocket_bridge.cpp:240-249 | A completion ends the flight if and only if it is of the command in flight, and with it an archive transfer |
| LiveEffects.SideNewsTells | src/websocket_bridge.cpp:112-126 | Each piece of news is one update, in order, to the subscribers of its side |
| Browser.FaultStays | web/src/core.js:568-613 | A fault of the handler is never forgotten, so a stream without one has none in any prefix |
| Browser.GuardsFire | web/src/core.js:568-613 | Exactly when a guard of the message handler fires, kind by kind |
| Browser.AcceptedTells | web/src/core.js:263-276 | What an accepted message leaves on the page: a full state all of it, an update what it names, an answer nothing |
| Browser.Store.Handle | web/src/core.js:568-613 | The message handler on the browser store computes exactly `Receive`: order check, hello, snapshot, waiting and acknowledgement guards |
| Browser.Store.Apply | web/src/core.js:263-276 | `apply`: a full state replaces all values, a channel update exactly one |
| Browser.Store.InOrder | web/src/core.js:257-261 | `order`: stale, resync or ordered |
| Controller.RevisionDetectsChange | src/dmx_controller.cpp:10-16 | The revision moves by at most one per command, and when it does not move the working values, blackout, loaded slot, modified flag and output are what they were |
| Controller.BlackoutRestoresEntry | src/dmx_controller.cpp:79-93 | Blackout, any commands but a reset, and leaving it gives back the packet of the moment of entry; meanwhile the output is all zero |
| Controller.EntryStateSurvives | src/dmx_controller.cpp:79-93 | No command but a reset touches the saved packet while blackout lasts |
| Controller.ExecuteKeepsInv | src/dmx_controller.cpp:18-216 | Byte 0 stays 0, loaded slots stay in range and a modified flag belongs to a loaded slot |
| Controller.ExecuteKeepsArchive | src/dmx_controller.cpp:193-216 | Only a replace command uses up the staged archive, nothing alters it, and the preset revision never goes back |
| Controller.PresetCommandFacts | src/dmx_controller.cpp:114-216 | What each preset command keeps and by how much it moves each revision, failures included |
| Controller.ChannelCommandIsLocal | src/dmx_controller.cpp:33-50 | A channel command changes one channel at most |
| Controller.PatchTouches | src/dmx_controller.cpp:62-66 | A patch of distinct channels changes the universe exactly when some entry differs |
| Controller.DmxController.SetMany | src/dmx_controller.cpp:52-72 | Both scans, the writes in place and the change note compute `SetChannels` |
| Controller.DmxController.ScanPatch | src/dmx_controller.cpp:54-61 | The nested duplicate scan reports the first fault in order |
| Controller.DmxController.Blackout | src/dmx_controller.cpp:79-93 | In-place save and restore compute `SetBlackout` |
| Controller.DmxController.Load | src/dmx_controller.cpp:114-129 | `loadPreset` in place |
| Controller.DmxController.Save | src/dmx_controller.cpp:131-149 | `savePreset` in place, a failed write included |
| Controller.DmxController.Copy | src/dmx_controller.cpp:151-167 | `copyPreset` in place |
| Controller.DmxController.Clear | src/dmx_controller.cpp:169-180 | `clearPreset` in place |
| Controller.DmxController.Stage | src/dmx_controller.cpp:199-203 | `stageArchive` in place |
| Controller.DmxController.Replace | src/dmx_controller.cpp:204-216 | `replaceArchive` in place |
| Controller.DmxController.ResetAll | src/dmx_controller.cpp:18-27 | `reset` in place |
| Controller.DmxController.Run | src/command_dispatcher.cpp:88-121 | One command on the object computes `Execute` |
| ControllerEffects.SetSets | src/dmx_controller.cpp:33-42 | A valid set leaves exactly the asked value in its channel; out of range it changes nothing and gets its own refusal |
| ControllerEffects.AdjustAdjusts | src/dmx_controller.cpp:44-50 | An adjust leaves the old value plus delta, limited to 0..255 |
| ControllerEffects.PatchSets | src/dmx_controller.cpp:52-72 | A patch is accepted if and only if it has 1 to 8 entries in range with no channel twice, and then leaves each entry's value in its channel and all others alone |
| ControllerEffects.FaultIsFirst | src/dmx_controller.cpp:54-61 | A refused patch names what is wrong with its first entry that is not right: the channel, the value, or a channel named twice |
| ControllerEffects.BlackoutSwitches | src/dmx_controller.cpp:79-93 | Blackout shows all zeros and keeps the universe; leaving it shows the universe of the moment of entry |
| ControllerEffects.ResetClears | src/dmx_controller.cpp:18-27 | A reset leaves all zeros, no blackout and no loaded preset |
| ControllerEffects.LoadLoads | src/dmx_controller.cpp:114-129 | A load succeeds if and only if the slot is valid and can be read, and leaves the 512 stored values, unmodified |
| ControllerEffects.SaveStores | src/dmx_controller.cpp:131-149 | A save hands the working universe to the storage unless the slot already holds it, forgets the slot was loaded, and tells how the write ended |
| ControllerEffects.CopyStores | src/dmx_controller.cpp:151-167 | A copy hands over the source's values if and only if source and target differ, the source is readable and the target empty |
| ControllerEffects.ClearErases | src/dmx_controller.cpp:169-180 | A clear erases exactly a readable slot |
| ControllerEffects.StageStages | src/dmx_controller.cpp:199-203 | A text is staged, under the next nonzero token, if and only if no preset was touched since its base, the gate is open and it reads as an archive; otherwise nothing is staged any more |
| ControllerEffects.ReplaceReplaces | src/dmx_controller.cpp:204-216 | A replacement is handed over if and only if its token is the valid one, no preset was touched since it was staged and the gate is open |
| ControllerEffects.OthersWriteNoSlot | src/dmx_controller.cpp:18-216 | No other command hands a slot to the storage |
| Dispatcher.AdmittedNeverFails | src/view_sender.h:698-711 | After the admission test an applied command never ends in a transport error |
| Dispatcher.LocalRunsLast | src/command_dispatcher.cpp:179-202 | `executeLocal` applies its command only when every older queued one has been applied, in order, and leaves the queue empty |
| Dispatcher.RunKeepsInv | src/command_dispatcher.cpp:66-202 | Along every run: what was submitted is what was applied followed by what is queued, in order, and nothing applied ended in a transport error |
| Dispatcher.CommandDispatcher.Check | src/command_dispatcher.cpp:21-64 | `validate` computes the verdict of the specification |
| Dispatcher.CommandDispatcher.SubmitOrder | src/command_dispatcher.cpp:66-77 | `submit` on the ring |
| Dispatcher.CommandDispatcher.ApplyEntry | src/command_dispatcher.cpp:79-150 | `apply`: revalidation, the command, the verdict and the publication |
| Dispatcher.CommandDispatcher.ProcessQueue | src/command_dispatcher.cpp:163-177 | `process`: the loop stops at the budget or at an entry the transport has no room for |
| Dispatcher.CommandDispatcher.RunLocal | src/command_dispatcher.cpp:179-202 | `executeLocal` on the object |
| Dispatcher.CheckPatch | src/command_dispatcher.cpp:35-41 | The duplicate scan accepts exactly well-formed patches |
| DispatcherEffects.PublishedIsOutput | src/command_dispatcher.cpp:140-148 | Whatever an entry publishes is the output after the command: `latest` and the newest staged frame equal it, as an ordered barrier for a blackout command; channel, patch, blackout and load commands that change the output are always published |
| DispatcherEffects.WireFollowsController | src/view_sender.h:693-696 | Over every run of submissions, processing, local commands, mode changes and driver polls, as long as nobody else stages frames and nobody resets the sender: the newest frame held for the wire is the output of the controller as it is now |
| DispatcherEffects.OneEntryInStep | src/command_dispatcher.cpp:140-148 | One entry keeps the newest frame in step with the controller if and only if it is not a reset carried out while a frame is held and some light is on: a reset darkens the controller and is not published |
| DispatcherEffects.ValidationAgrees | src/command_dispatcher.cpp:21-64 | Validation finds a channel, patch or slot command invalid if and only if the controller would refuse it as malformed |
| DispatcherEffects.ValidationTells | src/command_dispatcher.cpp:21-64 | When each kind of command is invalid, and that a valid one is accepted exactly in sender mode |
| DispatcherEffects.ResultTells | src/command_dispatcher.cpp:122-139 | Applied means the revision moved, no change that nothing visible did, and each other status names what was refused |
| DispatcherEffects.SubmitTells | src/command_dispatcher.cpp:66-77 | A valid command becomes the newest entry under a fresh nonzero ticket if and only if fewer than 32 wait |
| DispatcherEffects.ProcessDrains | src/command_dispatcher.cpp:163-177 | Processing stops only at its budget, at an empty queue, or at a valid entry the transport has no room for |
| DispatcherEffects.BusyWithin | src/command_dispatcher.cpp:66-68 | While a command is being carried out, every call from within is refused as busy and changes nothing |
| DispatcherEffects.LocalRunsWhenItCan | src/command_dispatcher.cpp:179-202 | A local command runs if and only if it is valid, everything older was carried out and the transport has room |
| Transport.BarrierDiscipline | src/dmx_transport.cpp:4-116 | Over every run from power-up: barriers leave in staging order, staged = completed + cancelled + pending, one leaves as completed only when a frame with its own serial and packet was started and finished, and no newer frame starts while one waits |
| Transport.RunKeepsInv | src/dmx_transport.cpp:4-116 | Counters stay ordered (completed, accepted, published, requested), ring and record agree, along every run |
| Transport.RunIsLater | src/dmx_transport.cpp:94-116 | Acceptance never goes back, across the explicit counter restart too, and nothing starts once the fault is latched |
| Transport.FinishedWasStarted | src/dmx_transport.cpp:64-68 | A finished serial belongs to a staged frame that was started unaltered |
| Transport.StepRecordsCompletion | src/dmx_transport.cpp:64-74 | The completed counter names exactly the last finished frame |
| Transport.DmxTransport.StagePacket | src/dmx_transport.cpp:9-24 | `stage` on the ring |
| Transport.DmxTransport.SetWanted | src/dmx_transport.cpp:26-35 | `requestSender`: leaving cancels every pending barrier and counts it |
| Transport.DmxTransport.PollDriver | src/dmx_transport.cpp:45-92 | `poll` on the object |
| Transport.DmxTransport.Service | src/dmx_transport.cpp:94-116 | `serviceTx` on the object; it reports a start exactly when one is recorded |
| TransportEffects.StageTakes | src/dmx_transport.cpp:4-10 | A frame is taken if and only if it has 513 bytes, start code 0, sender mode and, as a barrier, room among four |
| TransportEffects.StageTells | src/dmx_transport.cpp:9-24 | A taken frame is the newest, with the next generation, and as a barrier the last obligation; a refused one changes nothing |
| TransportEffects.SenderTells | src/dmx_transport.cpp:26-35 | Leaving sender mode gives up and counts every obligation and the newest frame; entering changes the wish alone |
| TransportEffects.PollFaults | src/dmx_transport.cpp:45-63 | A driver that does not answer, speaks of another attempt or reports a fault latches the fault, counted once |
| TransportEffects.NoticeTells | src/dmx_transport.cpp:57-74 | The attempt in flight ends exactly when the port is ready: complete, its frame is finished and its barrier leaves; otherwise none does |
| TransportEffects.NoticeCharges | src/dmx_transport.cpp:37-43 | Completion clears the failures in a row, another end counts one, and the third in a row latches the fault |
| TransportEffects.CallTells | src/dmx_transport.cpp:75-91 | Which call a poll makes on the driver, if and only if |
| TransportEffects.SteerTells | src/dmx_transport.cpp:75-91 | A refused call latches the fault; an accepted one changes at most the known write mode |
| TransportEffects.ServiceTells | src/dmx_transport.cpp:94-116 | A frame is offered if and only if nothing stands against it: the oldest barrier, or the newest frame when none waits; a refusal counts one failure and delays the next start |
| TransportEffects.BarriersGoOut | src/dmx_transport.cpp:45-116 | Progress: with a driver that cooperates, as many services as there are barriers send all of them, oldest first, and nothing else |
| Rings.Ring.Push | src/dmx_transport.cpp:17-22 | The ring buffer refines a sequence: push appends |
| Rings.Ring.Pop | src/dmx_transport.cpp:69-72 | Pop removes the oldest |
| TxCore.CompleteMeansWholeFrame | patches/esp_dmx_v202/tx_service.h:19-42 | Completion is honest: the FIFO got exactly the requested slots in order, done latched after the last of them, and the line was idle |
| TxCore.TwoPollsBoundAnAttempt | patches/esp_dmx_v202/tx_core.h:60-76 | An attempt polled at or after four frame times, and again two frame times after retirement, is READY or FAULT_STOPPED if and only if it was not still preparing |
| TxCore.RetirementIsStable | patches/esp_dmx_v202/tx_core.h:33-76 | An attempt only moves forward: the retirement time is kept and the end phases are never left; a preparing port ignores every step |
| TxCore.StepKeepsCoherent | patches/esp_dmx_v202/tx_core.h:33-76 | Every service step keeps phase, FIFO contents and flags coherent |
| TxCore.TxPort.Fill | patches/esp_dmx_v202/tx_service.h:19-31 | `dmx_tx_fill_locked` on the port |
| TxCore.TxPort.Poll | patches/esp_dmx_v202/tx_service.h:32-42 | `dmx_tx_poll_locked` on the port |
| WireEffects.FrameIsDelivered | src/dmx_transport.cpp:45-116 | Progress through all layers: whatever is due next, the oldest barrier or the newest frame, a service call starts it; when the hardware takes the rest in whatever pieces and reports done on an idle line, the next poll counts it as finished and exactly its 513 slots were in the FIFO |
| WireEffects.FrameCompletes | patches/esp_dmx_v202/tx_service.h:19-42 | Progress: however the hardware cuts a frame into fills, when it takes every byte and then reports done on an idle line the attempt is complete |
| WireEffects.FillTells | patches/esp_dmx_v202/tx_core.h:40-57 | When a fill counts its bytes, drains the frame, or retires the attempt as an underrun or failed start |
| WireEffects.PollTells | patches/esp_dmx_v202/tx_core.h:56-76 | When a poll completes, times out, frees or gives up the port |
| WireEffects.StartTells | patches/esp_dmx_v202/tx_api.inc:52-99 | A start is taken by a ready port in write mode on an idle line; the attempt gets the next nonzero number and the written packet |
| WireEffects.CallsTell | patches/esp_dmx_v202/tx_api.inc:7-51 | What cancel, mode change and write do, and when they are refused |
| WireOutput.FinishedWentOut | src/dmx_transport.cpp:64-74 | Over every run of the transport on its driver, interrupts at any time: each frame counted as finished, and so each barrier that left as completed, had all 513 slots of its own packet in the FIFO, done latched after the last and the line idle |
| WireOutput.RestartReachesTheWire | include/maintenance_transport.h:11-26 | For any maintenance run and any driver history answering its calls: the zero frames a restart rests on, three at least out of sender mode, went out whole |
| WireOutput.NoOtherAttemptIsReported | src/dmx_transport.cpp:52-56 | The driver always reports the attempt in flight, so the guard against another one never fires |
| WireOutput.RunKeepsInv | patches/esp_dmx_v202/tx_api.inc:25-99 | The attempt in flight carries the staged packet of its serial along every run |
| WireOutput.StartedCarries | patches/esp_dmx_v202/tx_api.inc:52-99 | A start takes a fresh attempt number and its own copy of the packet written |
| WireOutput.RunIsItsTrace | include/maintenance_transport.h:11-26 | The calls a maintenance run makes are all that happens to its transport |
| WireOutput.PortDriver.PollNow | patches/esp_dmx_v202/tx_api.inc:25-35 | `dmx_tx_poll` on the port |
| WireOutput.PortDriver.CancelNow | patches/esp_dmx_v202/tx_api.inc:36-51 | `dmx_tx_cancel` on the port |
| WireOutput.PortDriver.StartNow | patches/esp_dmx_v202/tx_api.inc:52-99 | `dmx_tx_start` on the port, the first fill included |
| WireOutput.PortDriver.WritePacket | patches/esp_dmx_v202/tx_api.inc:7-15 | `dmx_write_packet` |
| WireOutput.PortDriver.SetMode | patches/esp_dmx_v202/tx_mode.inc:1-34 | `dmx_set_mode`: only a ready and idle port changes its mode |
| Maintenance.RestartSafety | include/device_maintenance.h:57-89 | In every run, with any other use of the transport in between: `execute` runs at most once per boot; a restart was decided before the 2000 ms deadline, after the transport left write mode with nothing in flight and, when committed in sender mode, after three distinct all-zero frames staged after the commit were started and finished |
| Maintenance.ExecutionIsNextPoll | include/device_maintenance.h:67-68 | Over every run, `execute` is called by the first owner poll after the decision, whenever that comes: past the deadline if and only if that poll is |
| Maintenance.LateRestart | include/device_maintenance.h:67-68 | From every start state a restart decided 1 ms after its commit and executed at any later time one cares to choose |
| Maintenance.CountdownCommitsAfterWindow | include/device_maintenance.h:31-64 | A countdown commits exactly when its whole window has passed, so a cancel inside it wins |
| Maintenance.NothingExecutesUnasked | include/device_maintenance.h:43-66 | Nothing executes after a cancel until a new request, nor ever after a failure |
| Maintenance.RunKeepsInv | include/device_maintenance.h:36-90 | The layered invariant of machine, adapter and transport holds along every run |
| MaintenanceEffects.RestartGoesThrough | include/device_maintenance.h:57-79 | Progress: with a cooperating driver and polls in time a restart committed in sender mode sends its three zero frames and is decided by the ninth poll |
| MaintenanceEffects.RequestTells | include/device_maintenance.h:36-42 | A request is accepted if and only if it names owner, id and action, nothing is under way and the device is not busy; it opens a window of five seconds |
| MaintenanceEffects.CancelTells | include/device_maintenance.h:43-51 | A cancel takes effect exactly inside the window, from the device or from the owner of the request |
| MaintenanceEffects.LocalTells | include/device_maintenance.h:52-56 | A request at the device commits at once |
| MaintenanceEffects.CountdownTells | include/device_maintenance.h:31-35 | The seconds shown are those left, rounded up; the revision moves exactly when that number does; at the end the action commits |
| MaintenanceEffects.PollTells | include/device_maintenance.h:57-68 | After 2000 ms of preparation the machine fails and leaves the transport alone; executing is done once |
| MaintenanceEffects.ZeroingTells | include/device_maintenance.h:69-74 | Three zero frames are counted before quiescing |
| MaintenanceEffects.QuiescingTells | include/device_maintenance.h:75-79 | The machine decides to execute exactly when quiescing is ready |
| MaintenanceEffects.ZeroFrameTells | include/maintenance_transport.h:11-21 | A zero frame is ready exactly when the one staged for it is the last completed, and is staged exactly when none is owed and no barrier waits |
| MaintenanceEffects.QuiesceTells | include/maintenance_transport.h:22-26 | Quiescing is ready exactly when write mode is left with nothing in flight |
| Maintenance.DeviceMaintenance.PollOwner | include/device_maintenance.h:57-79 | `poll` on the object |
| Maintenance.DeviceMaintenance.RequestAction | include/device_maintenance.h:36-42 | `request` on the object |
| Maintenance.DeviceMaintenance.CancelRemote | include/device_maintenance.h:43-46 | `cancel` on the object |
| Maintenance.DeviceMaintenance.CancelAtDevice | include/device_maintenance.h:47-51 | `cancelPhysical` on the object |
| Maintenance.DeviceMaintenance.LocalAction | include/device_maintenance.h:52-56 | `local` on the object |
| Maintenance.MaintenanceTransport.ZeroFrameStep | include/maintenance_transport.h:11-21 | `zeroFrame` driving the transport object |
| Maintenance.MaintenanceTransport.QuiesceStep | include/maintenance_transport.h:22-26 | `quiesce` driving the transport object |
| PresetArchive.ParsePrinted | include/preset_archive.h:43-86 | Parsing what was printed gives back the presence mask and the values, absent slots zero, for every collection |
| ArchiveGrammar.ParserIsTheGrammar | include/preset_archive.h:43-75 | The parser is the grammar: a text is accepted and read as `c` if and only if it has at most 32768 characters and is the text of a document of the grammar that means `c`, for every text; blanks, escapes, byte order mark and the order of fields included |
| ArchiveGrammar.DocumentTells | include/preset_archive.h:43-75 | What a document means: exactly the slots its records name, with their values, and zero elsewhere |
| ArchiveGrammar.RecordTells | include/preset_archive.h:51-67 | A record has exactly three fields, each once in any order: its slot, the name of that slot, and 512 values |
| ArchiveGrammar.TextReads | include/preset_archive.h:26-37 | Every way to write a string, with each character as it is or escaped, is read as what it means |
| ArchiveGrammar.NumberReads | include/preset_archive.h:38-41 | Every decimal number without sign or leading zero that fits 32 bits is read as its value |
| PresetArchive.PrintFits | include/preset_archive.h:76-86 | No archive is longer than 16713 characters, so printing never outgrows the file limit |
| PresetArchive.PrintInjective | include/preset_archive.h:76-86 | Different contents have different texts |
| PresetReader.ParseArchive | include/preset_archive.h:43-75 | The parser loops over the input array, ending because each consumes input, and computes `Parse` |
| PresetReader.PrintArchive | include/preset_archive.h:76-86 | The printer fills the buffer with exactly the archive text, or returns 0 when it does not fit |
| PresetReader.Reader.ReadText | include/preset_archive.h:26-37 | The string reader with its escapes |
| PresetReader.Reader.ReadNumber | include/preset_archive.h:38-41 | The number reader: no overflow past 32 bits and no leading zero |
| PresetReader.Reader.ReadAllValues | include/preset_archive.h:63-63 | Exactly 512 byte values |
| PresetReader.Reader.ReadOneRecord | include/preset_archive.h:54-67 | One record, its keys in any order, its name matching its slot, no slot twice |
| PresetReader.Printer.PutNumber | include/preset_archive.h:79-79 | Digits produced lowest first come out in reading order |
| ArchiveTransfer.ReplacementIsTheUpload | src/websocket_bridge.cpp:271-314 | A stored replacement is the parse of exactly the accepted chunks in order, at the revision the import began with, its token used up, live values untouched |
| ArchiveTransfer.RunKeepsInv | src/websocket_bridge.cpp:271-314 | While importing the received part of the buffer is the chunks in order; a staged token stands for their parse |
| ArchiveTransfer.OthersCannotInterfere | src/websocket_bridge.cpp:286-299 | A client that does not own the transfer cannot alter it and reads nothing of it |
| ArchiveTransfer.WritesMovePresetRevision | src/dmx_controller.cpp:131-216 | A command that reaches the storage moves the preset revision by one, failed writes included; only commands that touch presets ever move it |
| ArchiveTransfer.LaterWriteRefuses | src/dmx_controller.cpp:199-216 | Over whole runs: once a save, copy, clear or replace reached the storage, the transfer open at that time replaces nothing, whatever happens next |
| ArchiveTransfer.RunIsOnward | src/websocket_bridge.cpp:271-314 | Transfers and preset revisions are numbered upwards, and a transfer keeps the revision it began with |
| ArchiveTransfer.ExportReadsBack | src/websocket_bridge.cpp:285-302 | Reading an export at successive offsets yields the archive text, which parses back to the captured collection |
| ArchiveUpload.UploadIsSubmitted | src/websocket_bridge.cpp:271-314 | The import as a whole: any text of 1 to 32768 characters sent in order in pieces of 1 to 96, other clients and commands in between, is staged piece by piece, and its apply submits if and only if the text reads as an archive, the gate is open and no preset was touched meanwhile; what is staged is what the text says |
| ArchiveUpload.UploadArrives | src/websocket_bridge.cpp:303-305 | Every piece sent in order is answered "staged" and the received text is exactly what was sent so far |
| ArchiveUpload.ChunkTells | src/websocket_bridge.cpp:303-313 | A chunk is taken if and only if it starts where the last one ended and fits; any other ends the transfer |
| ArchiveUpload.ImportBegins | src/websocket_bridge.cpp:282-298 | An import begins if and only if the slot is free, the buffer is large enough and tokens are left |
| ArchiveUpload.ApplyTells | src/websocket_bridge.cpp:306-312 | An apply submits if and only if the upload is complete, reads as an archive, the gate is open and no preset was touched |
| ArchiveUpload.ExportBegins | src/websocket_bridge.cpp:282-298 | An export begins if and only if the slot is free, tokens are left and the presets can be read; it announces length and number and leaves nothing staged |
| ArchiveUpload.ReadTells | src/websocket_bridge.cpp:302-302 | A read gives the 512 characters at its offset, or fewer at the end, and ends the export past it |
| ArchiveUpload.OthersLearnNothing | src/websocket_bridge.cpp:271-276 | A client that does not own the transfer is told nothing of it |
| ArchiveUpload.GoingOn | src/websocket_bridge.cpp:299-300 | A request under another token changes nothing; one under the right token renews the idle time alone |
| ArchiveUpload.AbortWipes | src/websocket_bridge.cpp:267-270 | What ends a transfer leaves neither owner nor lengths nor a character of the text |
| ArchiveUpload.CancelEnds | src/websocket_bridge.cpp:301-301 | A cancel by the owner ends the transfer at any stage |
| ArchiveTransfer.Transfer.HandleRequest | src/websocket_bridge.cpp:281-314 | `archiveRequest` on the buffer and the controller object |
| ArchiveTransfer.Transfer.StartRequest | src/websocket_bridge.cpp:283-298 | Starting an export or an import |
| ArchiveTransfer.Transfer.ContinueRequest | src/websocket_bridge.cpp:299-313 | Read, chunk, apply and cancel |
| ArchiveTransfer.Transfer.Abort | src/websocket_bridge.cpp:267-270 | `abortArchive` erases what was received and frees the transfer |
| Base64.DecodeEncoded | include/wifi_wire.h:8-28 | Decoding inverts encoding for every byte string (section 4 of RFC 4648) |
| Base64.DecodedIsCanonical | include/wifi_wire.h:14-19 | Whatever decodes is the encoding of what it decodes to (section 3.5 of RFC 4648) |
| Base64.ChunksTravel | include/preset_archive.h:87-98 | Archive chunks survive if and only if they have 1 to 96 bytes |
| Base64.ChunkCanonical | include/preset_archive.h:88-95 | Only texts that the encoder produces are accepted |
| Base64.WireTravels | web/src/js/commands.js:83-89 | What the browser encodes the device decodes, if and only if it is printable and fits the buffer with its terminator |
| Base64.WireInjective | include/wifi_wire.h:12-28 | Two accepted texts with the same meaning are the same text |
| Base64.EncodeFollowsTheStandard | include/preset_archive.h:96-98 | Character `k` of an encoding is the letter of the standard alphabet for the `k`th six bits of the data, most significant first, and padding follows to a multiple of four (section 4 of RFC 4648) |
| Base64.BrowserEncode | web/src/js/commands.js:83-89 | The encoder loop of the browser computes `Encode` |
| Base64.EncodeInto | include/preset_archive.h:96-98 | The device encoder fills the output with the encoding |
| Base64.UnbaseChunk | include/preset_archive.h:88-95 | The device decoder loop for chunks |
| Base64.DecodeWire | include/wifi_wire.h:12-28 | The device decoder loop for Wi-Fi text, stopping at the first byte that is not printable or does not fit |
| PresetStore.PublishIsAtomic | include/preset_archive_store.h:46-62 | Cut or fail any call of a publication: the next boot finds exactly the old content or exactly the new record; `ok` means the new one is selected, `failed` that the old one still is |
| PresetStore.PerformIsAtomic | src/preset_store.h:38-67 | One operation end to end and cut anywhere: the content is the old one or exactly what the operation makes of it, sealed; a reported failure changes nothing, a success leaves the asked slot as asked and the other seven as they were |
| PresetStore.AlwaysReadable | src/preset_store.h:38-67 | However many operations fail or are cut short, the storage boots to a readable content, each time the one before or exactly the one asked for |
| PresetStore.QuietPerform | src/preset_store.h:38-67 | With a storage that answers and open gates, a save, an erase of a present slot and a replacement are committed and have their effect; with a gate closed they fail and the content stays |
| PresetStore.QuietPublish | include/preset_archive_store.h:46-62 | With a storage that answers a loaded store commits if and only if both gates are open, and the next boot finds the sealed record |
| PresetStore.LoadTells | include/preset_archive_store.h:31-41 | What a load makes of everything it may read: empty, error, corrupt or the valid record |
| PresetStore.ValidTells | include/preset_archive_store.h:30-30 | A record is valid if and only if it begins with its magic and version, its reserved bytes are zero and its checksum is right |
| PresetStore.SwitchTells | include/preset_archive_store.h:57-61 | How the selector write is judged by what the selector then reads: committed, failed or uncertain |
| PresetStore.PublishEnds | include/preset_archive_store.h:46-62 | A store that did not end on the new bank has to be loaded again; a publication that is not let in changes nothing |
| PresetStore.CrcVector | include/preset_archive_store.h:26-26 | The checksum is CRC-32, reflected, from all ones: its value for one known byte |
| PresetStore.BitIsShift | include/preset_archive_store.h:42-45 | Slot `n` is bit `n` of the presence mask |
| PresetStore.DamageFailsClosed | include/preset_archive_store.h:31-41 | A selected record with one damaged byte is reported corrupt and no operation writes any more |
| PresetStore.OneByteIsDetected | include/preset_archive_store.h:26-30 | No single changed byte of a valid record leaves it valid |
| PresetStore.CrcBitInjective | include/preset_archive_store.h:26-26 | Each CRC bit step is a bijection |
| PresetStore.SealedIsValid | include/preset_archive_store.h:29-30 | Sealing makes a record valid and changes only its checksum field |
| PresetStore.LoadTellsContent | include/preset_archive_store.h:31-41 | A boot that reads without errors tells nothing stored, a valid record and corruption apart exactly |
| PresetStore.WithValuesIsLocal | include/preset_archive_store.h:42-45 | Writing one slot sets its bit and values and leaves the other seven |
| PresetStore.WithoutIsLocal | src/preset_store.h:58-64 | Clearing one slot leaves the other seven |
| PresetStore.ArchiveStore.LoadFrom | include/preset_archive_store.h:31-41 | `load` on the scratch buffer |
| PresetStore.ArchiveStore.PublishTo | include/preset_archive_store.h:46-62 | `publish` on the scratch buffer |
| PresetStore.ArchiveStore.CrcNow | include/preset_archive_store.h:26-26 | The CRC loops compute the checksum with its own field read as zero |
| PresetStore.ArchiveStore.SealNow | include/preset_archive_store.h:29-29 | `seal` in place |
| WifiJournal.CutAnywhereRecovers | include/wifi_credential_transaction.h:45-94 | Cut `execute` anywhere and interrupt recovery any number of times: the first recovery that completes leaves exactly the previous bytes if the journal had outlived the change, and otherwise what the change left, the previous bytes or the accepted candidate |
| WifiJournal.ExecuteIsSafe | include/wifi_credential_transaction.h:71-94 | `done` means candidate stored and journal gone; `storage_error` and `radio_error` mean previous bytes stored, journal gone and, if the radio was touched, previous credentials applied and ready again |
| WifiJournal.QuietSucceeds | include/wifi_credential_transaction.h:71-94 | With a storage that answers: `done` if and only if the stored record can be replaced and the radio takes the candidate; each other result exactly when stated |
| WifiJournal.QuietRecoverCompletes | include/wifi_credential_transaction.h:48-53 | With a storage that answers, recovery completes |
| WifiJournal.QuietBootCompletes | include/wifi_credential_transaction.h:48-53 | After any interruption, with power back and a storage that answers, a boot completes, leaves no journal and has put the previous record back if a journal was there |
| WifiJournal.FnvVector | include/wifi_credential_transaction.h:22-25 | The hash is FNV-1a with its standard basis and prime: its value for one known byte |
| WifiJournal.BootsKeep | include/wifi_credential_transaction.h:48-53 | Any number of interrupted boots keep the change recoverable and never undo a settled one |
| WifiJournal.JournalHolds | include/wifi_credential_transaction.h:15-44 | A journal made from two records is valid exactly when both are acceptable, and then holds them |
| WifiJournal.OneByteIsDetected | include/wifi_credential_transaction.h:22-44 | No single changed byte of a valid journal leaves it valid |
| WifiJournal.FnvByteInjective | include/wifi_credential_transaction.h:22-25 | Each checksum step is a bijection in the hash and in the byte |
| WifiJournal.ChecksumOf | include/wifi_credential_transaction.h:22-25 | The hash loop |
| WifiJournal.ExecuteNow | include/wifi_credential_transaction.h:71-94 | `execute` with its flags on the storage and radio objects computes `Execute`, calls to the radio in order |
| WifiJournal.CredentialStore.RecoverNow | include/wifi_credential_transaction.h:48-53 | `recover` on the storage object |
| WifiJournal.CredentialStore.StageNow | include/wifi_credential_transaction.h:54-59 | `stage` on the storage object |
| WifiJournal.CredentialStore.SettleOn | include/wifi_credential_transaction.h:45-62 | `promote` and `rollback`: write, verify, erase the journal |
| WireGuard.GuardIsTheGrammar | include/websocket_wire.h:21-57 | The guard is between frames after exactly the streams that are acceptable frames one after another (sections 5.2 and 5.5 of RFC 6455, as restricted here) |
| WireGuard.FramesRead | include/websocket_wire.h:21-57 | Frames are read back from the wire exactly as written |
| WireGuard.FramesAreWire | include/websocket_wire.h:21-57 | Whatever reads as frames is their wire form, each passing the frame check: the grammar is unambiguous |
| WireGuard.FirstIsEncoded | src/websocket_protocol.cpp:150-153 | Every frame read off an accepted stream passes the frame check behind the decoder and encodes to its own bytes |
| WireGuard.GuardSplit | include/websocket_wire.h:21-47 | The verdict does not depend on chunking |
| WireGuard.FailsOnlyWhenHopeless | include/websocket_wire.h:25-44 | The guard has not failed if and only if some continuation is acceptable, except that a length of 512 or more is noticed one byte late |
| WireGuard.HeaderEnds | include/websocket_wire.h:12-20 | The header is done exactly when a blank line occurred, and `trailing` holds exactly when a byte followed one |
| WireGuard.StreamGuard.HttpBytes | include/websocket_wire.h:12-19 | The header loop on the object |
| WireGuard.StreamGuard.WsBytes | include/websocket_wire.h:21-47 | The frame loop on the object; it answers true exactly while not failed |
| WireGuard.StreamGuard.OneByte | include/websocket_wire.h:25-44 | One turn of the switch |
| DeviceSettings.PersistedIsStored | include/device_settings.h:25-95 | After every run the last value applied is the reported one, a set persisted bit means storage holds just that value although failed writes may take effect, and a preview excludes pending writes |
| DeviceSettings.GestureIsUndone | include/device_settings.h:55-88 | Whatever happens between the first preview of a gesture and its cancellation or expiry, all three values and persisted bits return to what they were |
| DeviceSettings.CancelRestores | include/device_settings.h:80-88 | A cancel restores what was visible when the gesture began, on the hardware too |
| DeviceSettings.RevisionDetectsChange | include/device_settings.h:38-95 | Over every run the settings revision is a change detector |
| DeviceSettings.SetTells | include/device_settings.h:38-47 | Applied with persistence means stored; a storage error leaves the value in effect, unmarked and sure to be written again |
| DeviceSettings.OthersChangeNothing | include/device_settings.h:59-71 | Only the owner of a gesture can go on with it |
| DeviceSettings.ServiceExpires | include/device_settings.h:55-58 | A gesture still open is alive, touched in the last 10 s and younger than 30 s |
| DeviceSettings.BeginKeepsInv | include/device_settings.h:25-37 | `begin` establishes the invariant from any stored values |
| DeviceSettings.BeginTells | include/device_settings.h:25-37 | `begin` puts a stored value that can be read and is in range into effect as persisted; out of range it is replaced by 3, 3 or 4; without one the default is applied; nothing is written |
| DeviceSettings.PreviewTells | include/device_settings.h:64-77 | An accepted preview shows the value asked for, on the hardware too, moves nothing but its own key and writes nothing |
| DeviceSettings.CloseTells | include/device_settings.h:72-73 | An accepted commit keeps what was previewed and stores it unless the write fails; an accepted cancel brings back what was visible before; both end the gesture |
| DeviceSettings.EditRefuses | include/device_settings.h:59-71 | Exactly when an edit is invalid and when it is in conflict |
| DeviceSettings.ServiceTells | include/device_settings.h:55-58 | A gesture ends exactly when its owner is gone, after 10 s untouched, or after 30 s |
| DeviceSettings.PendingIsWritten | include/device_settings.h:49-49 | Every pending key is written, exactly once, and none stays pending |
| DeviceSettings.StepKeepsInv | include/device_settings.h:38-95 | Every operation keeps it |
| DeviceSettings.Settings.Start | include/device_settings.h:25-37 | `begin` on the object |
| DeviceSettings.Settings.SetValue | include/device_settings.h:38-47 | `set` on the object |
| DeviceSettings.Settings.EditValue | include/device_settings.h:59-78 | `edit` on the object |
| DeviceSettings.Settings.CommitKey | include/device_settings.h:89-95 | `commit` on the object |
| DeviceSettings.Settings.CommitAll | include/device_settings.h:49-49 | `commitPending` on the object |
| DeviceSettings.Settings.Cancel | include/device_settings.h:80-88 | `cancelPreview` on the object |
| DeviceSettings.Settings.Service | include/device_settings.h:55-58 | `servicePreview` on the object |
| Thdiff.TrialIsGuarded | src/thdiff_experiment.cpp:29-147 | Over every run: 0x80 is written at most once, only with restoring owed and the warning line sent; then restoring stays owed until the restored mode; at most two writes of 0xA0; no line ever meets a full queue |
| Thdiff.RestoredWasReadBack | src/thdiff_experiment.cpp:58-78 | The restored mode is entered only by writing 0xA0 and reading it back |
| Thdiff.TrialEnds | src/thdiff_experiment.cpp:79-140 | Exit, errors, disconnection and the two time limits end the trial, verified or with the obligation kept, and no line is lost over it |
| ThdiffEffects.TrialGetsUnderWay | src/thdiff_experiment.cpp:39-137 | Progress: from boot, with the report, the handshake and the warning each sent and a bus that cooperates, the register is changed, once, after the warning, and the trial is on |
| ThdiffEffects.TrialLasts | src/thdiff_experiment.cpp:116-125 | For two minutes a connected poll leaves the trial alone; then, or on command, it ends restored if and only if one of two attempts reads the original value back |
| ThdiffEffects.StatusInTrial | src/thdiff_experiment.cpp:98-106 | During the trial a status keeps it on if and only if the alternative value is still there |
| ThdiffEffects.RestoreGrows | src/thdiff_experiment.cpp:58-78 | A restoration ends restored if and only if an attempt verifies, and in fault with the obligation kept otherwise |
| ThdiffEffects.RestoreReports | src/thdiff_experiment.cpp:58-78 | A restoration reports its reason, each attempt and the outcome, in this order |
| ThdiffEffects.VerifiesTells | src/thdiff_experiment.cpp:64-74 | What counts as a verified restoration |
| ThdiffEffects.ApplyTells | src/thdiff_experiment.cpp:107-115 | When a trial is armed, if and only if, and what is announced; nothing is written yet |
| ThdiffEffects.ApplyRefuses | src/thdiff_experiment.cpp:107-111 | A refused apply says why |
| ThdiffEffects.PollWrites | src/thdiff_experiment.cpp:116-137 | When the alternative value is written, and when the trial is on after it, if and only if |
| ThdiffEffects.StatusTells | src/thdiff_experiment.cpp:98-106 | A status never writes, is ready exactly for a baseline just read at the original value, and ends a baseline read otherwise |
| ThdiffEffects.RestoreCommandTells | src/thdiff_experiment.cpp:88-97 | When a restore command is refused, needless or carried out |
| ThdiffEffects.SentTells | src/thdiff_experiment.cpp:141-147 | When the handshake is made and the barrier passed |
| ThdiffEffects.BeginTells | src/thdiff_experiment.cpp:47-57 | What the captured register makes of the mode |
| ThdiffEffects.CheckTells | src/thdiff_experiment.cpp:29-38 | When the controller is identified, and which reading or error is kept |
| ThdiffEffects.ErrorTells | src/thdiff_experiment.cpp:79-83 | An error restores what is owed and is a line otherwise |
| Thdiff.ReservationIsTight | src/thdiff_experiment.cpp:84-87 | Some run meets a restoration that fills the eight-line queue to the last place, so the four reserved places are all needed |
| Thdiff.RestoreKeeps | src/thdiff_experiment.cpp:58-78 | With four places free every line of a restoration is queued |
| Thdiff.RunKeepsInv | src/thdiff_experiment.cpp:29-147 | The invariant holds along every run |
| Thdiff.Experiment.RestoreNow | src/thdiff_experiment.cpp:58-78 | `restore` on the object, retry loop included |
| Thdiff.Experiment.HandleNow | src/thdiff_experiment.cpp:84-115 | `command` on the object |
| Thdiff.Experiment.PollNow | src/thdiff_experiment.cpp:116-137 | `poll` on the object |
| Thdiff.Experiment.Start | src/thdiff_experiment.cpp:47-57 | `begin` on the object |
| Thdiff.Experiment.CheckBus | src/thdiff_experiment.cpp:29-38 | The identity loop |
| Thdiff.Experiment.Leave | src/thdiff_experiment.cpp:138-140 | `exit` on the object: a trial that still owes its restoration is restored on the way out |
| Thdiff.Experiment.LineSent | src/thdiff_experiment.cpp:141-147 | `sent` on the object |
| Thdiff.Experiment.Fail | src/thdiff_experiment.cpp:79-83 | `error` on the object |

## Left out

- User interface: views, touch and fader handling, battery and logo drawing, the DOM side of the browser.
- HTTP serving, sockets, task scheduling, the flash library itself: only their interfaces appear, as answers.
- The JSON request decoder and event encoder of `src/websocket_protocol.cpp`: a received frame is already a decoded request or a malformed one, and a decoded archive request has the sizes the decoder admits.
- Metrics, first-stop diagnostics, trace lines and the `reason` texts of refusals.
- Settings, maintenance and Wi-Fi services behind the bridge are one abstract side each: subscription, news in order, the refusal of clients that did not subscribe and the answer are modelled; what the service itself decides is a number it chooses.
- Wi-Fi approval (`include/wifi_configuration.h`): only the credential transaction it ends in.
- Browser.Store.Handle: does not model the matching of a snapshot to the browser's own request, the health probe and the one permitted resynchronisation, because they need the browser's outgoing requests; a gap, a stale message or an unexpected snapshot order counts as a fault instead, and is proved never to happen.
- Browser timers, reconnecting and the archive client: the handler's guards that decide what a page shows are modelled, every other reason to disconnect is not.
- The acceptance of stored credentials (`softap_policy::select`) is a parameter of the journal.
- A start of the driver is one step: interrupts see neither its preparing phase nor the break before the frame, and while it lasts a port does nothing with them (`TxCore.RetirementIsStable`).
- Receiving DMX, single-slot writes and the blocking wait of the driver.
- 64-bit revisions and sequences, 32-bit sequence numbers of trial lines, error and cancel counters are unbounded; the transport's generation counter and the bridge's generations and tickets stop or wrap as in the code.
- Maintenance.RestartSafety: assumes that other owners do not stage so many frames that the transport's 64-bit counter restarts between the zero frames.
- A refused archive text leaves no collection behind in the model; the code leaves scratch data that no valid token refers to.
- Observers of the controller and the completion callback's user interface half.
- Null pointers handed to functions that check for them.
- Flash wear, and NVS states in which a committed write is lost later: a write that takes effect is durable.
- The texts of trial lines: each line is a name with the fields the code fills in.

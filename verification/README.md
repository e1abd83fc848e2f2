# A verified model of the mochad–MQTT bridge

The bridge connects an X10 daemon (mochad, a line protocol over TCP) with an MQTT broker and Home Assistant. This project
models its moving parts in Dafny and proves what they keep over every input and every run.

| files | what they model |
|---|---|
| `Text`, `Models`, `Profiles`, `JsonValues` | Python string operations over ASCII, the bridge's data, X10 addresses, the profile table, decoded JSON |
| `StateSpec`, `StateManager` | `StateManager`: its handlers as functions on its state, and the class whose methods are proved equal to them |
| `StateRuns`, `StateHistory`, `StateDetails` | what every handler keeps, and theorems over every history of inputs |
| `StateMeaning`, `StateCounts` | what each input leaves behind, in literal states and configuration fields: who is heard, what is switched, sent, published, recorded and counted |
| `BridgeSystem`, `BridgeRuns` | the action executor, an MQTT broker with retained messages and a Will, sessions that come and go, and agreement between broker and manager over every run |
| `BridgeCommands`, `BridgeOrder`, `BridgeRequests`, `BridgeDevices` | device commands through the whole bridge: wire, queue, failed sends, who overtakes whom, who asked for what, and which devices it keeps entries for |
| `BridgeDiscovery`, `BridgeRefusal`, `BridgeRestating` | when handlers run to their end, what refused discovery payloads do to the rest, and exactly what a connect restates |
| `BridgeLimits` | what stays bounded in every run: repeats, the work of a flush, the range of states |
| `BridgeAgreement`, `BridgeDisagreement` | exactly which moves break the agreement between broker and manager, and for how long |
| `ConfiguredBridge` | from configuration files and mochad lines to the theorems above |
| `CommandQueue` | the encoder, the bounded command queue, repeats, flushing, and the ledger of every history |
| `SocketProtocol`, `LineFramer` | the connect/stop protocol of the mochad client under all interleavings, and the line framer |
| `LineGrammar`, `ProtocolParser`, `LinePrinter`, `LineForms`, `ParserGuarantees` | the line grammars, status collection interleaved with events, round trips of printed lines, and indifference to case |
| `DeviceParsers`, `ConfigFile`, `DeviceStrings`, `DeviceMeaning`, `LoaderGuarantees` | the three device parsers, the config-file printer, their round trips, and exactly what they accept and as what |
| `HouseCodes` | the list of allowed houses, from its text to what the state manager hears |
| `Topics` | command topics, routing, and when discovery succeeds |
| `DiscoveryRegistry`, `DiscoveryUpkeep` | the registry file with its quarantine, and prune, reset and rediscovery against the broker |

`dafny verify dfyconfig.toml` checks the whole project.

## How to read the main results

**Agreement.** `BridgeAgreement.AgreementUntilASendFails` says that in every run, while MQTT is connected and no direct
send has failed since the last MQTT connect, the broker shows the current state of every device that has one;
`BridgeDiscovery.EveryConnectRestoresAgreement` that every MQTT connect makes it so, whatever was lost before; and
`BridgeAgreement.MovesCompleteExactly` that a failed direct send of a command that changes a state is the only move that
loses a state publication. What such a send breaks is exact (`BridgeCommands.FailedSendBreaksAgreementExactly`), and so is
how long it stays broken (`BridgeDisagreement.FailedSendLasts`). When discovery is refused for some devices,
`BridgeRestating.EveryConnectAgreesExactly` says exactly when a connect still restores agreement. The other results assume
parser-built events and devices for which discovery succeeds; `ConfiguredBridge.ConfiguredBridgeAgrees` derives both from
the loader and the parser. Without these assumptions, `BridgeRuns.BrokerAgreesWithManager` speaks of `World.stale`, a
history variable: the devices whose latest state publication did not get out.

**Meaning.** The handlers are specified by functions, and the theorems over runs are about those functions. What the
functions themselves do is pinned without naming them: `StateMeaning` says, in literal states and configuration fields,
what every kind of input leaves behind; `Encoder.EncodingIsRead` gives the lines to an independent reader of mochad's side;
`BridgeCommands.CommandsStayInOrder` and `BridgeOrder.CommandGoesWhereItMust` write the socket and the three readiness flags
out; `ProtocolParser.SnapshotsShowTheLastBits` goes back to the printed bits; and `DeviceMeaning` says field by field which
configurations are accepted and as what.

**Hypotheses.** Each callback handler of the bridge is one atomic step; only the socket protocol is modelled at the
granularity of its lock. Text is ASCII and already decoded. A publication made while `_connected` is set and the broker
still has the session reaches the broker; after a refused connection, which also sets `_connected`, nothing does. The
client may notice the end of a session before or after the broker does; a broker that still has the old session when the
client connects again ends it and publishes its Will (section 3.1.4 of MQTT 3.1.1). Nobody but the bridge writes its retained topics. Outcomes that the outside world decides (how many more lines a
socket takes, whether a file can be read, moved or written) are parameters and the theorems hold for all of them. A reload
that ends the bridge (`ConfiguredBridge.ReloadEndsTheBridgeExactly`) does not end a run of the model, so the theorems also
cover sequences of moves that the code cannot make after it.

## Where the code does not do what one might expect

- The documentation of `normalize_address` promises that `A01` becomes `A1`; the pattern rejects every unit that begins
  with a zero (`Addresses.LeadingZeroIsRejected`). The model follows the code.
- A direct send that fails abandons the state publication that follows it, after the state has already changed
  (`BridgeCommands.FailedSendEffect`). The broker then shows the old state until the state changes again or MQTT connects
  (`BridgeDisagreement.FailedSendLasts`).
- There is no order between the queue and the direct path: a command overtakes the waiting ones if and only if mochad is
  ready while they wait (`BridgeOrder.CommandOvertakesExactly`), as it is after a reconnect
  (`BridgeOrder.ReconnectOvertakesQueue`).
- A command for a device whose discovery is refused and not yet announced is neither sent nor queued
  (`BridgeOrder.CommandGoesWhereItMust`).
- A device with the profile `um506_momentary` or `powerflash_mode_2` gets a button payload on a switch topic, which is
  refused (`LoaderGuarantees.DiscoveryRefusesExactlyTwoProfiles`). One such device makes the MQTT connect handler stop
  there, so exactly the devices before it are restated (`BridgeRestating.ConnectShowsExactly`) and agreement is restored
  if and only if no device behind it needed restating (`BridgeRestating.ConnectAgreesExactly`). Until the configuration is
  reloaded it keeps every health report from flushing the queue while MQTT is up
  (`BridgeRefusal.RefusalHoldsBackTheQueue`). A reload that brings one in while MQTT is up ends the bridge
  (`ConfiguredBridge.ReloadEndsTheBridgeExactly`).
- When the client gives up a session before the broker does, the broker keeps showing what that session announced last;
  that is wrong if and only if mochad was connected then (`BridgeRuns.OutdatedShows`).
- `_on_connect` ignores the reason code, so a refused connection runs the connect handler too, unheard. A retained
  "online" from before the bridge survives until the broker hears the bridge announce its availability or publishes a Will
  (`BridgeRuns.AvailabilityIsRightExactly`).
- A null under `x10_devices` in the config file is taken for the text `None` and refused, while a null under `devices`
  stands for no devices (`DeviceMeaning.NullsDiffer`).
- With a slash inside the base topic no built command topic is accepted (`Topics.CommandTopicRoundTrip`); with a slash
  inside the discovery prefix the second prefix segment decides what is refused (`Discovery.InnerSlashMisleads`).
- A pending BRIGHT is never cleared by its own echo (`StateDetails.EchoClearsPending`).
- Rediscovery, and every hello or health report, saves the wanted topics over the registry, which forgets stale ones for
  good (`DiscoveryUpkeep.RediscoveryForgets`); all the ways of losing a topic are in
  `DiscoveryUpkeep.OnlyForgettingLosesTopics`. A discovery prefix that begins with white space once its slashes are
  removed makes topics the registry cannot record (`DiscoveryUpkeep.TopicsAreTidyExactly`).

## Model

| member | source | states |
|---|---|---|
| `BridgeRuns.BrokerAgreesWithManager` | bridge.py:508-536 | in every run whatsoever, with any devices and events, the broker shows the current state of every device whose latest state publication got out, and of every device with a state while all publications since the connect handler got out |
| `BridgeAgreement.AgreementUntilASendFails` | bridge.py:320-342 | in every run with parser-built events and discoverable devices, while MQTT is connected and no direct send has failed since the last MQTT connect, the broker shows the current state of every device that has one |
| `BridgeAgreement.AgreementUntilAStateIsLost` | state.py:408-439 | the same as long as no failed direct send since the last connect was of a command that changed a state |
| `BridgeAgreement.MovesCompleteExactly` | bridge.py:320-342 | a move gets all its state publications out if and only if it is not a failed direct send of a command that changes a state |
| `ConfiguredBridge.ConfiguredBridgeAgrees` | bridge.py:94-137 | whatever configurations without the two refused profiles were accepted and whatever lines arrive, the broker agrees while no direct send has failed since the last connect, and every connect makes it agree |
| `ConfiguredBridge.ConfiguredIsWelcoming` | bridge.py:113-137 | a bridge constructed from an accepted configuration without the two refused profiles meets the assumptions of the manager, queue and agreement theorems |
| `ConfiguredBridge.ConfiguredIsCanonical` | bridge.py:113-137 | with any profiles: canonical addresses, stateful devices supporting only ON, OFF, DIM and BRIGHT, bounded repeats |
| `ConfiguredBridge.ReloadEndsTheBridgeExactly` | bridge.py:1021-1063 | a reload from an accepted configuration raises out of the main loop if and only if it changes something, MQTT is up, and a device has one of the two refused profiles |
| `BridgeRuns.ConnectRestoresAgreement` | state.py:197-228 | a connect handler that gets all its state publications out restores full agreement, whatever was dropped or lost before |
| `BridgeDiscovery.EveryConnectRestoresAgreement` | state.py:197-228 | in every run with parser-built events in which discovery is refused for no device, every connect on a living session restores full agreement; `BridgeRestating.EveryConnectAgreesExactly` gives the exact condition for any devices |
| `BridgeRestating.EveryConnectAgreesExactly` | bridge.py:907-914 | in every run with parser-built events, whatever the devices, a connect on a living session restores agreement if and only if every device that has a state comes, in order, before the first refused one or is already shown right |
| `BridgeRestating.ConnectAgreesExactly` | bridge.py:320-342 | the same for any sound state with canonical addresses |
| `BridgeRestating.ConnectShowsExactly` | state.py:219-228 | after a connect on a living session the broker shows the current states of exactly the devices before the first refused one, and of all others what it showed before |
| `ConfiguredBridge.ConfiguredConnectAgreesExactly` | bridge.py:113-137 | the same for a bridge with any accepted configuration and any lines |
| `BridgeDiscovery.ConnectIsComplete` | bridge.py:907-914 | with discoverable devices the connect handler gets all its state publications out and runs to its end, discovery cleanup included |
| `BridgeRefusal.ConnectEndsExactly` | bridge.py:907-914 | the connect handler runs to its end if and only if discovery succeeds for every device the manager knows and for every entry of the bridge's own map, and neither prefix nor base is unusable |
| `BridgeRefusal.ConnectActionsEndExactly` | discovery.py:514-575 | the handler's actions are all executed if and only if no known device is refused, and no device with a state from the first refused one on is restated |
| `BridgeRefusal.RefusalHoldsBackTheQueue` | bridge.py:1351-1364 | in every run without a reload after an entry of the bridge's map is refused, no health report that arrives while MQTT is up takes a command off the queue or writes a line |
| `BridgeOrder.EveryHealthReportFlushes` | bridge.py:1351-1364 | in every reachable state a health report leaves queue and wire alone if and only if discovery raises while MQTT is up, nothing waits, the socket is down or takes nothing, or one of the three flags, as the report updates it, is false |
| `BridgeOrder.HealthReportIsIdleExactly` | bridge.py:613-650 | the same for any state with encodable commands in the queue |
| `BridgeOrder.OtherReportsAreIdle` | bridge.py:1357-1366 | hello and capabilities reports never touch queue or wire |
| `BridgeRefusal.RefusalPersists` | bridge.py:1078-1092 | entries of the bridge's map are never replaced except by a reload, so a refused one stays refused through every run without one |
| `BridgeCommands.FailedSendEffect` | bridge.py:334-342 | a failed direct send changes nothing on the broker and makes exactly the device whose state changed stale |
| `BridgeCommands.FailedSendBreaksAgreementExactly` | bridge.py:320-342 | after a failed direct send the broker still agrees if and only if the command changes no state or the broker already shows the new one |
| `BridgeDisagreement.FailedSendLasts` | bridge.py:334-342 | after a failed direct send that changed a state, the broker shows the old state through every run in which that state does not change again and MQTT does not connect |
| `BridgeDisagreement.DisagreementLasts` | state.py:418-424 | a broker that disagrees about a device keeps showing the same through every such run |
| `BridgeDisagreement.OnlyChangesAreTold` | state.py:408-439 | apart from the connect handler, no handler publishes a state it did not change |
| `BridgeSystem.ExecuteActions` | bridge.py:320-342 | the executor loop goes on after a publication with a connection error, stops at a failed send or status request and at any other exception, and reports how far it got and whether a state publication was skipped |
| `BridgeSystem.HandleTruthful` | bridge.py:508-536 | whatever ends how, a handler leaves the broker truthful about every device that is not stale |
| `BridgeSystem.HandleKeepsFresh` | state.py:408-439 | while publications reach the broker, a handler that says everything makes nothing stale, and the connect handler leaves nothing stale |
| `BridgeRuns.AvailabilityIsExact` | state.py:529-542 | in every run the retained availability is online if and only if the broker hears a bridge with both connections, or shows an online from before it heard of the bridge, or still has a session that the client gave up with mochad connected |
| `BridgeRuns.AvailabilityIsRightExactly` | mqtt_client.py:445-489 | online exactly while both connections are up, if and only if neither of the last two is the case |
| `BridgeRuns.OutdatedShows` | mqtt_client.py:461-489 | in every run, while the broker has a session the client gave up, it shows online if and only if mochad was connected when the client gave it up |
| `BridgeSystem.HandleAvailability` | state.py:230-253 | after a connection handler the broker retains the new availability if it hears it, and other handlers leave it alone |
| `BridgeCommands.CommandsStayInOrder` | bridge.py:567-644 | in every run each device-command line was written with the socket up and with none of the three readiness flags false, as recorded beside it; what entered the queue is what left it followed by what waits, dropped counts the evictions, at most 100 wait, and no command was lost to an encoding error |
| `BridgeCommands.FlushLosesNothing` | bridge.py:613-650 | in every reachable state a flush sends everything or stops inside one command and keeps it with all its successors |
| `BridgeCommands.AdmittedIsEncodable` | bridge.py:722-758 | a command that the MQTT handler lets through has a canonical address and can be encoded |
| `BridgeCommands.AdmittedExactly` | bridge.py:677-758 | a message is let through as a command for a device if and only if its topic is the device's command topic, its payload says ON, OFF, DIM or BRIGHT in any case, and the device supports that; one that nobody configured supports ON and OFF |
| `BridgeCommands.StatesAreAskedForExactly` | bridge.py:931-937 | when mochad connects its handler runs to the end if and only if the socket is there and takes the status request |
| `BridgeRequests.EveryLineWasAskedFor` | bridge.py:677-758 | in every run mochad reads every device-command line as ON, OFF, DIM or BRIGHT for a device whose command topic received a message that names this command, and every waiting command was asked for in the same way |
| `BridgeDevices.EntriesAreEarned` | bridge.py:1078-1092 | in every run without a reload the bridge keeps the entries it was given, has one for every device it was asked about, and beyond these only defaults for devices its state manager knows |
| `BridgeDevices.ConnectLearnsExactly` | bridge.py:1078-1092 | a connect handler that discovery does not interrupt leaves exactly the entries there were and a default for each other device that the manager knows |
| `BridgeDevices.FlushLearnsExactly` | bridge.py:613-650 | a flush leaves an entry for every command it took off the queue and for the one it put back, and for no other |
| `BridgeDevices.ReloadDecidesCommands` | bridge.py:1021-1063 | a reload replaces all entries and nothing else, and from then on a message is let through if and only if the new configuration supports its command |
| `BridgeOrder.CommandGoesWhereItMust` | bridge.py:481-491 | an admitted command that is accepted, and whose discovery does not raise first, goes to the end of the queue if the socket is down or one of the three flags is false, and otherwise onto the wire, as its configured repeats of a line that mochad reads as this command; any other goes nowhere |
| `BridgeOrder.CommandOvertakesExactly` | bridge.py:567-581 | a command overtakes the queue if and only if commands wait, mochad is ready, and the command reaches the send and writes a line |
| `BridgeOrder.ReconnectOvertakesQueue` | bridge.py:939-953 | after a mochad reconnect a command that reaches the send and writes a line overtakes if and only if anything was waiting before it |
| `StateManagerObject.StateManager.constructor` | state.py:66-92 | the manager after configuring its devices in order, as specified; `StateMeaning.ConfiguredExactly` says which devices those are |
| `StateManagerObject.StateManager.Apply` | state.py:94-121 | an observed event moves the manager and emits actions as the specification says |
| `StateManagerObject.StateManager.OptimisticUpdate` | state.py:123-195 | a requested command: house filter, capability check, pending, discovery, send, follow-up, in this order |
| `StateManagerObject.StateManager.OnMqttConnected` | state.py:197-228 | a new generation, then every device rediscovered and its state restated |
| `StateManagerObject.StateManager.OnMqttDisconnected` | state.py:230-236 | the flag, the disconnect count and the status actions |
| `StateManagerObject.StateManager.OnMochadConnected` | state.py:238-244 | the flag, the reconnect count, the status actions and a status request |
| `StateManagerObject.StateManager.OnMochadDisconnected` | state.py:246-253 | every device becomes unavailable and nothing else about it changes |
| `StateManagerObject.StateManager.ApplyHouseEvent` | state.py:307-358 | the loop over the devices of a house, as specified; `StateMeaning.HouseCommandsSwitchExactly` says what it does to each |
| `StateManagerObject.StateManager.ApplyStatusSnapshot` | state.py:375-406 | the loop over a snapshot's entries |
| `StateManagerObject.StateManager.SetDeviceState` | state.py:408-439 | a report of a state: duplicate or change, record, statistics and publication |
| `StateManagerObject.StateManager.DiscoveryActions` | state.py:441-453 | one discovery for a device not yet discovered in this generation while connected |
| `StateHistory.SendsAreTheAcceptedCommands` | state.py:123-195 | over every run the commands sent are exactly the accepted ones, in order, without deduplication |
| `StateHistory.DiscoveryComesFirstAndOnce` | state.py:441-453 | in each generation at most one discovery per address, and everything said about a device while connected comes after it |
| `StateHistory.StatisticsAreExact` | state.py:197-236 | reconnects plus ever-connected equals disconnects plus connected-now; connections, sends, discoveries and state changes equal what was emitted |
| `StateHistory.HouseFilterAndStatefulness` | state.py:475-519 | over every run every device and action is of a house that the initial manager permits, only stateful devices get a state published, none other acquires one, and current differs from previous; `StateMeaning.HouseFilterHolds` says which houses these are |
| `StateMeaning.HouseFilterHolds` | state.py:475-511 | in every run, if some configured code is not blank, every known device and every address anything is said about begins with the normal form of such a code |
| `StateMeaning.ConfiguredExactly` | state.py:66-92 | a new manager has a configuration for an address, and knows its device, if and only if some entry for it is of a house that the codes let through, and the configuration is the last such entry |
| `StateMeaning.DeviceEventsAreHeardExactly` | state.py:273-305 | a device event is published, and makes its device known, available and seen, if and only if its address is not blank and its house is one of the codes, when these restrict anything; otherwise nothing happens, and no other device ever changes |
| `StateMeaning.ReportsLeaveTheirState` | state.py:285-305 | ON, BRIGHT and STATUS ON leave ON, OFF and STATUS OFF leave OFF, DIM leaves DIM, on devices that keep a state; everything else leaves the state as it was; and it is published if and only if it changed |
| `StateMeaning.ReportsConfirmExactly` | state.py:521-527 | a report clears the pending command if and only if that command is the state the report leaves |
| `StateMeaning.HouseCommandsSwitchExactly` | state.py:307-373 | ALL LIGHTS ON leaves ON, ALL LIGHTS OFF and ALL UNITS OFF leave OFF, on exactly the devices of a heard house that keep a state and whose configuration responds; every other device is unchanged; and a state is published if and only if it changed |
| `StateMeaning.SnapshotsLeaveTheirStates` | state.py:375-406 | after a snapshot each heard device that keeps a state is in the state its last entry says, ON or OFF, and available; a device without state only becomes known |
| `StateMeaning.SnapshotsLeaveOthersAlone` | state.py:375-406 | a snapshot changes no device that none of its entries is about |
| `StateMeaning.RequestsAreSentExactly` | state.py:123-195 | a requested command is sent if and only if its house is heard and the device supports it; then a device without state gets an event and one with a state its attributes, marked as a guess if and only if updates are optimistic; otherwise nothing is said |
| `StateMeaning.RequestsLeaveTheirState` | state.py:136-195 | a sent command is pending; with optimistic updates ON and BRIGHT leave ON, OFF leaves OFF and DIM leaves DIM on devices that keep a state; otherwise the state waits for a report; no other device changes |
| `StateMeaning.ConnectionsAreAnnounced` | state.py:529-542 | every connection change announces the two connections as they are from then on, online if and only if both are up, and a new mochad connection, and nothing else, asks for the status |
| `StateCounts.IntakeIsCounted` | state.py:273-316 | in every run the counters are the numbers of events heard, of snapshots, of unknown lines and of connections to mochad |
| `StateCounts.ChangesAreRecorded` | state.py:408-439 | a report that changes the state records its time and the state before; any other leaves both records alone, and one that repeats the state counts as a duplicate |
| `StateCounts.LossMakesUnavailable` | state.py:246-253 | losing mochad makes every device unavailable and changes nothing else about any |
| `StateCounts.UnknownLinesAreLogged` | state.py:110-121 | a line the parser does not understand is logged as it was, and nothing else is |
| `StateHistory.ConnectEffect` | state.py:197-228 | the connect handler announces every known device once and restates every state, and only that |
| `StateHistory.StepEffect` | state.py:94-253 | every other handler: states follow the publications, flags follow the discoveries, statistics follow the actions |
| `StateDetails.HouseCommandIsExact` | state.py:307-373 | a house command gives exactly the responding stateful devices of the house the command's target state, publishes exactly the states that changed, and leaves all others alone; `StateMeaning.HouseCommandsSwitchExactly` says it in literal states |
| `StateDetails.StatesStayDisplayable` | state.py:544-552 | with loader-built devices and parser-built events every state in every run is ON, OFF or DIM |
| `BridgeLimits.OnlyDisplayableStatesAreShown` | bridge.py:320-342 | in every run of the bridge with parser-built events every state of the manager is ON, OFF or DIM, and so is every state on the broker that was not there before the bridge |
| `BridgeLimits.OnlyRealAddressesAreShown` | topics.py:267-280 | in every run, whatever mochad reports and whatever is configured, no state is published under anything but an X10 address |
| `StateDetails.EchoClearsPending` | state.py:521-527 | an echo clears the pending command if and only if the command is its own authoritative state, so never for BRIGHT |
| `CommandQueue.Queue.Enqueue` | bridge.py:583-611 | the oldest is evicted and counted if and only if 100 are waiting |
| `CommandQueue.Queue.FlushHead` | bridge.py:631-644 | the head is sent and put back if and only if the socket failed |
| `CommandQueue.Queue.Flush` | bridge.py:613-650 | nothing happens unless ready; otherwise the flush of the queue's jobs, leaving the suffix that was not taken |
| `CommandQueue.SendDeviceCommand` | bridge.py:538-565 | writes the configured repeats of ON and OFF and one line of other commands, or as many as the socket takes; mochad reads each line as this command; it pauses after each but the last; and it reports whether the socket took all |
| `CommandQueue.TransmitMeans` | bridge.py:538-565 | the same for the closed form that all flushes and direct sends are made of, with the repeats and delays of the configuration and 1 and 150 ms for a device nobody configured |
| `CommandQueue.FlushShape` | bridge.py:613-650 | a flush writes every repeat of all commands and empties the queue, or stops inside one command having written all earlier ones and a proper part of that one; nothing is lost |
| `CommandQueue.FlushBounds` | bridge.py:613-650 | with bounded devices a flush writes at most 5 lines and sleeps at most 20 s per command, 500 lines and 2000 s for a full queue |
| `BridgeLimits.EveryFlushIsBounded` | config.py:373-414 | in every state the bridge reaches, through new devices and bounded reloads, repeats stay bounded and any flush writes at most 500 lines and sleeps at most 2000 s |
| `ConfiguredBridge.ConfiguredBridgeStaysInBounds` | config.py:417-441 | for a bridge with any accepted configurations and any lines: both bounds on every flush, and ON, OFF or DIM for every state of the manager and every state the bridge put on the broker |
| `CommandQueue.LedgerBalances` | bridge.py:583-605 | over every history of queueing and flushing with any devices, what entered equals what left followed by what waits; dropped counts the evictions; never more than 100; evictions only among 100 |
| `Encoder.EncodableExactly` | protocol/encoder.py:13-34 | encoding succeeds if and only if the address is valid and the command is ON, OFF, DIM or BRIGHT; `Encoder.EncodingIsRead` says what the line is |
| `Encoder.EncodingIsRead` | protocol/encoder.py:13-34 | a command is encoded as a line if and only if an independent reader of mochad's side reads that line as this command for this address |
| `Encoder.EncodedWordForWord` | protocol/mappings.py:56-61 | the four lines, word for word: rf, the address, and on, off, dim or bright |
| `SocketProtocol.NoSocketAfterStop` | mochad_client.py:94-131 | under every interleaving, once a stop has taken the socket none is installed then or later |
| `SocketProtocol.NoDoubleClose` | mochad_client.py:102-131 | no socket is closed twice, a closed one is not installed, and two connect callbacks have a disconnect callback between them |
| `SocketProtocol.EverySocketClosedOnce` | mochad_client.py:153-174 | when the worker has exited and no stop is mid-way, the closed sockets are exactly those that reached the lock, once each |
| `SocketProtocol.WorkerExitsAfterStop` | mochad_client.py:153-174 | at most eleven worker steps after the stop event the worker has exited, in any interleaving |
| `SocketProtocol.WorkerReconnects` | mochad_client.py:153-174 | until somebody stops the client, whatever failed before, eleven steps in which dialling and reading work leave the worker reading an open socket after a connect callback |
| `SocketProtocol.WorkerStaysWhileRunning` | mochad_client.py:153-174 | until somebody stops the client the worker never leaves its loop, whatever fails |
| `SocketProtocol.TurnEnds` | mochad_client.py:122-131 | however a turn of the loop fails, its socket, if any, is closed and the disconnect callback runs once |
| `LineFramer.ReadLoop` | mochad_client.py:176-219 | the nested reading loops deliver the framing of all chunks, and no newline stays in the buffer |
| `LineFramer.ChunkBoundariesDoNotMatter` | mochad_client.py:176-219 | two ways of cutting the same text deliver the same lines and hold back the same rest |
| `LineFramer.FramingIsTheOnlyReading` | mochad_client.py:198-212 | the lines are the only newline-free pieces that spell the text, stripped of CR and LF |
| `LineFramer.LinesAreDelivered` | mochad_client.py:198-212 | lines sent with carriage return and newline are delivered without either, however the text was cut |
| `LineGrammar.SplitReadsEntries` | protocol/status.py:69-82 | splitting a strict house line at commas and equal signs recovers exactly the entries the pattern matched, each as its unit with ON for a 1 and OFF for a 0, so it never raises |
| `ProtocolParser.StatusParser.Feed` | protocol/status.py:52-92 | one status line updates the collection and completes a snapshot as specified |
| `ProtocolParser.StatusParser.Record` | protocol/status.py:71-84 | the entry loop updates the snapshot entry by entry, with ON for a 1 and OFF for a 0 |
| `ProtocolParser.LineParser.ParseLine` | protocol/parser.py:43-113 | dispatch between status collection, device event, house event and unknown line, with the capability flags |
| `ProtocolParser.EventsAreIsolated` | protocol/parser.py:43-106 | for every interleaving, events and unknown lines come out as from the non-status lines alone, in any parser state |
| `ProtocolParser.SnapshotsAreIsolated` | protocol/parser.py:52-59 | for every interleaving, snapshots come out as from the status lines alone |
| `ProtocolParser.SnapshotsAreExact` | protocol/status.py:52-92 | a line yields a snapshot if and only if it is an End status with a Device selected open before it, and the snapshot collects exactly the reports since |
| `ProtocolParser.SnapshotsShowTheLastBits` | protocol/status.py:69-92 | in every run a snapshot shows ON for an address if and only if the last bit printed for it since Device selected is 1, OFF if and only if it is 0, and nothing if and only if there is none |
| `ProtocolParser.LastWriterWins` | protocol/status.py:74-82 | collecting keeps one entry per address, the last one reported |
| `ProtocolParser.EventsAreWellFormed` | protocol/validation.py:54-86 | every event of every run has canonical addresses; snapshots hold one ON or OFF per address |
| `ProtocolParser.CapabilitiesAreExact` | protocol/parser.py:108-113 | the rf, pl and status flags are set if and only if such a result has come out |
| `LinePrinter.DeviceEventRoundTrip` | protocol/regex.py:31-50 | every printed device event line is read back as that event, in any parser state |
| `LinePrinter.HouseEventRoundTrip` | protocol/regex.py:56-75 | every printed house event line is read back as that event |
| `LinePrinter.StatusRoundTrip` | protocol/regex.py:133-157 | every printed house status line, with any spacing, reports as many readings as it has entries, and reading k is unit k with ON if its bit is 1 and OFF if it is 0 |
| `LinePrinter.BannersAreRead` | protocol/regex.py:81-99 | Device selected and End status lines are recognised, and the two headings are passed over, with any white space in the timestamp |
| `LinePrinter.CountsAreRead` | protocol/regex.py:101-115 | a house line that only gives a number of devices is passed over |
| `LineForms.CaseDoesNotMatter` | protocol/regex.py:31-157 | two lines that differ only in the case of their letters do the same to the parser and give the same event, except that an unknown line is passed on as written |
| `LinePrinter.NamesAreRead` | protocol/validation.py:161-178 | every command name is read back as its command |
| `ParserGuarantees.ParserFeedsTheBridge` | bridge.py:955-970 | whatever lines arrive, parsed events name canonical addresses and snapshots hold one ON or OFF per device, as the other theorems assume |
| `ParserGuarantees.StatusReportsSwitchDevices` | state.py:375-406 | from printed bits to devices: after the snapshot that any lines lead to, a heard device that keeps a state is ON if the last bit printed for it is 1 and OFF if it is 0 |
| `DeviceParsers.ParseDevices` | config.py:444-537 | the loop over X10_DEVICES entries gives what reading them one by one gives, or the first error |
| `DeviceParsers.ParseDeviceConfig` | config.py:540-677 | the loops over a list, an object or a string of devices, and the refused kinds |
| `DeviceParsers.LastEntryWins` | config.py:571-677 | a source is accepted if and only if every entry is, and each address has what its last entry says |
| `ConfigFile.SortedDevices` | config.py:792-804 | the written list holds each device once, in ascending order of address |
| `ConfigFile.DeviceRoundTrip` | config.py:777-789 | a written loader-built device is read back exactly, derived fields and all |
| `ConfigFile.DevicesRoundTrip` | config.py:571-615 | a written list of loader-built devices is read back as the same map |
| `ConfigFile.ConfigFileRoundTrip` | config.py:867-905 | whatever source the settings came from, the file written for them loads as the same flag and the same devices, under any environment |
| `ConfigFile.BuiltIsDerived` | models.py:212-270 | every field of a built device beyond the basic five follows from its type or its profile, and repeats are within bounds |
| `DeviceStrings.EntryRoundTrip` | config.py:464-532 | a full X10_DEVICES entry for a loader-built device with a plain name is read back exactly |
| `DeviceStrings.ShortEntryRoundTrip` | config.py:464-532 | so are its first one to four parts alone if the device has the default for each of the others: its address as name, a switch, one repeat, 150 ms |
| `DeviceStrings.StringRoundTrip` | config.py:444-537 | any such devices written as one string are read back as the same map |
| `DeviceMeaning.EntryMeans` | config.py:444-537 | an X10_DEVICES entry is read as a device if and only if its one to five parts say the device's address, name, type or profile, repeats and delay, with the defaults for what is missing; blank entries, and only they, are skipped |
| `DeviceMeaning.ItemMeans` | config.py:571-615 | a list item is read as a device if and only if it is an object with the address, and its fields under either of their names say the device, with the defaults for what is missing |
| `DeviceMeaning.FieldMeans` | config.py:618-677 | a field named by an address is read as a device if and only if it holds a name, for a plain switch, or an object whose fields say the device |
| `DeviceMeaning.SettingsMean` | config.py:840-894 | settings are loaded if and only if the flag is a boolean or one of eight words or left to the environment, and the devices come from the first of devices, x10_devices and the environment, never both of the first two |
| `DeviceMeaning.NullsDiffer` | config.py:867-894 | a null under devices is no devices, but under x10_devices it is the text None, which is refused |
| `DeviceMeaning.UnconfiguredIsBare` | bridge.py:1078-1092 | a device that nobody configured is treated exactly like one configured by its address alone |
| `DeviceMeaning.IntegersAreRead` | config.py:373-392 | every integer is read back from its text, with and without a plus sign |
| `HouseCodes.ReadList` | config.py:680-714 | the nested loops over pieces and letters give the specified reading or the first error |
| `HouseCodes.HouseCodesExactly` | config.py:680-741 | a list of houses is accepted if and only if it restricts nothing or each piece is a run of houses or a range of two in order, and its houses are those that some piece names |
| `HouseCodes.ListedHousesAreHeard` | state.py:475-511 | from the text of the list to the state manager: an address is permitted if and only if the list restricts nothing or one of its pieces names the house |
| `HouseCodes.WrittenPieces` | config.py:691-693 | a list written with commas consists of the pieces it was written from |
| `ConfiguredBridge.FiltersAgree` | bridge.py:1094-1106 | the bridge's own devices and the state manager's configurations are the same: exactly the configured devices whose house is one of the codes |
| `ConfiguredBridge.ListDeliversHouses` | config.py:680-714 | every accepted list of houses is of the form that this assumes |
| `LoaderGuarantees.LoaderGuaranteesDevices` | device_registry.py:54-302 | in devices from any accepted source, stateful ones support only ON, OFF, DIM and BRIGHT, and repeats and delays are bounded |
| `LoaderGuarantees.CapabilitiesFit` | models.py:212-270 | loader-built devices can be switched on; chimes have no state; stateful ones can be switched off and dim if and only if they say so; without a profile only lights dim and follow all-lights commands |
| `LoaderGuarantees.DiscoveryRefusesExactlyTwoProfiles` | discovery.py:141-173 | with a one-segment prefix, discovery refuses a loader-built device if and only if its profile is um506_momentary or powerflash_mode_2 |
| `Profiles.Lookup` | device_registry.py:54-302 | every profile is filed under its own id and is coherent; stateful ones support only ON, OFF, DIM and BRIGHT; exactly two have neither a state nor the chime type |
| `DeviceMeaning.ProfilesExactly` | device_registry.py:54-302 | there are exactly seventeen profiles, and thirteen of them keep a state |
| `DeviceMeaning.ProfileKinds` | device_registry.py:54-302 | by name: which are lights, which are chimes, and which obey each house-wide command |
| `DeviceMeaning.ProfileCommands` | device_registry.py:54-302 | by name: which dim, which cannot be switched off, and which learn |
| `DeviceMeaning.ProfileIsApplied` | device_registry.py:317-338 | a device with a profile has all the profile's traits, whatever type was written beside it |
| `Topics.CommandTopicRoundTrip` | topics.py:196-214 | parsing a built command topic gives the address back if and only if the base is one segment |
| `Topics.CommandTopicsExactly` | topics.py:196-214 | a topic is taken for the command topic of an address if and only if, without outer slashes, it reads base/x/command for a base of one segment and an x that says this address in any case |
| `Topics.BridgeTopicsExactly` | topics.py:216-235 | a topic is taken for the bridge's own if and only if, without outer slashes, it reads base/bridge/command for a base of one segment |
| `Topics.UsableExactly` | topics.py:293-304 | a setting is usable in topics if and only if it holds no wildcard and something else than slashes |
| `Topics.NoTopicIsBoth` | mqtt_client.py:491-524 | no topic is both a device and a bridge command, so the order of the two attempts is irrelevant |
| `Topics.FilterCoversCommands` | topics.py:54-76 | the one subscription matches every device command topic and the bridge command topic |
| `Topics.FilterMatchesExactly` | topics.py:54-64 | and the subscription matches exactly the topics base/x/command with one segment x |
| `Topics.RoutedAddressIsCanonical` | topics.py:267-280 | a message routed to a device carries a canonical address |
| `Discovery.DiscoverySucceedsExactly` | discovery.py:514-575 | with a one-segment prefix, discovery of a valid device succeeds if and only if it is a chime or stateful, and then the topic says light, switch or button and the address |
| `Discovery.DiscoveryExactly` | discovery.py:514-575 | for any device and settings, discovery succeeds if and only if the name is visible, prefix and base are usable, the address is valid, and button is taken for the component exactly for chimes and devices without state |
| `Discovery.InnerSlashMisleads` | discovery.py:527-544 | with a slash inside the prefix, its second segment is taken for the component, and that decides |
| `Addresses.CanonicalIsNormal` | protocol/validation.py:54-86 | canonical addresses are fixed points of normalisation |
| `Addresses.CanonicalExactly` | protocol/validation.py:15-27 | the canonical addresses are exactly A1 to P16 |
| `LineForms.AddressesAreFolded` | protocol/validation.py:54-86 | every canonical address is recognised in small letters and with any white space around it |
| `Addresses.LeadingZeroIsRejected` | protocol/validation.py:54-86 | no text whose normalised unit begins with a zero is a valid address |
| `Addresses.DocumentedExampleIsRejected` | protocol/validation.py:60-70 | the documented example A01 is rejected |
| `DiscoveryRegistry.Registry.Load` | discovery_registry.py:30-46 | loading returns what is on record, never changes it, fails only for an unreadable or immovable file, and moves an invalid file aside without losing it or overwriting another |
| `DiscoveryRegistry.RegistryIsReadExactly` | discovery_registry.py:48-86 | a file is a registry if and only if it is a JSON object of version 1 whose topics are a list of nothing but objects with a visible topic text, and then it records those texts, stripped |
| `DiscoveryRegistry.Registry.QuarantineName` | discovery_registry.py:88-99 | the counter loop ends and gives the first free candidate name |
| `DiscoveryRegistry.Registry.Save` | discovery_registry.py:115-139 | after a successful save exactly the stripped non-blank topics are on record and other files are untouched |
| `DiscoveryRegistry.TidiedExactly` | discovery_registry.py:115-126 | saving keeps a set of topics as it is if and only if all are trimmed and not blank |
| `DiscoveryUpkeep.Upkeep.RunCleanup` | bridge.py:1146-1228 | prune or track as specified, under every outcome of the registry file, and nothing at all when discovery is refused |
| `DiscoveryUpkeep.Upkeep.ResetDiscovery` | bridge.py:1230-1261 | wanted and recorded topics are cleared and the record emptied, under every outcome of the registry file |
| `DiscoveryUpkeep.Upkeep.Rediscover` | bridge.py:866-876 | all wanted topics are retained and saved over the record |
| `DiscoveryUpkeep.PruneIsExact` | bridge.py:1181-1228 | a successful prune clears exactly recorded minus wanted, never a wanted topic, sets the record to the wanted topics, and changes nothing when repeated |
| `DiscoveryUpkeep.TrackingOnlyGrows` | bridge.py:1152-1179 | with cleanup disabled nothing is cleared and the record grows to recorded plus wanted |
| `DiscoveryUpkeep.CleanupIsComplete` | bridge.py:1146-1261 | after every run that forgets nothing, a prune leaves only wanted topics on the broker and a reset leaves none |
| `DiscoveryUpkeep.OnlyForgettingLosesTopics` | bridge.py:1119-1295 | an operation keeps every retained topic recorded or wanted if and only if it neither overwrites the record while a stale topic is retained nor stops wanting a retained topic that was never recorded |
| `DiscoveryUpkeep.RediscoveryForgets` | bridge.py:1352-1361 | after a rediscovery a recorded stale topic stays on the broker through every later prune and reset, until it is wanted again |
| `DiscoveryUpkeep.TopicsAreTidyExactly` | topics.py:149-160 | device discovery topics survive the registry unchanged if and only if the cleaned prefix does not begin with white space |

## Left out

- Thread interleavings of the bridge's handlers: each handler is one step; only the socket protocol is interleaved.
- The executor works on values: `BridgeSystem.World` is a record passed from step to step, not an object updated in place.
- BridgeRuns.BrokerAgreesWithManager: speaks about retained device states; retained attributes, events and the status
  payload are not compared with anything.
- Payload contents of discovery messages: only their topic and whether they have the button shape matter here.
- Bridge-diagnostic discovery messages: their topics are part of the wanted set, which is a parameter.
- The clearing and publishing of discovery topics is taken to reach the broker; the order in which topics are cleared,
  published or listed in the registry file is not modelled.
- DiscoveryRegistry.Registry.Save: writing through a temporary file is one atomic step; a leftover temporary file is not
  modelled.
- The counters of dropped publications, log lines, the health file, signal handling and the status payload on shutdown.
- Requests for mochad diagnostics, the merging of their fields other than the three readiness flags, and bridge commands
  other than those about discovery.
- DeviceParsers.ParseDevices: which configuration error is raised is modelled, its message is not; the three loops over
  entries, list items and object fields are one method, `DeviceParsers.ParseEach`.
- Environment variables other than the two that matter to devices, secrets and TLS settings.
- Profile fields that nothing reads at run time: secondary channels, exclusive groups, command sequences, RF identity.
- Security and camera lines: the parser has patterns for them that it never uses.
- Characters outside ASCII, Unicode case rules and the decoding of bytes.

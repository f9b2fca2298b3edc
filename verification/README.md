# Airprobe, verified

Airprobe reads the battery levels of a pair of wireless earbuds over an L2CAP channel and serves them twice: on the
session bus, where a Quick Settings tile reads them, and to BlueZ, which shows a single number in Settings. This project
models its three layers in Dafny and proves what they promise.

- **The session** (`Session.dfy`, `SessionModel.dfy`): a handshake sequencer with timeouts, one re-send and a cache that
  outlives connections. `SessionReset`, `SessionCache`, `SessionProtocol`, `SessionSocket`, `SessionDeadline`
  and `SessionProgress` prove properties of its runs and steps.
- **The daemon** (`Pump.dfy`, `BluezWatch.dfy`, `BatteryProvider.dfy`, `DbusService.dfy`): classes whose methods update
  their fields in place, each method proved to compute a function of the old state (`*Model.dfy`, or the functions beside
  the class). `Daemon.dfy` composes those functions into one transition system over every main-loop callback, and
  `Presence.dfy` joins that to a bluetoothd whose object tree moves (`WatchAgreement.dfy`, `DevicePath.dfy`). `Retries.dfy`,
  `Registration.dfy` and `StatusLine.dfy` follow the retries, the registration and the status line through its runs.
- **The data path** (`Battery.dfy`, `State.dfy`, `DbusService.dfy`, `Format.dfy`): packet bytes to words on the tile, joined
  up in `EndToEnd.dfy`; `Reconnect.dfy` says exactly when an open channel shows an older number. `Transposition*.dfy`
  carries an exchange of left and right through all of it.

The outside world is a value (`Environment.dfy`): scripts saying how each connect, write, poll, BlueZ query and clock reading
will turn out, and the stamped transcript of what happened. A theorem about every `World` is a theorem about everything
the outside can do. Signals, callbacks and published snapshots are sequences that grow; a timer is an optional delay or due
time. Clock readings are steady-clock ticks and every difference is truncated to milliseconds where the source does it.

`dafny verify dfyconfig.toml` checks the whole project.

## Where the code and its comments part

The model follows the code.

- `daemon/src/pump.cpp:102-106` speaks of three attempts over seven seconds. The code waits 1000 and 2000 ms between at most
  three attempts; the third delay is never used (`Daemon.TimersExclusive`, `Daemon.RetryBudget`).
- `daemon/src/battery_provider.cpp:495-497` takes an open channel to mean a current reading. BlueZ holds a number of an
  earlier connection exactly when the channel is open, no packet has been accepted on it, the last report accepted before
  had a readable pod, and some publish found the provider registered, the device known and the object taken, with neither
  bluetoothd nor the channel lost since (`Reconnection.OldNumberExactly`, callback by callback `Reconnection.NumberAfter`).
  It happens when the pods come back (`ReconnectRuns.CachedReadingRun`) and when BlueZ registers the provider only after
  that (`ReconnectRuns.LateRegistrationRun`). The number is always that of the last report accepted in the whole history
  (`Daemon.BlueZHoldsLastAccepted`).
- `daemon/src/bluez_watch.h:33-36` says that pairing again produces a new object path. The watch follows it; the battery
  provider does not, once it is registered with a path (`DevicePath.AnnouncedDeviceExact`, `DevicePath.PathIsBelieved`,
  `DevicePath.RepairingRun`).
- `lib/include/airprobe/session.h:121` calls Closed "no socket". That fails from an `open()` refused on an open session to
  the next close or successful connect, and at no other time (`SessionSocket.ClosedMeansNoSocket`,
  `SessionSocket.RefusedReopenKeepsPhase`); the pump never does this.
- The first publish on the session bus sends no signal, so `DbusService` used on its own could leave a client that read the
  object earlier with the defaults (`Dbus.CopySurvives`, `Dbus.EarlyCopyGoesStale`). The daemon has no such client: it
  publishes before its main loop can put the object on the bus (`Daemon.PublishedBeforeExported`).
- A packet that repeats a component shows its last block on every surface modelled here; `BatteryReport::find` would return
  the first.

## Model

| member | source | states |
|---|---|---|
| `Battery.ParseBattery` | lib/src/aap_battery.cpp:88-134 | The parsing loop with its early exits computes `Parse`: wrong header, opcode, length or component gives nothing, otherwise one reading per block. |
| `Battery.ParseExact` | lib/src/aap_battery.cpp:88-134 | The parser accepts a packet with a given report if and only if the packet is the encoding of a list of at most 255 known blocks that read as that report. |
| `Battery.BlockBytes` | lib/src/aap_battery.cpp:90-131 | An accepted packet byte for byte: 04 00 04 00 04 00, the count, and for each block component byte 8, 4 or 2, spacer, level, status and end in their places. |
| `Battery.EncodingAccepted` | lib/src/aap_battery.cpp:96-131 | Round trip: every encoded list of blocks decodes to itself. |
| `Battery.CleanParseInjective` | lib/src/aap_battery.cpp:118-122 | Two packets without framing anomalies that read the same are the same packet. |
| `Battery.ParsePrefixFree` | lib/src/aap_battery.cpp:94-98 | No accepted packet is a proper prefix of another accepted packet. |
| `Battery.TruncatedRefused` | lib/src/aap_socket.cpp:265-279 | A datagram that fills the 1024-byte read buffer is never accepted, whatever it was cut from. |
| `Protocol.AckHasNoOpcode` | lib/src/aap_protocol.cpp:25-32 | A handshake ack never has an opcode, so no packet is both an ack and a battery or features packet. |
| `Sessions.Session.constructor` | lib/src/session.cpp:47 | A new session is closed, with nothing cached. |
| `Sessions.Session.Emit` | lib/src/session.cpp:53-59 | A skipped packet succeeds silently; a packet is in the transcript exactly when it was written. |
| `Sessions.Session.SendCaps` | lib/src/session.cpp:61-64 | Sends the configured capabilities. |
| `Sessions.Session.SendNotify` | lib/src/session.cpp:66-71 | A written request stamps `notify_sent_at_` on the connection clock; a failed one changes nothing. |
| `Sessions.Session.EnterPhase` | lib/src/session.cpp:73-77 | Sets phase and its start time together. |
| `Sessions.Session.OpenChannel` | lib/src/session.cpp:91-153 | Whole new state, transcript and result of open(): what is reset, what is kept, both sequencing modes, every failure exit. |
| `Sessions.Session.Close` | lib/src/session.cpp:155-159 | Drops the socket and the phase, keeps everything else. |
| `Sessions.Session.DoTimeouts` | lib/src/session.cpp:170-195 | The phase-timeout part of step(). |
| `Sessions.Session.DoResend` | lib/src/session.cpp:197-206 | The re-send part of step(). |
| `Sessions.Session.DoBattery` | lib/src/session.cpp:222-238 | Caching an accepted report, or counting a refusal and keeping the older one. |
| `Sessions.Session.DoAck` | lib/src/session.cpp:240-254 | The ack-driven phase transitions of step(), as the function that `SessionProgress` says moves the handshake on. |
| `Sessions.Session.DoStep` | lib/src/session.cpp:161-257 | Whole new state, transcript and reported Step of step(). |
| `Sessions.Session.BatteryAge` | lib/src/session.cpp:85-89 | -1 without a reading, otherwise whole milliseconds since it was stored. |
| `SessionReset.ReopenIsReset` | lib/src/session.cpp:91-153 | Any two closed sessions with the same configuration, whatever their histories, that meet the same outcomes on clocks a constant apart report equal steps and write equal packets at corresponding times, forever and across reconnects. |
| `SessionReset.OpenAlike` | lib/src/session.cpp:96-121 | Opening alone makes the per-connection state of any two sessions agree. |
| `SessionReset.StepAlike` | lib/src/session.cpp:161-257 | One step keeps that agreement and reports the same. |
| `SessionCache.CacheRefinesHistory` | lib/src/session.cpp:112-116 | Over any interleaving of opens, failed opens, steps, closes and waits, the cache is the parse of the last accepted battery packet ever received, the refusal count is the number refused, and the age is -1 or the time since that packet. |
| `SessionCache.StepRemembers` | lib/src/session.cpp:222-238 | One step keeps the cache equal to that function of the transcript. |
| `SessionCache.OpenRemembers` | lib/include/airprobe/session.h:184-189 | Opening, successful or not, keeps it too. |
| `SessionProtocol.SendLanguage` | lib/src/session.cpp:91-257 | At every moment of every run the packets of the current connection are an initial piece of handshake, capabilities, request, one re-send (configured-out pieces missing), and each packet ever written had its cause: an ack or a timeout for the first three, no battery and an elapsed delay for the re-send. |
| `SessionProtocol.PhaseTellsSends` | lib/include/airprobe/session.h:117-125 | While the channel is open the phase says exactly which packets have been written on it. |
| `SessionProtocol.TimeoutSpeaks` | lib/src/session.cpp:172-195 | The timeout stage keeps the send language and the cause of every packet written, its own included. |
| `SessionProtocol.AckSpeaks` | lib/src/session.cpp:240-254 | The ack stage keeps them too, for a packet that was the last thing heard on this connection. |
| `SessionProtocol.ResendSpeaks` | lib/src/session.cpp:197-206 | The re-send goes out only with no battery packet heard on this connection and the configured delay elapsed, once. |
| `SessionProtocol.StepSpeaks` | lib/src/session.cpp:161-257 | One step keeps language, causes and the phase invariant. |
| `SessionProtocol.OpenSpeaks` | lib/src/session.cpp:91-153 | Opening keeps them, in both sequencing modes. |
| `SessionProtocol.RankNeverFalls` | lib/include/airprobe/session.h:120-125 | Without reopening, the phase never goes back, whatever acks arrive late or twice. |
| `SessionProtocol.StepShuts` | lib/include/airprobe/session.h:143-145 | A step reports `closed` exactly when it leaves the socket closed, which is exactly when the phase is Closed. |
| `SessionDeadline.HandshakeDeadline` | lib/src/session.cpp:172-195 | If steps start at most d apart and none fails, every step that starts later than 2 * (ack timeout + 1 ms + d) after open() ends with the session listening; and if a step starts later than 2 * (ack timeout + 1 ms) + 3 d, an earlier one has ended so by 2 * (ack timeout + 1 ms + 2 d). What was received does not matter. |
| `SessionDeadline.StepOnTime` | lib/src/session.cpp:172-195 | The step-by-step bound behind the deadline. |
| `SessionProgress.FeaturesAckMovesOn` | lib/src/session.cpp:249-254 | Waiting for the features ack, before the timeout: a step requests notifications, stamps the request and listens if and only if the packet read begins 04 00 04 00 2B 00 and the write works; it closes if the write fails; without that packet it writes nothing and waits on unless the peer is gone. |
| `SessionProgress.HandshakeAckMovesOn` | lib/src/session.cpp:240-248 | The same for the handshake ack, a packet that begins 01 00 04 00: capabilities and WaitFeaturesAck, or, without capabilities, the request and Listening. |
| `SessionProgress.ResendHappens` | lib/src/session.cpp:197-206 | A listening session re-sends its request in a step if and only if it has not yet, no battery packet was heard on the connection, and the delay is over; otherwise it writes nothing. |
| `SessionProgress.OpenSucceeds` | lib/src/session.cpp:91-153 | open() succeeds exactly when the connect and every write of its plan do, and has then written exactly that plan: the handshake, or everything where nothing will be acked. |
| `SessionProgress.OpenTellsWhy` | lib/src/session.cpp:93-147 | What a failed open() answers: the socket's own result, the words for an unwritten handshake, or the socket's words with failure. |
| `SessionProgress.OpenSpaces` | lib/src/session.cpp:140-147 | Where nothing is acked, capabilities leave at least 200 ms after the connection opened and the request at least 200 ms after what came before it. |
| `SessionProgress.StepReports` | lib/src/session.cpp:161-257 | What a step reports is what happened: the packet read, whether it was an accepted report, whether the phase is another -- as it is after an expired timeout --, and which note comes first; an idle step wrote and read nothing. |
| `SessionEffects.IdleStepKeeps` | lib/include/airprobe/session.h:164-166 | A step that reports idle changes nothing a snapshot shows. |
| `SessionEffects.StepTries` | lib/src/session.cpp:161-257 | A step never connects. |
| `SessionEffects.OpenTries` | lib/src/session.cpp:91-94 | open() connects exactly once. |
| `States.CollectComponents` | daemon/src/pump.cpp:303-317 | The snapshot loop computes the component map. |
| `States.ComponentsAreLast` | daemon/src/pump.cpp:305-316 | A component is in the snapshot exactly when the report has it, with the values of its last block. |
| `States.SnapshotShowsBlocks` | daemon/src/pump.cpp:303-317 | From blocks to snapshot: under "left", "right" and "case" exactly the last block of that component, with its raw level, a level only if not disconnected and at most 100, its status in words, and an anomaly exactly if spacer or end is not 1. |
| `States.OnlyKnownNames` | daemon/src/state.h:95-98 | Only left, right and case ever appear as keys. |
| `Pumps.Pump.constructor` | daemon/src/pump.cpp:14-17 | A new pump is idle and owns one fresh session with the default configuration. |
| `Pumps.Pump.TakeSnapshot` | daemon/src/pump.cpp:291-320 | Reads the snapshot off the pump and its session. |
| `Pumps.Pump.Publish` | daemon/src/pump.cpp:281-284 | Hands exactly the present snapshot to the publisher. |
| `Pumps.Pump.DoScheduleRetry` | daemon/src/pump.cpp:206-228 | Not without the watch reporting the pods here; gives up at three attempts; otherwise sets the delay for the attempt, whose index is always in range, as the function behind `Retries.RefusedAttach`. |
| `Pumps.Pump.DoAttach` | daemon/src/pump.cpp:181-204 | Whole new state of attach(): nothing if open, one attempt otherwise, with status, publish, timer or retry. |
| `Pumps.Pump.HandleBluez` | daemon/src/pump.cpp:154-179 | Whole new state after a callback of the watch. |
| `Pumps.Pump.OnRetryTimer` | daemon/src/pump.cpp:230-236 | Whole new state after the retry timer. |
| `Pumps.Pump.DoDetach` | daemon/src/pump.cpp:238-246 | Timer off, channel closed, cache kept, reason published. |
| `Pumps.Pump.OnTick` | daemon/src/pump.cpp:248-279 | Whole new state after a tick; the source is kept exactly when the channel is not gone. |
| `Pumps.Pump.StartWithoutWatch` | daemon/src/pump.cpp:138-147 | The fallback: a single attempt and no watch. |
| `PumpProofs.AttachKeeps` | daemon/src/pump.cpp:181-228 | attach() connects once if closed and never if open, leaves the publisher up to date and the timers exclusive. |
| `PumpProofs.OnBluezKeeps` | daemon/src/pump.cpp:154-179 | A callback that found the pods here buys at most three connects, one that did not buys none; invariants kept. |
| `PumpProofs.RetryKeeps` | daemon/src/pump.cpp:215-236 | Each retry spends from what the last callback bought. |
| `PumpProofs.AwayReports` | daemon/src/pump.cpp:170-178 | A callback that did not find the pods here shuts what was open, keeps the cache, and publishes once in the words for pods that left, are unknown, or are elsewhere. |
| `Retries.RefusedAttach` | daemon/src/pump.cpp:181-228 | A failed attempt with the pods here is retried after 1000 ms the first time and 2000 ms the second, and after the third publishes once more and is not retried; without the pods it is never retried. |
| `Retries.OpenedAttach` | daemon/src/pump.cpp:199-203 | A successful attempt publishes "channel open" once, sets the tick timer and leaves no retry. |
| `Retries.ArrivalTriesThrice` | daemon/src/pump.cpp:154-236 | When the pods arrive at a closed channel and every attempt fails, the connects grow by exactly one for the arrival and one for each of the first two retry timers that go off, whatever else happens; a retry is pending until both have. |
| `StatusLines.RefusedStatus` | daemon/src/pump.cpp:189-192 | After a failed attempt the status is stage, colon, diagnosis, and after the third " (gave up after 3 attempts)" with the number spelled out. |
| `PumpProofs.TickKeeps` | daemon/src/pump.cpp:248-279 | A tick never connects and publishes whenever a snapshot would differ. |
| `SessionSocket.OpenPhase` | lib/include/airprobe/session.h:120-121 | After open() the phase is Closed exactly without a socket if and only if nothing was open before or the connect succeeded. |
| `SessionSocket.ClosedMeansNoSocket` | lib/include/airprobe/session.h:120-121 | At every point of every run Closed means exactly "no socket" if and only if no reopen has been refused without a close or a connect that worked since. |
| `SessionSocket.RefusedReopenKeepsPhase` | lib/src/session.cpp:93-94 | The failing run: a session opened and then reopened with the second connect refused has no socket and still waits for a handshake ack. |
| `Watches.BluezWatch.constructor` | daemon/src/bluez_watch.cpp:32 | A new watch has seen nothing. |
| `Watches.BluezWatch.DoUpdate` | daemon/src/bluez_watch.cpp:166-174 | Stores the new value and calls back exactly on the first value and on every change. |
| `Watches.BluezWatch.DoRescan` | daemon/src/bluez_watch.cpp:106-164 | The scan loop with its early exit computes `Scan`; a failed call counts as nowhere. |
| `Watches.BluezWatch.DoRescanSoon` | daemon/src/bluez_watch.cpp:96-104 | Pushes the one pending rescan back. |
| `Watches.BluezWatch.OnRescanTimer` | daemon/src/bluez_watch.cpp:88-94 | Clears the timer and rescans. |
| `Watches.BluezWatch.OnPropsChanged` | daemon/src/bluez_watch.cpp:176-190 | Acts only on the known path and only when Connected is among the changes. |
| `Watches.BluezWatch.OnInterfacesChanged` | daemon/src/bluez_watch.cpp:192-202 | Only queues a rescan. |
| `Watches.BluezWatch.OnBluezAppeared` | daemon/src/bluez_watch.cpp:204-209 | Rescans at once. |
| `Watches.BluezWatch.OnBluezVanished` | daemon/src/bluez_watch.cpp:211-218 | Nowhere. |
| `Watches.ScanIsLookup` | daemon/src/bluez_watch.cpp:131-153 | The scan loop is first-match lookup of the address in the tree. |
| `Watches.LookupReads` | daemon/src/bluez_watch.cpp:134-153 | That lookup gives the path of the first object whose address equals ours but for the case of letters, and connected exactly if its Connected is there and true. |
| `Watches.AddressesMatch` | daemon/src/bluez_watch.cpp:24-29 | Two addresses upper-case to the same text exactly when they differ at most in the case of letters. |
| `Watches.FirstMatchIsFirst` | daemon/src/bluez_watch.cpp:134-153 | The match is the first one; without one no object carries the address. |
| `WatchAgreement.WatchAgreesWithTree` | daemon/src/bluez_watch.cpp:64-218 | For every interleaving of tree changes, restarts, queued signals, name reports and scans, including signals already queued before the first scan: with nothing queued and no rescan pending the watch equals first-match lookup in the present tree, no callback repeats the one before it, and the last one reported that value. |
| `WatchAgreement.PlaySound` | daemon/src/bluez_watch.cpp:106-218 | The invariant every move keeps, whatever stale signals a scan has overtaken. |
| `Debounce.DebounceRefinesBursts` | daemon/src/bluez_watch.h:97-115 | Timer-driven scans are exactly one per maximal burst of signals, 200 ms after its last one, in order. |
| `Debounce.BurstScansExact` | daemon/src/bluez_watch.cpp:96-104 | A scan time is one exactly if some signal ends a burst 200 ms before it. |
| `Providers.BatteryProvider.constructor` | daemon/src/battery_provider.cpp:79-84 | A new provider is unregistered and exports nothing. |
| `Providers.BatteryProvider.DoResolvePaths` | daemon/src/battery_provider.cpp:185-250 | The lookup loop finds the first manager and the first device with our address; succeeds exactly with a manager. |
| `Providers.BatteryProvider.OnBluezAppeared` | daemon/src/battery_provider.cpp:276-289 | Asks to register exactly if not registered and a manager is found, and asks that manager. |
| `Providers.BatteryProvider.OnRegisterDone` | daemon/src/battery_provider.cpp:254-272 | A reply only sets the flag; it publishes nothing. |
| `Providers.BatteryProvider.OnBluezVanished` | daemon/src/battery_provider.cpp:166-183 | Forgets registration, paths and export together, as the function behind `Registration`. |
| `Providers.BatteryProvider.DerivePercentage` | daemon/src/battery_provider.cpp:305-315 | The loop computes `Percentage`, which `ProviderModel.PercentageIsLesser` characterises. |
| `Providers.BatteryProvider.DeriveSource` | daemon/src/battery_provider.cpp:317-346 | The loop builds the Source text of left, right and case. |
| `Providers.BatteryProvider.DoAddObject` | daemon/src/battery_provider.cpp:414-448 | Announces the present properties once, if the object can be exported. |
| `Providers.BatteryProvider.DoRemoveObject` | daemon/src/battery_provider.cpp:450-468 | Withdraws what was announced, if anything was. |
| `Providers.BatteryProvider.DoPublish` | daemon/src/battery_provider.cpp:481-513 | Whole new state and signals of publish(). |
| `ProviderModel.PercentageIsLesser` | daemon/src/battery_provider.cpp:305-315 | The number is n exactly when left or right reads n and neither reads less; there is none exactly when neither can be read. The case never counts. |
| `ProviderModel.PublishExact` | daemon/src/battery_provider.cpp:493-513 | After publishing, a number is up only for an open channel and a readable pod, and then it is that snapshot's number and words; it is up whenever those hold, the device is known and the object can be exported; BlueZ is sent one signal exactly when what it would be told if it asked has changed. |
| `ProviderModel.SourceReads` | daemon/src/battery_provider.cpp:317-346 | The Source text word for word: "AAP at connect", then "L", "R" and "case" each before its own component's numeral and percent sign or two dashes, the absent left out, with the separators. |
| `ProviderModel.FindAdapterIsFirst` | daemon/src/battery_provider.cpp:212-215 | The manager found is the first object that exports one; none is found exactly when there is none. |
| `ProviderModel.SourceInjective` | daemon/src/battery_provider.cpp:317-346 | Two snapshots have the same Source exactly when left, right and case agree on absent, unreadable or level. |
| `ProviderModel.VanishedInv` | daemon/src/battery_provider.cpp:176-182 | Losing bluetoothd keeps our announcement and BlueZ's view equal. |
| `Registration.RegisteredExactly` | daemon/src/battery_provider.cpp:254-272 | At every point of every run the provider is registered if and only if a registration was granted and bluetoothd has not gone away since. |
| `Registration.AsksAgain` | daemon/src/battery_provider.cpp:276-289 | After the loss of bluetoothd nothing is registered or announced, and until a new registration is granted every return of bluetoothd with a manager makes the provider ask the first one. |
| `Registration.LossClears` | daemon/src/battery_provider.cpp:166-183 | The loss of bluetoothd takes registration, export, both paths and BlueZ's view. |
| `Dbus.DbusService.constructor` | daemon/src/dbus_service.h:97-100 | Nothing published, default state. |
| `Dbus.DbusService.OnBusAcquired` | daemon/src/dbus_service.cpp:107-130 | The object is exported exactly when registering it worked. |
| `Dbus.DbusService.ComponentsVariant` | daemon/src/dbus_service.cpp:155-186 | The encoding loop over the components. |
| `Dbus.DbusService.GetProperty` | daemon/src/dbus_service.cpp:188-198 | Each snapshot property by name. |
| `Dbus.DbusService.DoPublish` | daemon/src/dbus_service.cpp:209-264 | Whole new state and signal of publish(). |
| `Dbus.ComponentsFromDbus` | shell-extension/airprobe@scott8420.github.io/format.js:181-196 | The unpacking loop computes the decoded components. |
| `Dbus.ComponentsRoundTrip` | daemon/src/dbus_service.cpp:28-38 | Decoding the encoding gives back exactly the component views: absent, unreadable and zero stay distinct. |
| `Dbus.ComponentWire` | daemon/src/dbus_service.cpp:155-186 | One component on the bus key by key: Status and RawLevel always, Level and FramingAnomaly exactly when there is one. |
| `Dbus.ComponentRead` | shell-extension/airprobe@scott8420.github.io/format.js:181-196 | One dictionary as the tile reads it key by key, with what a missing key comes out as. |
| `Dbus.ChangedExact` | daemon/src/dbus_service.cpp:234-240 | A signal carries exactly the properties whose bus values differ, with their new values. |
| `Dbus.PublishTakes` | daemon/src/dbus_service.cpp:209-232 | A publish always takes the snapshot over, and signals only on the bus, after the first, and for a change. |
| `Dbus.PublishOne` | daemon/src/dbus_service.cpp:209-264 | One publish: a signal exactly when something was published before and the snapshot differs; merging it gives the new properties. |
| `Dbus.ReplicaTracks` | daemon/src/dbus_service.h:70-74 | A copy read after the first publish and merged with every later signal equals the published state after any sequence of publishes. |
| `Dbus.CopySurvives` | daemon/src/dbus_service.cpp:216-222 | A copy read at any time survives the next publish if and only if something had been published or the first snapshot says nothing new. |
| `Dbus.EarlyCopyGoesStale` | daemon/src/dbus_service.cpp:216-222 | The failing case of the service on its own: put on the bus, read, and only then published to. |
| `Format.AgeReads` | shell-extension/airprobe@scott8420.github.io/format.js:44-62 | The printed age word for word: "age unknown", "just now", or the numeral of the count before " min ago", " hr ago", " day ago" or " days ago". |
| `Format.AgeRounding` | shell-extension/airprobe@scott8420.github.io/format.js:48-61 | The units meet at exactly 45 s, 3570 s and 84570 s; each count is rounded half up from the unit below, is never zero, and errs by at most 30 s, 1830 s or 45030 s. |
| `Format.AgeMonotone` | shell-extension/airprobe@scott8420.github.io/format.js:48-61 | An older reading never gets a shorter age, across every unit boundary. |
| `Format.PrintedAgeTells` | shell-extension/airprobe@scott8420.github.io/format.js:44-62 | Two readings show the same age text exactly when both ages are unknown or both round to the same count and unit. |
| `Format.LevelTextTells` | shell-extension/airprobe@scott8420.github.io/format.js:66-72 | Two components read the same exactly when they have the same level; no level never looks like a number. |
| `Format.LiveTileTells` | shell-extension/airprobe@scott8420.github.io/format.js:101-111 | Two live subtitles are equal exactly when both pods have equal readings. |
| `Format.SubtitleTells` | shell-extension/airprobe@scott8420.github.io/format.js:101-111 | The words on the tile: nothing or the age and a dot, "L", what the left pod says, a dot and "R", what the right pod says -- a dash, or the numeral of the level and a percent sign -- are shown exactly when there is a battery, a pod is readable, and these are the two levels. |
| `Format.SubtitleWords` | shell-extension/airprobe@scott8420.github.io/format.js:101-125 | Every other subtitle names exactly one situation. |
| `Format.TruncationKeepsDoubt` | shell-extension/airprobe@scott8420.github.io/format.js:85-97 | However a stale subtitle is cut, any percentage left standing has the whole age before it. |
| `Format.TileShowsLastBlock` | lib/src/aap_battery.cpp:124-128 | From packet to tile: a pod's text is the numeral of n and a percent sign exactly when its last block is not disconnected with raw level n at most 100, and the dash exactly when there is no such n. |
| `Daemon.BlueZHoldsLastAccepted` | daemon/src/battery_provider.h:53-64 | Between any two callbacks of any run BlueZ holds a number only while registered, with the device known and the channel open, and it is the level that the last block of one pod carries in the last packet accepted in the whole history, no pod's being lower; BlueZ's view built from signals equals our answer to GetManagedObjects. |
| `Daemon.PublishedNeverBehind` | daemon/src/pump.cpp:273-320 | Between any two callbacks the last state published, the service's state and a fresh snapshot are equal: our address, the status line, and the channel, battery, refusals and components that the transcript gives. |
| `Daemon.TimersExclusive` | daemon/src/pump.h:43-49 | The tick timer is set exactly while the channel is open; a retry timer only with the channel closed, the pods here, and one or two attempts spent, for 1000 or 2000 ms. |
| `Daemon.ChannelOnlyWhileHere` | daemon/src/pump.h:33-49 | Between any two callbacks of a run with the watch, the channel is open only while the watch says the pods are connected here. |
| `Daemon.PublishedBeforeExported` | daemon/src/main.cpp:162-173 | In every run something has been published before the object can be on the bus: start-up ends with it published and not exported, and published it stays. |
| `Daemon.RetryBudget` | daemon/src/pump.cpp:154-236 | At most three connects per callback that found the pods here; exactly one in a run without the watch. |
| `Daemon.NoReconnectUnasked` | daemon/src/pump.cpp:264-271 | From a closed channel with no retry pending, nothing but a callback that finds the pods here leads to another connect. |
| `Daemon.PeerCloseIsDormant` | daemon/src/pump.cpp:264-271 | A tick that finds the channel gone says "channel closed by the peer" and leaves the daemon in that condition. |
| `StatusLines.StatusTells` | daemon/src/pump.cpp:154-204 | In every run the status line says "channel open" exactly while the channel is open; while the watch reports the pods elsewhere it says that they left, or whether BlueZ knows them. |
| `Daemon.HandleKeeps` | daemon/src/main.cpp:156-159 | Every callback keeps the invariant of the composed daemon, publishing to the service and then to the provider. |
| `Transposition.MirrorParses` | lib/src/aap_battery.cpp:103-131 | Exchanging the left and right component bytes changes no classification and exchanges exactly the readings. |
| `Transposition.MirrorStep` | lib/src/session.cpp:161-257 | A session step commutes with the exchange. |
| `TranspositionDaemon.TranspositionInvisible` | daemon/src/battery_provider.h:32-37 | Run twice, the second time with left and right exchanged in every battery packet, the daemon gives BlueZ the same additions, changes and removals with the same device and percentage in each. |
| `EndToEnd.TileShowsLastAccepted` | daemon/src/state.h:95-98 | A client that reads the properties at any point of a run and merges every later signal has the present snapshot; its tile is live exactly while the channel is open, and its subtitle reads -- bare or behind the age -- "L", one text, a dot, "R", another, exactly when the last blocks of the last accepted packet carry the levels the two texts are the numerals of (or no level, for a dash), one being a number. |
| `EndToEnd.ExportedExactly` | daemon/src/dbus_service.cpp:107-130 | The object is on the session bus at a point of a run exactly when the bus was acquired and took it before. |
| `EndToEnd.ClientSees` | daemon/src/dbus_service.cpp:188-198 | Property by property that client has the address, the phase in words, whether the channel is open, the status line, whether a report was ever accepted, the refusals, and the components of the last report. |
| `Presence.OpenMeansConnected` | daemon/src/pump.h:33-49 | The daemon joined to a live bluetoothd, for every interleaving: with nothing queued and no rescan pending, an open channel means that the first object in the present tree with our address has Connected, and it is true. |
| `DevicePath.AnnouncedDeviceExact` | daemon/src/battery_provider.cpp:185-250 | In every joint run an announced device is the first match of the tree the provider saw last, and so the first match of the present tree if and only if that match is still where it was. |
| `DevicePath.PathIsBelieved` | daemon/src/battery_provider.cpp:276-289 | Once registered with a path, the provider keeps it and does not look again through anything but the loss of bluetoothd. |
| `DevicePath.RepairingRun` | daemon/src/battery_provider.cpp:491 | A whole run in which the device is paired again under another path: everything is delivered, the channel is open, and 50% is announced for the old path. |
| `Reconnection.OldNumberExactly` | daemon/src/battery_provider.cpp:495-513 | Between any two callbacks of any run BlueZ holds a number although no packet has been accepted on the present connection if and only if the channel is open, none has, the last report accepted before had a readable pod, and some callback published while the provider was registered, the device known and the object taken, since when neither bluetoothd nor the channel has gone away; the number is then that older report's. |
| `Reconnection.NumberAfter` | daemon/src/battery_provider.cpp:481-513 | Exactly when BlueZ holds a number after a callback that leaves the channel open: a reopen or a tick that says something puts up the last report accepted, on whichever connection, and any other callback changes nothing unless bluetoothd is lost. |
| `Reconnection.ReconnectShowsCachedReading` | daemon/src/battery_provider.cpp:481-513 | The case of the callback that takes the channel from closed to open: nothing has been heard of a battery, and the older number is up if and only if the provider was registered, the device is known or found in the one lookup, BlueZ takes the object, and the last accepted report had a readable pod. |
| `ReconnectRuns.CachedReadingRun` | daemon/src/battery_provider.cpp:495-513 | A whole run from start-up that holds an old number: a report of 50% is accepted, the pods leave and come back. |
| `ReconnectRuns.LateRegistrationRun` | daemon/src/battery_provider.cpp:495-513 | Another: the reopening puts nothing up, BlueZ registers the provider after it, and the tick that reads the handshake ack announces the 50% of the earlier connection. |

## Left out

- Bluetooth, socket and adapter calls, and the diagnosis texts: outcomes of the outside world; a failed connect leaves the
  socket closed, and a read yields gone, nothing, or 1 to 1024 bytes.
- GLib and GDBus marshalling, introspection, reference counts and destructors: property and dictionary keys are enumerations,
  and a signal is an entry in a sequence.
- The pump before `start()` has created its session, and the self-test mode.
- `require_security` and `tick_ms`: they only reach the connect call and the timer source, whose effects are outcomes here.
- Daemon.HandleKeeps: the publisher runs after the pump's callback rather than inside it, which cannot be told apart because
  neither side reads the other; battery ages and log lines are not published states.
- Daemon.BlueZHoldsLastAccepted: a registration reply may arrive at any moment, more freely than GDBus delivers it, and
  nothing is claimed about how soon a number appears after registration, because completing it does not publish.
- EndToEnd.TileShowsLastAccepted: the bus-acquired handler does nothing more once the object is on the bus; a second session
  bus connection, whose registration could fail after the first worked, is not modelled.
- Debounce.DebounceRefinesBursts: timers go off exactly when due and before a signal that arrives at that instant; a main loop
  that is late could merge two bursts.
- WatchAgreement.WatchAgreesWithTree: GetManagedObjects succeeds whenever bluetoothd is up, and object paths are named and
  distinct, as D-Bus requires; the joint runs of `Presence` and `DevicePath` take this over, and there every query of one
  callback is answered from the same tree.
- SessionDeadline.HandshakeDeadline: "no write or read fails" is stated as no step closing the session.
- `BatteryReport::find`, `to_string`, `headerSubtitle`, `hasWarning` and `warningText`: direct case tables.
- Opcode and control name tables, hex dumps, the command-line probe, the extension's widgets, installation and packaging.
- Overflow of counters and of the millisecond clock: integers here are unbounded.
- The packet view that `Step::bytes` gives into the read buffer is a copy here, so its lifetime is not modelled.

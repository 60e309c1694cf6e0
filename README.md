# IoT kettle control core in Dafny

This project models the sequential logic of the IoT kettle firmware sketches (ESP32, Arduino framework) and proves properties of it:

- **`iot_kettle.dfy`, module `IoTKettle`.** The heating state machine of `IoT_Kettle`. The six states are IDLE, PRE_INIT, POST_INIT, HEATING, POST_HEAT and ERROR.
  - The handler table becomes a `match` in `Controller.Tick`.
  - Each handler is a method of the class `Controller`, whose fields are the sketch's globals.
  - The callbacks are methods too: the start-button ISR, the one-shot start timer and the mug/water ISRs.
  - Every method is specified by a pure step function on the datatype `Kettle` (`IdleStep`, `HeatingStep`, …, `Apply`). The lemmas are stated on those functions.
  - Time is the `unsigned long` `millis()` counter, modelled as `Millis` (0 ≤ t < 2^32), with elapsed time as subtraction modulo 2^32.
  - The temperature and the two switch levels are inputs of each tick.
- **`protocol.dfy`, module `Protocol`.** Pieces shared by the three networked sketches:
  - `payloadConvert`'s split at the first separator, including the in-place NUL write;
  - the `wifiScan` comma-join, as a function and as the source's loop;
  - the browser page's `split(",")`;
  - the `Preferences` key/value store with its `""` default.
- **`kettle_without.dfy`, module `KettleWithout`.** The `Kettle_Without` sketch:
  - the boot decision (setup mode when the stored SSID is empty, otherwise a join attempt whose result is an input);
  - the one-shot `WiFiErrorMessage` drained by `loop`;
  - the comma protocol `WIFI`, `RESET`, `AccessPointName,X` and `AccessPointPassword,Y`.
- **`wifi_setup.dfy`, module `WiFiSetup`.** The `WiFi_Setup` sketch:
  - setup mode unless both credentials are non-empty;
  - the connected page whatever the join reports;
  - the same comma protocol, with `RESET` as `clear()`.
- **`kettle_demo.dfy`, module `KettleDemo`.** The `Kettle_Demo` sketch:
  - the space-separated protocol (`MUG`, `WIFI`, `KETTLE`, `THERMISTOR`, and the `LED` table);
  - the four-slot `samples` array with `counter`;
  - the sixty-slot `kettleRangeArray` with `countKettle`.

Each sketch class keeps the sketch's globals as fields. Its methods change them in place, and each `ensures` ties the new state to a pure step function of the old state. Replies to a websocket client, serial prints, broadcasts, the registered page and a restart request are recorded in fields, not performed.

Notes on the behaviour as written, which the model follows:

- `errorState` is declared at `IoT_Kettle/src/main.cpp:46` but has no definition in that file. The model assumes it enters ERROR with the given message (`Faulted`), the reading that the ERROR state's handler and its message texts suggest. This is an assumption, not the code (see `IoTKettle.Controller.ErrorState` under "## Left out").
- The timeout tests compare an `unsigned long` difference with a float constant (`5000.0f`, `100000.0f`). Both constants lie below 2^24, so every value near them converts exactly. The comparison is therefore the integer comparison `d > 5000` (resp. `d > 100000`) on the 32-bit difference.
- A mug or water interrupt only sets ERROR. The relay stays as it was until the next ERROR tick switches it off (`InterlockFaultStopsRelay`). A heating timeout likewise leaves the relay on for that tick (`HeatingTimeout`).
- `errorHandle` prints the message but does not clear it.
- The start-button interrupt stays attached during HEATING. A press there restarts the sequence, and the relay stays on through PRE_INIT and IDLE (`PressDuringHeatingKeepsRelay`).
- A mug or water fault during POST_HEAT returns to IDLE with the start interrupt still detached. Later presses are then ignored until reboot (`PostHeatFaultDisarmsStart`).
- No dispatcher handles `SWITCH`, although the `Kettle_Without` home page sends it. It falls through and changes nothing (`KettleWithout.SwitchIgnored`).
- In `Kettle_Demo` the booleans are sent through Arduino's `String` of an integer, i.e. as `1`/`0`.
- In `Kettle_Demo`, the fifth call of `sampleCollector` runs the calculator and discards its own sample.

## Model

| member | source | states |
|---|---|---|
| Protocol.Find | Kettle_Without/src/main.cpp:234 | `strchr`: no result exactly when the character is absent; otherwise the index of an occurrence with none before it |
| Protocol.Parse | Kettle_Without/src/main.cpp:233-244 | property-only form iff the line has no separator (the name is then the whole line); otherwise line = name + separator + parameter, with the name free of separators, so the split is at the first separator and the parameter keeps any later ones |
| Protocol.ParseRender | WiFi_Setup/src/main.cpp:179-190 | splitting the text `name,param` (name free of separators) gives back exactly that command; property-only text is parsed as itself |
| Protocol.Render | WiFi_Setup/src/index.h:59-60 | the line a client sends: it starts with the property name, followed for the two-part form by one separator and the parameter |
| Protocol.RenderParse | Kettle_Demo/src/main.cpp:268-279 | rejoining the two halves reproduces the received line: the split loses nothing |
| Protocol.PayloadConvert | WiFi_Setup/src/main.cpp:179-190 | the receive buffer is split as `Parse` says; the first separator is overwritten by NUL in place and nothing else in the buffer changes |
| Protocol.Join | Kettle_Without/src/main.cpp:163-172 | no networks give ""; a single network gives its name with no comma |
| Protocol.JoinSnoc | Kettle_Demo/src/main.cpp:159-162 | each further name adds one comma and then the name, so there is never a trailing comma |
| Protocol.WifiScan | WiFi_Setup/src/main.cpp:127-145 | the string-building loop (last name without a comma, early "" for none) returns exactly `Join` of the scan list |
| Protocol.SplitAll | WiFi_Setup/src/index.h:28 | the page's split: at least one piece, exactly one iff the text holds no separator, and no piece holds a separator |
| Protocol.SplitJoin | Kettle_Without/src/main.cpp:163-172 | when no name contains a comma, splitting the joined list at commas gives back the scanned names in order |
| Protocol.NetworksReplySplits | WiFi_Setup/src/main.cpp:194-196 | the `WIFI` reply `NETWORKS,<list>` splits into the tag followed by the scanned names |
| Protocol.FindAfterPrefix | Kettle_Without/src/main.cpp:234 | after a separator-free prefix, the first separator is found right after it |
| Protocol.Get | Kettle_Without/src/main.cpp:87 | `getString(key, "")`: a missing key reads as "", a present one as its value |
| Protocol.Put | WiFi_Setup/src/main.cpp:221-226 | `wifiCredentials` writes one key: reading it back gives the value, every other key reads as before |
| IoTKettle.Pressed | IoT_Kettle/src/main.cpp:119-121 | the start ISR only moves the state to PRE_INIT: relay, LED, interrupts and serial output are untouched |
| IoTKettle.TimerExpired | IoT_Kettle/src/main.cpp:123-125 | the timer callback only moves the state to POST_INIT |
| IoTKettle.Faulted | IoT_Kettle/src/main.cpp:46 | the assumed errorState: ERROR with the given message, outputs untouched until the ERROR tick |
| IoTKettle.MugMoved | IoT_Kettle/src/main.cpp:181-184 | errorMug: ERROR with "Mug Moved!", outputs untouched |
| IoTKettle.WaterLost | IoT_Kettle/src/main.cpp:186-189 | errorWater: ERROR with "No water in system!", outputs untouched |
| IoTKettle.IdleStep | IoT_Kettle/src/main.cpp:109-112 | idle colour shown, relay and interrupts untouched; a due running timer always moves to POST_INIT and stops, and that is the only way the state changes; the timer is never started here |
| IoTKettle.PreInitStep | IoT_Kettle/src/main.cpp:114-117 | IDLE with the timer running from `now`; no output changes |
| IoTKettle.PostInitStep | IoT_Kettle/src/main.cpp:127-144 | HEATING iff mug and water; otherwise ERROR with the mug message before the water message and no output changed; HEATING has relay high, interlocks attached, heatingTime = now, green LED |
| IoTKettle.HeatingStep | IoT_Kettle/src/main.cpp:146-165 | POST_HEAT iff at target; ERROR iff below target and over 5000 ms; else HEATING; relay high exactly in HEATING or a timeout with the relay already high; POST_HEAT disarms start and records coolingTime |
| IoTKettle.PostHeatStep | IoT_Kettle/src/main.cpp:167-172 | the state changes only after more than 100000 ms, and then to IDLE with start re-armed; relay and interlocks untouched |
| IoTKettle.ErrorStep | IoT_Kettle/src/main.cpp:174-179 | IDLE, relay low, red LED, message appended once and kept; interrupts untouched |
| IoTKettle.Step | IoT_Kettle/src/main.cpp:105-107 | after any loop pass: HEATING implies relay high; the relay is raised only by entering HEATING; only an ERROR pass prints (its message) and it leaves the relay low; interlocks are never detached |
| IoTKettle.Apply | IoT_Kettle/src/main.cpp:102-189 | an edge never drives an output; a start edge either does nothing or (when armed) sets PRE_INIT; an interlock edge either does nothing or (when attached) sets ERROR; serial output only grows |
| IoTKettle.Run | IoT_Kettle/src/main.cpp:105-107 | over any trace, attached interlocks stay attached and the serial output only grows |
| IoTKettle.Elapsed | IoT_Kettle/src/main.cpp:155 | `millis() - start` on unsigned long: the plain difference when no wrap happened, and 2^32 minus the start plus now across a wrap |
| IoTKettle.ElapsedAcrossWrap | IoT_Kettle/src/main.cpp:168 | a duration measured across a wrap of the counter is still the duration |
| IoTKettle.BootIsSafe | IoT_Kettle/src/main.cpp:77-103 | after setup the kettle is IDLE, relay low, and satisfies the safety invariant |
| IoTKettle.ApplyKeepsSafe | IoT_Kettle/src/main.cpp:105-189 | every button edge, interlock edge or loop pass keeps the invariant: relay high only with the mug/water interrupts attached; HEATING and POST_HEAT only with them attached; POST_HEAT with relay low and start detached |
| IoTKettle.RunKeepsSafe | IoT_Kettle/src/main.cpp:105-107 | any sequence of edges and loop passes from a safe state stays safe |
| IoTKettle.RelayRaisedOnlyByHeating | IoT_Kettle/src/main.cpp:138-164 | the relay goes from low to high only on a POST_INIT tick with mug and water present, or a HEATING tick below the target within the time limit |
| IoTKettle.StartSequence | IoT_Kettle/src/main.cpp:114-121 | an armed start button sets PRE_INIT; the PRE_INIT tick starts the timer at `now` and returns to IDLE without touching the relay |
| IoTKettle.TimerFiresOnce | IoT_Kettle/src/main.cpp:109-125 | an IDLE tick moves to POST_INIT iff 2000 ms have elapsed since the timer started, stopping the timer; otherwise it only sets the idle colour |
| IoTKettle.PostInitChecks | IoT_Kettle/src/main.cpp:127-144 | mug absent → ERROR "No Mug Present"; else water absent → ERROR "No water in the kettle", relay untouched in both; both present → HEATING, relay high, heatingTime = now, interlocks attached |
| IoTKettle.TargetWins | IoT_Kettle/src/main.cpp:146-154 | at or above the target, whatever the elapsed time: POST_HEAT, relay low, start detached, coolingTime = now |
| IoTKettle.HeatingTimeout | IoT_Kettle/src/main.cpp:155-164 | below the target: elapsed > 5000 → ERROR "Heating too long somethings wrong!" with the relay left as it was; otherwise stay HEATING with relay high and the session start unchanged |
| IoTKettle.CooldownStrict | IoT_Kettle/src/main.cpp:167-172 | POST_HEAT goes to IDLE with start re-attached only when the cooldown exceeds 100000 ms strictly; otherwise nothing changes |
| IoTKettle.ErrorDrains | IoT_Kettle/src/main.cpp:174-179 | an ERROR tick always gives IDLE, relay low, red LED, and prints the message once |
| IoTKettle.InterlockFaultStopsRelay | IoT_Kettle/src/main.cpp:174-189 | with the interlocks attached, a mug/water edge gives ERROR with "Mug Moved!"/"No water in system!" from any state, and the next tick gives IDLE with the relay low |
| IoTKettle.HeatingCycle | IoT_Kettle/src/main.cpp:109-172 | press, timer, checks passing, temperature below target within the limit → HEATING with relay high; reaching the target → POST_HEAT with relay low; after the cooldown → IDLE, relay low, button re-armed |
| IoTKettle.PostHeatFaultDisarmsStart | IoT_Kettle/src/main.cpp:146-189 | a mug/water fault in POST_HEAT ends in IDLE with the start interrupt detached, so a later press changes nothing |
| IoTKettle.PressDuringHeatingKeepsRelay | IoT_Kettle/src/main.cpp:114-164 | a start press during HEATING leads to IDLE with the relay still high |
| IoTKettle.RunAppend | IoT_Kettle/src/main.cpp:105-107 | running two event sequences one after the other equals running their concatenation |
| IoTKettle.Controller.Setup | IoT_Kettle/src/main.cpp:77-103 | initial globals: IDLE, relay low, only the start interrupt attached; invariant holds |
| IoTKettle.Controller.Tick | IoT_Kettle/src/main.cpp:105-107 | `loop` runs the handler of the current state; the invariant is kept |
| IoTKettle.Controller.IdleHandle | IoT_Kettle/src/main.cpp:109-112 | the timer update may fire the callback, then the idle colour is shown |
| IoTKettle.Controller.PreInitHandle | IoT_Kettle/src/main.cpp:114-117 | timer (re)started at `now`, state IDLE |
| IoTKettle.Controller.OnStartPressISR | IoT_Kettle/src/main.cpp:119-121 | state PRE_INIT, nothing else |
| IoTKettle.Controller.OnStartTimer | IoT_Kettle/src/main.cpp:123-125 | state POST_INIT, nothing else |
| IoTKettle.Controller.PostInitHandle | IoT_Kettle/src/main.cpp:127-144 | the new globals are those of `PostInitStep` |
| IoTKettle.Controller.HeatingHandle | IoT_Kettle/src/main.cpp:146-165 | the new globals are those of `HeatingStep` |
| IoTKettle.Controller.PostHeatingHandle | IoT_Kettle/src/main.cpp:167-172 | the new globals are those of `PostHeatStep` |
| IoTKettle.Controller.ErrorHandle | IoT_Kettle/src/main.cpp:174-179 | message printed, relay low, red LED, IDLE |
| IoTKettle.Controller.ErrorState | IoT_Kettle/src/main.cpp:46 | ERROR with the given message |
| IoTKettle.Controller.ErrorMug | IoT_Kettle/src/main.cpp:181-184 | ERROR with "Mug Moved!" |
| IoTKettle.Controller.ErrorWater | IoT_Kettle/src/main.cpp:186-189 | ERROR with "No water in system!" |
| IoTKettle.Controller.StartButtonRising | IoT_Kettle/src/main.cpp:102 | a rising edge reaches the ISR only while it is attached; the invariant is kept |
| IoTKettle.Controller.MugSwitchFalling | IoT_Kettle/src/main.cpp:140 | a falling edge reaches `errorMug` only once attached; the invariant is kept |
| IoTKettle.Controller.WaterSwitchFalling | IoT_Kettle/src/main.cpp:141 | a falling edge reaches `errorWater` only once attached; the invariant is kept |
| KettleWithout.SetupStep | Kettle_Without/src/main.cpp:118-128 | setup page, network list = joined scan; store, messages, replies and serial untouched |
| KettleWithout.CredentialCheckStep | Kettle_Without/src/main.cpp:130-147 | home page iff the join is accepted, setup page iff rejected; a rejection sets "Credentials not found!" and the scan list; the store is untouched |
| KettleWithout.Boot | Kettle_Without/src/main.cpp:80-91 | a page is always registered; the store is as stored, no reply, serial output or restart yet; an empty SSID gives the setup page without an error message |
| KettleWithout.LoopStep | Kettle_Without/src/main.cpp:107-116 | the pending message is always cleared, at most one serial line is appended, and nothing else changes |
| KettleWithout.PropertyStep | Kettle_Without/src/main.cpp:246-257 | only RESET changes the store and requests a restart; only WIFI replies, with one reply; page, list, message and serial untouched |
| KettleWithout.PropertyWithStep | Kettle_Without/src/main.cpp:259-273 | no key other than SSID and PASSWORD changes; a restart is requested exactly for AccessPointPassword; exactly one reply or serial line is appended |
| KettleWithout.TextStep | Kettle_Without/src/main.cpp:216-244 | a text frame never changes the page, the network list or the pending message; replies and serial output only grow, by at most one reply |
| KettleWithout.BootDecision | Kettle_Without/src/main.cpp:86-146 | home page iff stored SSID non-empty and join accepted; setup page otherwise; "Credentials not found!" iff SSID non-empty and join rejected; the scan list is kept only in setup mode |
| KettleWithout.JoinErrorReportedOnce | Kettle_Without/src/main.cpp:137-153 | after a rejected join the first loop prints "Credentials not found!" and clears it; the next loop changes nothing |
| KettleWithout.LoopDrainsOnce | Kettle_Without/src/main.cpp:107-116 | one loop pass clears the pending message, printing it exactly when it was non-empty; a second pass changes nothing |
| KettleWithout.NameCommand | Kettle_Without/src/main.cpp:259-264 | `AccessPointName,X` sets SSID = X (commas in X kept), every other key unchanged, replies "Access Point Name Saved", no restart |
| KettleWithout.PasswordCommand | Kettle_Without/src/main.cpp:265-269 | `AccessPointPassword,Y` sets PASSWORD = Y, every other key unchanged, replies "Access Point Password Saved", restart requested |
| KettleWithout.ProvisioningSequence | Kettle_Without/src/main.cpp:259-269 | name then password persist both before the restart, and the next boot with an accepted join serves the home page |
| KettleWithout.ResetCommand | Kettle_Without/src/main.cpp:251-256 | `RESET` leaves exactly SSID = "" and PASSWORD = "", requests a restart, sends no reply; the next boot is setup mode whatever the join would do |
| KettleWithout.WifiCommand | Kettle_Without/src/main.cpp:248-250 | `WIFI` replies "NETWORKS," followed by the boot-time list, and changes nothing else |
| KettleWithout.UnrecognisedCommand | Kettle_Without/src/main.cpp:246-272 | any line other than `WIFI`, `RESET`, `AccessPointName,…` and `AccessPointPassword,…` (bare `AccessPointName` included) leaves store, replies, restart flag and messages unchanged; an unknown property-only command changes nothing at all |
| KettleWithout.SwitchIgnored | Kettle_Without/src/main.cpp:246-257 | `SWITCH` changes nothing |
| KettleWithout.Sketch.Setup | Kettle_Without/src/main.cpp:80-91 | the globals after boot are `Boot` of the stored credentials, join result and scan |
| KettleWithout.Sketch.WiFiSetupHandle | Kettle_Without/src/main.cpp:118-128 | the scan list is stored (built by the `WifiScan` loop) and the setup page registered |
| KettleWithout.Sketch.WiFiCredentialCheck | Kettle_Without/src/main.cpp:130-147 | a rejected join sets the error and falls back to setup; an accepted join registers the home page |
| KettleWithout.Sketch.Loop | Kettle_Without/src/main.cpp:107-116 | the error drain as `LoopStep` |
| KettleWithout.Sketch.WiFiErrorHandle | Kettle_Without/src/main.cpp:149-153 | the message is appended to the serial output and cleared |
| KettleWithout.Sketch.WifiCredentials | Kettle_Without/src/main.cpp:175-180 | exactly one key of the store is written; nothing else changes |
| KettleWithout.Sketch.OnText | Kettle_Without/src/main.cpp:216-220 | a text frame is split in its buffer and dispatched as `TextStep` |
| KettleWithout.Sketch.DoTheThing | Kettle_Without/src/main.cpp:246-257 | the new globals are those of `PropertyStep` |
| KettleWithout.Sketch.DoTheThingWith | Kettle_Without/src/main.cpp:259-273 | the new globals are those of `PropertyWithStep` |
| WiFiSetup.SetupStep | WiFi_Setup/src/main.cpp:228-238 | startup page, network list = joined scan; store, replies and serial untouched |
| WiFiSetup.ConnectStep | WiFi_Setup/src/main.cpp:240-246 | connected page whatever the join; the join result is only printed as "Ready"/"Failed!" |
| WiFiSetup.Boot | WiFi_Setup/src/main.cpp:61-95 | a page is always registered; the store is as stored, no reply or restart, exactly one serial line; the connected page has no network list |
| WiFiSetup.PropertyStep | WiFi_Setup/src/main.cpp:192-203 | only RESET changes the store (both keys then read "") and requests a restart; only WIFI replies, with one reply; page, list and serial untouched |
| WiFiSetup.PropertyWithStep | WiFi_Setup/src/main.cpp:205-219 | no key other than SSID and PASSWORD changes; a restart is requested exactly for AccessPointPassword; exactly one reply or serial line is appended |
| WiFiSetup.TextStep | WiFi_Setup/src/main.cpp:162-190 | a text frame never changes the page or the network list; replies and serial output only grow, by at most one reply |
| WiFiSetup.BootDecision | WiFi_Setup/src/main.cpp:78-95 | startup page iff SSID or PASSWORD is empty; connected page iff both are non-empty, and the page does not depend on the join result; the scan list is kept only in setup mode |
| WiFiSetup.NameCommand | WiFi_Setup/src/main.cpp:207-210 | `AccessPointName,X` sets SSID = X, every other key unchanged, replies "Access Point Name Saved", no restart |
| WiFiSetup.PasswordCommand | WiFi_Setup/src/main.cpp:211-215 | `AccessPointPassword,Y` sets PASSWORD = Y, every other key unchanged, replies "Access Point Password Saved", restart requested |
| WiFiSetup.ProvisioningSequence | WiFi_Setup/src/main.cpp:205-215 | name then password persist both before the restart; with both non-empty the next boot connects |
| WiFiSetup.ResetCommand | WiFi_Setup/src/main.cpp:197-202 | after `RESET` both keys read "", a restart is requested, no reply; the next boot is setup mode |
| WiFiSetup.WifiCommand | WiFi_Setup/src/main.cpp:192-196 | after a boot into setup mode (SSID or PASSWORD empty, main.cpp:85), `WIFI` adds exactly one reply, "NETWORKS," + the comma-joined scan, and changes nothing else |
| WiFiSetup.UnrecognisedCommand | WiFi_Setup/src/main.cpp:192-218 | any line other than `WIFI`, `RESET` and the two credential commands (bare `AccessPointName` included) leaves store, replies and restart flag unchanged; unknown property-only commands change nothing, unknown property+param commands only print |
| WiFiSetup.Sketch.Setup | WiFi_Setup/src/main.cpp:61-95 | the globals after boot are `Boot` of the stored credentials, join result and scan |
| WiFiSetup.Sketch.WifiSetup | WiFi_Setup/src/main.cpp:228-238 | the scan list is stored and the startup page registered |
| WiFiSetup.Sketch.ConnectToWifi | WiFi_Setup/src/main.cpp:240-246 | the join result is only printed; the connected page is registered either way |
| WiFiSetup.Sketch.WifiCredentials | WiFi_Setup/src/main.cpp:221-226 | exactly one key of the store is written; nothing else changes |
| WiFiSetup.Sketch.OnText | WiFi_Setup/src/main.cpp:162-166 | a text frame is split in its buffer and dispatched as `TextStep` |
| WiFiSetup.Sketch.DoTheThing | WiFi_Setup/src/main.cpp:192-203 | the new globals are those of `PropertyStep` (RESET is `clear()`) |
| WiFiSetup.Sketch.DoTheThingWith | WiFi_Setup/src/main.cpp:205-219 | the new globals are those of `PropertyWithStep` |
| KettleDemo.BoolText | Kettle_Demo/src/main.cpp:284 | `String` of a boolean: one character, "1" exactly for true |
| KettleDemo.Boot | Kettle_Demo/src/main.cpp:58-114 | both flags false, sampling detached, no output yet, WIFI list = joined boot-time scan |
| KettleDemo.PropertyStep | Kettle_Demo/src/main.cpp:281-299 | the kettle flag flips exactly for KETTLE; sampling is attached exactly by THERMISTOR (or already); mug flag, LED and list untouched; every other command adds exactly one reply or serial line |
| KettleDemo.PropertyWithStep | Kettle_Demo/src/main.cpp:301-330 | a reply is sent, and the LED can change, only for LED with a table entry; flags, sampling and list untouched; exactly one reply or serial line is appended |
| KettleDemo.TextStep | Kettle_Demo/src/main.cpp:268-279 | a text frame never changes the mug flag or the list; replies and serial output only grow, by at most one line in all |
| KettleDemo.LedTable | Kettle_Demo/src/main.cpp:303-327 | exactly RANGE, RED, GREEN, BLUE and OFF have an entry; RANGE and OFF both turn the LED off; every entry replies with an `LED,` text |
| KettleDemo.LedCommand | Kettle_Demo/src/main.cpp:301-330 | `LED P` with a table entry sets exactly that colour and sends exactly that reply; any other parameter only prints |
| KettleDemo.KettleToggle | Kettle_Demo/src/main.cpp:289-292 | `KETTLE` flips the flag and replies "KETTLE," with the new value; two `KETTLE` commands restore the flag |
| KettleDemo.MugReport | Kettle_Demo/src/main.cpp:283-285 | `MUG` replies "MUG," with the flag and changes nothing else |
| KettleDemo.ThermistorCommand | Kettle_Demo/src/main.cpp:293-295 | `THERMISTOR` attaches the sampling ticker and changes nothing else |
| KettleDemo.UnrecognisedCommand | Kettle_Demo/src/main.cpp:296-330 | unknown commands add one serial line and change nothing else |
| KettleDemo.Collect | Kettle_Demo/src/main.cpp:217-230 | buffer keeps four slots and counter ≤ 4; counter steps 0→1→2→3→4→0; below 4 the sample goes to slot `counter` and no other slot changes; at 4 every slot is zeroed |
| KettleDemo.CollectAll | Kettle_Demo/src/main.cpp:217-230 | over any number of ticks the buffer invariant holds and the counter is the tick count modulo 5 from where it started |
| KettleDemo.CollectFills | Kettle_Demo/src/main.cpp:217-230 | while counter + n ≤ 4, n samples are stored in order at indices counter.. and counter grows by n |
| KettleDemo.CollectCycle | Kettle_Demo/src/main.cpp:217-230 | from counter 0, four samples fill the buffer in order; the fifth call finds counter 4, zeroes the buffer, resets counter to 0 and stores nothing |
| KettleDemo.Record | Kettle_Demo/src/main.cpp:256-265 | log keeps sixty slots and count ≤ 60; count steps modulo 61; below 60 the reading goes to slot `count` and no other slot changes; at 60 the ticker is detached |
| KettleDemo.RecordAll | Kettle_Demo/src/main.cpp:256-265 | over any number of readings the log invariant holds, the count advances modulo 61, and a detached ticker is never re-attached by the log |
| KettleDemo.RecordFills | Kettle_Demo/src/main.cpp:256-265 | while there is room, readings go to consecutive indices from countKettle, in order, and the ticker stays as it was |
| KettleDemo.RecordFullLog | Kettle_Demo/src/main.cpp:256-265 | from 0, sixty readings fill the log exactly; the next is dropped, detaches the ticker and resets countKettle to 0 |
| KettleDemo.Sketch.Setup | Kettle_Demo/src/main.cpp:78-114 | flags false, buffers zeroed, counters 0, the scan list stored |
| KettleDemo.Sketch.SamplingTick | Kettle_Demo/src/main.cpp:212-230 | a ticker period runs `sampleCollector` only while the ticker is attached: then buffer as `Collect`, and, at counter 4, log as `Record` and one broadcast of the calculator's reading of the old samples; detached, nothing changes |
| KettleDemo.Sketch.SampleCollector | Kettle_Demo/src/main.cpp:217-230 | the buffer and counter follow `Collect`, with counter kept ≤ 4 and every write in bounds; when full, the calculator's reading of the old four samples is broadcast and logged as `Record` says |
| KettleDemo.Sketch.ThermistorCalculator | Kettle_Demo/src/main.cpp:232-266 | the reading is broadcast, then stored at countKettle while countKettle < 60; at 60 the ticker is detached and the count reset; countKettle stays ≤ 60 |
| KettleDemo.Sketch.KettleRange | Kettle_Demo/src/main.cpp:212-215 | the sampling ticker is attached; buffers, counters and broadcasts untouched |
| KettleDemo.Sketch.OnText | Kettle_Demo/src/main.cpp:182-186 | a text frame is split at the first space in its buffer and dispatched as `TextStep`; counters, buffers and broadcasts untouched |
| KettleDemo.Sketch.DoTheThing | Kettle_Demo/src/main.cpp:281-299 | the new globals are those of `PropertyStep`; counters, buffers and broadcasts untouched |
| KettleDemo.Sketch.DoTheThingWith | Kettle_Demo/src/main.cpp:301-330 | the new globals are those of `PropertyWithStep`; counters, buffers and broadcasts untouched |
| KettleDemo.Sketch.HandleRgb | Kettle_Demo/src/main.cpp:205-210 | the LED triple is recorded; nothing else changes, broadcasts included |

## Left out

- Temperature estimation is not modelled. `getTemperaure` (a float moving average, `log` and divisions) becomes the `temperature` input of each tick.
- `therminstorCalculator`'s float arithmetic is the `calculator` parameter, a function of the four samples. The model records the reading it produces, not the decimal text of the `TEMPRATURE,` broadcast or the float-to-integer conversion.
- Hardware I/O is not modelled: pin modes, `digitalRead`, `analogRead`, `analogWrite` and the serial port. The switch levels and raw samples are inputs; the relay level, the last LED triple and the printed lines are recorded.
- Interrupt and ticker preemption is not modelled. Each ISR and timer callback is one atomic event between loop passes, and races inside a handler are not captured.
- The Ticker library's behaviour is assumed, since the library is not part of this model: `update()` runs the one-shot callback once, when at least 2000 counter ticks have passed since `start()`. A second `start()` restarts the interval.
- WebServer, WebSocketsServer, mDNS and `WiFi.softAP` are not modelled. The registered "/" handler is recorded as `page`; the access point's "Ready"/"Failed!" print and the mDNS messages are not recorded.
- `WiFi.begin` becomes the `joinAccepted` input. `WiFi.scanNetworks` becomes the scan list; a failed scan (negative count) is the empty list, which gives the same "" as the source.
- `ESP.restart()` only sets `restarting`. The next boot is the pure `Boot` function; re-running the rest of `setup` is not modelled.
- The `WStype_CONNECTED` greeting ("Connected") and the other websocket event kinds are not modelled, only text frames.
- Text frames are taken without embedded NUL characters. The C string functions would stop at the first NUL.
- `RESET` in `WiFi_Setup` is modelled as `clear()` only. The two `putString(key, NULL)` calls after it depend on the storage library, so both keys read as the default "" afterwards.
- The `Kettle_Demo` loop's kettle-button print is not modelled. Its `mugDetect` is never written by the sketch and stays false.
- IoTKettle.Controller.ErrorState: `errorState` has no definition in `IoT_Kettle` (declared at `IoT_Kettle/src/main.cpp:46`), so its behaviour is an assumption: it enters ERROR with the message. The only definition in the repository, `Kettle Complete/src/main.cpp:465-471`, only broadcasts `"ERROR " + message` and leaves the state alone. Under that definition POST_INIT would re-check on every pass and start heating by itself once mug and water appear; the model does not capture that reading.
- `flashStorage.clear()` in `RESET` is called outside any `begin()`/`end()` pair (`Kettle_Without/src/main.cpp:252`, `WiFi_Setup/src/main.cpp:198`). Whether it acts on a closed namespace depends on the storage library, which is not part of this model; the model assumes it clears the namespace, and `KettleWithout.ResetCommand`'s "exactly SSID and PASSWORD" rests on that assumption.
- The page markup in the `index.h` files is not modelled. Only its `split(",")` of the network list is (`Protocol.SplitAll`).

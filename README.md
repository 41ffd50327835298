# VolMixer in Dafny

VolMixer connects a serial controller of volume knobs to the volume of individual
Windows applications. The controller sends lines of the form `<channel>:<volume>`.
The engine looks up the pin `Pin_<channel>` in its pin mapping to get an application
name. It then takes the process ids cached for that application, re-resolves them
when the list is empty or a process has gone, and sets the master volume of every
process's audio session on the configured render device.

This project models that core and proves properties of the model:

- `engine.dfy` is the current engine, `VolMixer/Components/VolMixer.cs`. It covers the
  decoder `TryGetInfoFromSerial`, the retrying `TryOpenPort`, and one iteration of
  `Run`: decode, repair of stale ids, fan-out. It also covers `Run` over a finite
  sequence of lines.
- `helper.dfy` is `VolMixerConsole/Components/VolMixerHelper.cs`. It covers device and
  session lookup, process resolution by name, and building the process mapping.
- `config.dfy` is the configuration object, `VolMixer/Components/VolMixerConfig.cs`,
  plus dictionary lookup.
- `serial.dfy` is the serial port, with open attempts whose outcome is an oracle, and
  the retry arithmetic both engines share.
- `legacy_engine.dfy` and `legacy_helper.dfy` are the first-generation console engine
  and its helper, `VolMixerConsole/VolMixer.cs` and `VolMixerConsole/VolMixerHelper.cs`.
- `prop_variant.dfy` is the COM `PropVariant` struct with its overlaid fields,
  `VolMixer/CoreAudio/Properties/PropVariant.cs`.
- `logging.dfy` is the console file logger, `VolMixerConsole/Logging`.
- `audio.dfy` and `text.dfy` are shared models:
  - `audio.dfy` is the platform: active render devices, their audio sessions, and the
    OS process table.
  - `text.dfy` is the .NET string operations the code relies on: `Split`,
    `EndsWith` and `ToUpper`.

The platform is a value (`Audio.Platform`) that methods take and return. Parsing a
float is a partial function `parse`. Open attempts, the clock and the file system are
oracles passed in. Each engine's per-line behaviour is a specification function
(`Engine.LineEffect`, `LegacyEngine.LegacyLineEffect`). The imperative methods are
proved equal to it, and the properties are proved about the function.

Where the design description and the code disagree, the model follows the code:

- A process's name is compared with `==`, which is case-sensitive, in the current
  helper. The legacy engine compares with `ToUpper` on both sides.
- A dead cached id triggers one resolution per dead id, not one per message.
- A session whose process has exited makes resolution throw a
  `NullReferenceException`. Resolution does not skip that session.
- An application with no entry in the process mapping rejects the line. It is not
  resolved on demand.
- A pin mapped to the empty application makes the legacy engine throw
  `KeyNotFoundException`, which ends `Run`.

## Model

| member | source | states |
|---|---|---|
| Text.Split | VolMixer/Components/VolMixer.cs:168-173 | `Split(':')` yields at least one field; lemmas give the field count as separators + 1, no field holds a separator, and joining restores the line |
| Text.SplitCount | VolMixer/Components/VolMixer.cs:168-169 | the number of fields is the number of ':' plus one, so a line has two fields exactly when it holds one ':' |
| Text.JoinSplit | VolMixer/Components/VolMixer.cs:168 | splitting loses nothing: joining the fields with the separator gives back the line |
| Text.SplitFieldsHaveNoSeparator | VolMixer/Components/VolMixer.cs:168 | no field contains the separator |
| Text.SplitTwoFields | VolMixer/Components/VolMixer.cs:168-173 | `a + ":" + b` with no ':' in a or b splits into exactly [a, b] |
| Text.Upper | VolMixerConsole/VolMixer.cs:138 | upper-casing keeps the length and maps each character through the ASCII upper-case map |
| Text.UpperIdempotent | VolMixerConsole/VolMixer.cs:138 | upper-casing twice is upper-casing once |
| Config.Lookup | VolMixer/Components/VolMixer.cs:175-179 | `TryGetValue`: a result exactly when some entry has the key, and the result is the value of such an entry |
| Config.VolMixerConfig.constructor | VolMixer/Components/VolMixerConfig.cs:49-57 | all six properties hold their arguments unchanged |
| Audio.FirstDevice | VolMixerConsole/Components/VolMixerHelper.cs:209-249 | the index of the first device with the friendly name; none exactly when no device has it |
| Audio.FirstSession | VolMixerConsole/Components/VolMixerHelper.cs:279-291 | the index of the first session of the process; none exactly when the process has no session |
| Audio.VolumeTarget | VolMixerConsole/Components/VolMixerHelper.cs:258-299 | a control, when found, is on the FIRST device of that name and is the FIRST session of that process there, and it exposes a simple volume. There is none exactly when no device has that name, the device has no session of the process, or its first such session has no simple volume. |
| Audio.SetLevel | VolMixerConsole/Components/VolMixerHelper.cs:50 | `SetMasterVolume` sets that session's level when it is in [0, 1] and refuses any other level, changing nothing; every other session and the topology are unchanged |
| Audio.SetThenGet | VolMixerConsole/VolMixerHelper.cs:22-54 | a volume set in percent within [0, 100] reads back as the same percent (level/100, then ×100); any other volume leaves the volume read back as it was |
| Audio.SetVolumeIdempotent | VolMixerConsole/VolMixerHelper.cs:41-54 | setting the same volume twice gives the same platform as setting it once |
| Audio.SetFailsIffGetFails | VolMixerConsole/VolMixerHelper.cs:22-54 | set and get fail for exactly the same process and device |
| Audio.SetVolumeKeepsTopology | VolMixerConsole/Components/VolMixerHelper.cs:40-53 | a successful set changes only session levels |
| Audio.SameTopologyVolumeTarget | VolMixerConsole/Components/VolMixerHelper.cs:258-299 | lookup of a control depends only on names, process ids and session kinds, not on levels |
| Helper.PinName | VolMixerConsole/Components/VolMixerHelper.cs:31 | `string.Format("Pin_{0}", channel)` is "Pin_" followed by the channel |
| Helper.PinNameInjective | VolMixerConsole/Components/VolMixerHelper.cs:31 | different channels give different pin keys |
| Helper.GetIMMDeviceByName | VolMixerConsole/Components/VolMixerHelper.cs:209-249 | the loop returns the first device with the friendly name, or none |
| Helper.TryGetISimpleAudioVolumeByProcessId | VolMixerConsole/Components/VolMixerHelper.cs:258-299 | the control is the first session of the process on the named device, and only if it exposes a simple volume; true exactly when one is returned |
| Helper.TrySetApplicationVolume | VolMixerConsole/Components/VolMixerHelper.cs:40-53 | false and nothing changed without a control; otherwise only that session's level becomes volume/100 |
| Helper.TryGetProcessesForDevice | VolMixerConsole/Components/VolMixerHelper.cs:61-98 | false with no ids when no device has the name; otherwise one id per session, in session order |
| Helper.FirstDead | VolMixerConsole/Components/VolMixerHelper.cs:121-133 | the position of the first id whose process is gone, with all earlier ids alive; none exactly when all are alive |
| Helper.MatchingPidsMembers | VolMixerConsole/Components/VolMixerHelper.cs:121-138 | the resolved ids are exactly the device's session ids whose process has that name, no more of them than sessions |
| Helper.CollectMatches | VolMixerConsole/Components/VolMixerHelper.cs:121-138 | the loop collects matching ids in order and throws at the first session whose process is gone |
| Helper.TryGetProcessIdsByApplicationName | VolMixerConsole/Components/VolMixerHelper.cs:108-142 | false exactly when no device has the name; found ids are live processes with that exact name |
| Helper.ResolveFound | VolMixerConsole/Components/VolMixerHelper.cs:108-142 | a successful resolution returns exactly the device's session ids whose live process has the name |
| Helper.Resolve | VolMixerConsole/Components/VolMixerHelper.cs:108-142 | a crash names a session of the device whose process is gone |
| Helper.ResolveOutcomes | VolMixerConsole/Components/VolMixerHelper.cs:114-133 | resolution fails exactly without the device, and throws exactly when some session's process is gone |
| Helper.ResolveSameTopology | VolMixerConsole/Components/VolMixerHelper.cs:108-142 | setting volumes never changes what resolution returns |
| Helper.ApplicationsMembers | VolMixerConsole/Components/VolMixerHelper.cs:164-170 | the applications considered are exactly the non-empty pin values |
| Helper.TryCreateProcessMapping | VolMixerConsole/Components/VolMixerHelper.cs:152-202 | false exactly without the device. A built mapping has a key for exactly each non-empty pin value, mapped to its matching ids. It throws on a gone process (once some value is non-empty) and on a repeated application. |
| Helper.MapApplications | VolMixerConsole/Components/VolMixerHelper.cs:164-198 | the loop over the pins, given the session ids: the same outcomes as `TryCreateProcessMapping` once the device is found |
| Helper.MapPin | VolMixerConsole/Components/VolMixerHelper.cs:166-197 | one pin: skipped when empty; otherwise it throws on a gone process or a repeated application, or adds the application with its matching ids |
| Serial.SerialPort.Open | VolMixer/Components/VolMixer.cs:129-133 | one attempt per call; the port is open afterwards exactly when it was or the attempt succeeded |
| Serial.AttemptsMade | VolMixer/Components/VolMixer.cs:126-139 | the retry loop makes at least one attempt exactly when `MaxRetries` is positive |
| Serial.OpensWithin | VolMixer/Components/VolMixer.cs:126-144 | when the loop ends with the port open, its last attempt is the one that succeeded |
| Serial.AttemptsBounded | VolMixer/Components/VolMixer.cs:126-139 | the retry loop makes at most `MaxRetries` attempts, none when it is zero or negative |
| Serial.OpensWithinIff | VolMixer/Components/VolMixer.cs:126-144 | the port ends open exactly when one of the first `MaxRetries` attempts succeeds |
| Serial.AttemptsOutcome | VolMixer/Components/VolMixer.cs:126-144 | on success the last attempt is the first that succeeded; on failure all `MaxRetries` attempts were made and failed |
| Serial.Int32Increment | VolMixer/Components/VolMixer.cs:136 | the unchecked `++` on an `int` stays in the 32-bit range and agrees with adding one modulo 2^32 |
| Serial.TryCountAfter | VolMixerConsole/VolMixer.cs:54-64 | the written `tryCount` after any number of failed attempts is a 32-bit `int` |
| Serial.TryCountNoWrap | VolMixer/Components/VolMixer.cs:126-136 | below `int.MaxValue` failures, `tryCount` is one more than the failures so far |
| Serial.TryCountGuard | VolMixer/Components/VolMixer.cs:127 | below `int.MaxValue` failures the written guard `tryCount <= MaxRetries` holds exactly when fewer than `MaxRetries` attempts failed, the budget the retry specification counts |
| Serial.TryCountWraps | VolMixer/Components/VolMixer.cs:126-136 | after `int.MaxValue` failures `tryCount` is `int.MinValue`, and no value of it exceeds `int.MaxValue` |
| Engine.VolMixer.constructor | VolMixer/Components/VolMixer.cs:28-38 | the port gets the configured name and baud rate and starts closed; the configuration is held by reference |
| Engine.VolMixer.TryOpenPort | VolMixer/Components/VolMixer.cs:120-150 | an open port is kept without attempts; otherwise the attempts made and the outcome are those of the retry specification, and `tryCount` counts only failures |
| Engine.TryGetInfoFromSerial | VolMixer/Components/VolMixer.cs:160-201 | rejected for the field count exactly when the line has not exactly one ':'. On success the application is the pin's non-empty value, and its ids are those cached for it. The volume is the parse of the second field. |
| Engine.DecodeRejectsInOrder | VolMixer/Components/VolMixer.cs:168-197 | each rejection happens exactly when all earlier checks pass and its own fails: unknown pin, empty application, no process mapping, unparsable volume |
| Engine.BuiltMappingCoversPins | VolMixer/Components/VolMixer.cs:187-191 | a mapping that holds exactly the configured applications, as `TryCreateProcessMapping` builds it, never rejects a line for lack of a mapping |
| Engine.DecodeWellFormed | VolMixer/Components/VolMixer.cs:160-201 | a line `<channel>:<text>` decodes to the pin's application, its cached ids and the parsed volume |
| Engine.FanOutCalls | VolMixer/Components/VolMixer.cs:104-111 | one call per id, in order, each with the line's volume, continuing past failures; only session levels change |
| Engine.FanOutKeepsTopology | VolMixer/Components/VolMixer.cs:104-111 | setting the volume for each id changes only session levels, never devices, sessions or processes |
| Engine.DeadCount | VolMixer/Components/VolMixer.cs:75-102 | no dead id exactly when there is no first dead id |
| Engine.RepairIds | VolMixer/Components/VolMixer.cs:75-102 | one resolution per dead id. No dead id means nothing changes. With a dead id, a successful resolution makes the resolved list both the list fanned out to and the mapping entry; a resolution that finds no device keeps the list and the mapping. It throws exactly when some id is dead and resolution throws. |
| Engine.VolMixer.CheckProcesses | VolMixer/Components/VolMixer.cs:75-102 | the liveness loop over the captured list equals `RepairIds`, and the mapping ends as that specification says |
| Engine.VolMixer.SetVolumes | VolMixer/Components/VolMixer.cs:104-111 | the fan-out loop's calls and platform are those of `FanOut` |
| Engine.VolMixer.ApplyLine | VolMixer/Components/VolMixer.cs:62-111 | a decoded line's effect equals `ApplyInfo`: an empty cached list is resolved once and stored before the liveness check |
| Engine.VolMixer.CheckAndSet | VolMixer/Components/VolMixer.cs:75-111 | liveness check then fan-out equals `RepairAndApply` |
| Engine.VolMixer.HandleLine | VolMixer/Components/VolMixer.cs:54-112 | the outcome, the new process mapping and the new platform are those of `LineEffect` |
| Engine.LineEffect | VolMixer/Components/VolMixer.cs:54-112 | a line never adds or removes a mapping entry, and only a line whose volume is applied touches the platform |
| Engine.RejectedLineChangesNothing | VolMixer/Components/VolMixer.cs:54-60 | a blank or rejected line makes no call and changes neither mapping nor platform |
| Engine.UnknownPinCallsNothing | VolMixer/Components/VolMixer.cs:175-179 | a channel without a `Pin_` key never reaches an audio session |
| Engine.EmptyListUnresolved | VolMixer/Components/VolMixer.cs:62-68 | an empty cached list that cannot be resolved drops the line with nothing changed |
| Engine.RepairAndApplyCalls | VolMixer/Components/VolMixer.cs:75-111 | the entry afterwards is the resolved list when an id was dead and resolution succeeded, otherwise the list checked; calls go to exactly those ids, in order, with the volume; one resolution per dead id |
| Engine.ApplyInfoCalls | VolMixer/Components/VolMixer.cs:62-111 | for a decoded line whose list is the cached entry: the entry afterwards is the resolved list after an empty cached list or a successful re-resolution of a dead id, otherwise the cached list; calls match that entry in order; one resolution for an empty list plus one per dead id |
| Engine.AppliedLine | VolMixer/Components/VolMixer.cs:54-112 | whenever volume is applied, only the application's entry may change: it becomes the resolved list after an empty cached list or a successful re-resolution of a dead id, and otherwise stays the cached list. The calls match that entry in order. Resolutions are one for an empty list plus one per dead id. Only levels change. |
| Engine.RepairLeavesLiveIds | VolMixer/Components/VolMixer.cs:92-100 | after a successful re-resolution every id in the entry is a live process with that name |
| Engine.SingleProcessScenario | VolMixer/Components/VolMixer.cs:43-114 | pin 1 → music.exe with one live process and session: the line "1:50" makes exactly one call and leaves its level at 0.5 |
| Engine.RunStopsOnlyOnThrow | VolMixer/Components/VolMixer.cs:52-113 | message-level failures never stop the loop; only an escaping exception ends it before the input does |
| Engine.VolMixer.Run | VolMixer/Components/VolMixer.cs:43-114 | `portOpen` is whether the port is open afterwards. An open port is kept without attempts. Otherwise the attempts made and whether the port opened are those of the retry specification with `MaxRetries`. Nothing is read when the port stays closed; otherwise the outcomes and final state are those of `RunLines` over the lines, each handled against the process table current when it arrives. |
| LegacyEngine.FirstCandidate | VolMixerConsole/VolMixer.cs:132-143 | the first process known to the mixer whose upper-cased name equals the upper-cased query |
| LegacyEngine.ProcessIdByName | VolMixerConsole/VolMixer.cs:127-146 | -1 exactly when no candidate process exists; otherwise the id of a candidate |
| LegacyEngine.GetProcessIdByName | VolMixerConsole/VolMixer.cs:127-146 | the loop returns the first candidate's id, or -1 |
| LegacyEngine.ProcessIdByNameIgnoresCase | VolMixerConsole/VolMixer.cs:138 | names equal up to ASCII case find the same process |
| LegacyEngine.BuildProcessMapping | VolMixerConsole/VolMixer.cs:31-47 | the constructor's loop equals `BuildFrom`: it skips empty values, stops at the first unresolvable application, and throws on a repeated one |
| LegacyEngine.BuildFrom | VolMixerConsole/VolMixer.cs:32-47 | construction only adds entries: every entry already present is kept with its id unless construction throws |
| LegacyEngine.BuildKeepsResolved | VolMixerConsole/VolMixer.cs:40-46 | every entry built maps a non-empty application to the id the lookup finds for it, never -1 |
| LegacyEngine.BuildCompleteKeys | VolMixerConsole/VolMixer.cs:32-47 | a complete build holds exactly the non-empty values of the port mapping |
| LegacyEngine.BuildFailures | VolMixerConsole/VolMixer.cs:40-46 | an early stop names a configured application with no process; a duplicate names a configured non-empty application |
| LegacyEngine.BuildStopsAtFirst | VolMixerConsole/VolMixer.cs:32-47 | an early stop happens at the FIRST non-empty value with no process: every non-empty value before it has one, and the mapping left holds exactly those earlier values |
| LegacyEngine.BuildCompleteIff | VolMixerConsole/VolMixer.cs:32-47 | construction completes exactly when every non-empty value has a process and no non-empty value appears twice |
| LegacyEngine.PortName | VolMixerConsole/VolMixer.cs:17 | `string.Format("Port_{0}", channel)` is "Port_" followed by the channel |
| LegacyEngine.Decode | VolMixerConsole/VolMixer.cs:81-100 | each rejection exactly when the earlier checks pass and its own fails: not exactly one ':', then no `Port_` key, then an unparsable volume; accepted exactly when all pass, with the port key's value (possibly empty) as application and the parse of the second field as volume |
| LegacyEngine.LegacyVolMixer.HandleLine | VolMixerConsole/VolMixer.cs:78-122 | the outcome and the new mapping are those of `LegacyLineEffect` |
| LegacyEngine.LegacyLineEffect | VolMixerConsole/VolMixer.cs:78-122 | a line never adds or removes an entry, and changes the mapping only when it makes a call |
| LegacyEngine.LegacyCallTargetsRunningProcess | VolMixerConsole/VolMixer.cs:103-122 | a volume call goes to a running process, the one the mapping now holds, with the parsed volume unscaled. A changed entry holds the id found by name. |
| LegacyEngine.LegacyLineCases | VolMixerConsole/VolMixer.cs:78-122 | every way a line ends: blank, rejected, throwing on an unmapped application, a call with the cached id while its process runs, and otherwise a fresh lookup by name that drops the line on -1 and else stores the new running id and calls with it |
| LegacyEngine.EmptyApplicationThrows | VolMixerConsole/VolMixer.cs:34-38 | a port mapped to the empty application passes decoding. The built mapping never holds it, so the line throws. |
| LegacyEngine.LegacyRunCallsRunning | VolMixerConsole/VolMixer.cs:76-124 | over a run whose process table changes between lines, there is at most one outcome per line, every volume call targets a process running when its line is handled, and entries stay non-empty names with real ids |
| LegacyEngine.BuiltEntriesValid | VolMixerConsole/VolMixer.cs:32-47 | the mapping the constructor builds, when it does not throw, has only non-empty names with real ids, so the run lemma applies to it |
| LegacyEngine.LegacyVolMixer.Create | VolMixerConsole/VolMixer.cs:20-48 | construction fails exactly on a duplicate application; otherwise the port is closed and configured and the mapping is the one built |
| LegacyEngine.LegacyVolMixer.OpenPort | VolMixerConsole/VolMixer.cs:52-73 | an open port is kept without attempts; otherwise the attempts and the outcome are those of the shared retry specification with `maxRetries` |
| LegacyEngine.LegacyVolMixer.Run | VolMixerConsole/VolMixer.cs:50-125 | `portOpen` is whether the port is open afterwards. An open port is kept without attempts. Otherwise the attempts and outcome are those of the retry specification with `maxRetries`. Nothing is read when the port stays closed; otherwise the outcomes and final mapping are those of `LegacyRunLines` over the lines, each handled against the process table current when it arrives. |
| LegacyHelper.VolMixerHelper.constructor | VolMixerConsole/VolMixerHelper.cs:17-20 | the logger argument is not stored; the field stays unset |
| LegacyHelper.VolMixerHelper.GetVolumeObject | VolMixerConsole/VolMixerHelper.cs:56-138 | the two loops find the same control as the current helper: the first session of the process on the first device with the name, if simple |
| LegacyHelper.VolMixerHelper.TryGetApplicationVolume | VolMixerConsole/VolMixerHelper.cs:22-39 | false without a control; otherwise the level times 100 |
| LegacyHelper.VolMixerHelper.TrySetApplicationVolume | VolMixerConsole/VolMixerHelper.cs:41-54 | false and nothing changed without a control; otherwise only that session's level becomes volume/100 |
| PropVariants.BVal | VolMixer/CoreAudio/Properties/PropVariant.cs:19-20 | the unsigned low byte of the shared slot |
| PropVariants.IVal | VolMixer/CoreAudio/Properties/PropVariant.cs:21-22 | a 16-bit signed value congruent to the slot modulo 2^16 |
| PropVariants.LVal | VolMixer/CoreAudio/Properties/PropVariant.cs:25-26 | a 32-bit signed value congruent to the slot modulo 2^32 |
| PropVariants.ULVal | VolMixer/CoreAudio/Properties/PropVariant.cs:27-28 | a 32-bit unsigned value congruent to the slot modulo 2^32 |
| PropVariants.HVal | VolMixer/CoreAudio/Properties/PropVariant.cs:33-36 | a 64-bit signed value congruent to the slot modulo 2^64; `uhVal` (declared `long`) and the 64-bit `pointerValue` read the same |
| PropVariants.BoolVal | VolMixer/CoreAudio/Properties/PropVariant.cs:41-42 | true exactly when the slot's low byte is non-zero |
| PropVariants.FromLong | VolMixer/CoreAudio/Properties/PropVariant.cs:110-113 | the variant is tagged VT_I8 |
| PropVariants.FromLongRoundTrip | VolMixer/CoreAudio/Properties/PropVariant.cs:110-152 | a variant made from a long is supported and reads back as that long |
| PropVariants.GetValue | VolMixer/CoreAudio/Properties/PropVariant.cs:125-152 | any failure is NotSupported naming the variant's tag |
| PropVariants.DataType | VolMixer/CoreAudio/Properties/PropVariant.cs:118 | the tag is the 16-bit `vt`, sign-extended |
| PropVariants.IsSupported | VolMixer/CoreAudio/Properties/PropVariant.cs:164-191 | only plain tags below 0x1000 are supported: no vector, array or by-reference variant |
| PropVariants.GetValueSupportedIff | VolMixer/CoreAudio/Properties/PropVariant.cs:125-191 | the getter succeeds exactly for the tags `IsSupported` accepts |
| PropVariants.SetValue | VolMixer/CoreAudio/Properties/PropVariant.cs:153-161 | the tag never changes; a string into a VT_LPWSTR variant sets the pointer; anything else leaves the variant unchanged |
| PropVariants.SetThenGetString | VolMixer/CoreAudio/Properties/PropVariant.cs:146-160 | a string stored into a VT_LPWSTR variant reads back as that string, provided the memory at the new address reads as that string (`stringAt(bstr) == s`); a string with an embedded NUL does not meet this, since the getter stops at the first NUL |
| PropVariants.SetValueOnlyWritesStrings | VolMixer/CoreAudio/Properties/PropVariant.cs:153-161 | the setter never changes a variant not tagged VT_LPWSTR |
| PropVariants.SignedByteReadsUnsigned | VolMixer/CoreAudio/Properties/PropVariant.cs:130-131 | VT_I1 reads the unsigned byte field: slot byte 0xFF reads as 255 |
| PropVariants.IntReadsSixteenBits | VolMixer/CoreAudio/Properties/PropVariant.cs:138-139 | VT_INT reads the 16-bit field: a value reads back unchanged exactly when it is below 2^15 |
| PropVariants.UnsignedLongReadsSigned | VolMixer/CoreAudio/Properties/PropVariant.cs:142-143 | VT_UI8 reads a signed field: 2^64-1 reads as -1 |
| Logging.NewLoggerInfo | VolMixerConsole/Logging/LoggerInfo.cs:11-27 | error, info and warning are each enabled exactly when their own bit (4, 1, 2) is set |
| Logging.LevelsEnable | VolMixerConsole/Logging/LogLevel.cs:8-11 | the default mask enables all three kinds, NONE none, and each flag alone only its own kind |
| Logging.LevelsMonotone | VolMixerConsole/Logging/LoggerInfo.cs:13-26 | adding flags never disables a kind; bits outside the three flags are ignored |
| Logging.WithSeparator | VolMixerConsole/Logging/Logger.cs:24-27 | the directory ends with a backslash and keeps its original text as a prefix |
| Logging.WithSeparatorIdempotent | VolMixerConsole/Logging/Logger.cs:24-27 | adding the separator to a directory that has one changes nothing |
| Logging.LogFilePath | VolMixerConsole/Logging/Logger.cs:17-37 | ArgumentNull exactly for an empty file name. DirectoryNotFound exactly when the directory with its separator does not exist, with the fixed uninterpolated message. Otherwise a path ending in ".log". |
| Logging.LogFilePathParts | VolMixerConsole/Logging/Logger.cs:34-35 | the path is the directory with separator, then the file name, then ".log" |
| Logging.DefaultDirectoryPath | VolMixerConsole/Logging/Logger.cs:8 | without a directory the log is `C:\temp\<name>.log` |
| Logging.Render | VolMixerConsole/Logging/Logger.cs:48-78 | a plain message is written as is; with an exception it reads "Message: ", the text, " Exception: ", then the exception, each at its position |
| Logging.Entry | VolMixerConsole/Logging/Logger.cs:39-46 | a line is the time, " - ", the prefix and the text, in that order |
| Logging.EntryKindsDiffer | VolMixerConsole/Logging/Logger.cs:9-11 | error, info and warning lines written at the same time never coincide |
| Logging.Logger.Create | VolMixerConsole/Logging/Logger.cs:17-37 | the constructor throws exactly the error `LogFilePath` gives; otherwise the logger has that path and the mask's flags |
| Logging.Logger.Write | VolMixerConsole/Logging/Logger.cs:39-46 | exactly one line, stamped with the time, is appended |
| Logging.Logger.LogError | VolMixerConsole/Logging/Logger.cs:48-78 | one "ERROR - " entry when errors are enabled, nothing otherwise |
| Logging.Logger.LogInfo | VolMixerConsole/Logging/Logger.cs:80-110 | one "INFO - " entry when info is enabled, nothing otherwise |
| Logging.Logger.LogWarning | VolMixerConsole/Logging/Logger.cs:112-142 | one "WARNING - " entry when warnings are enabled, nothing otherwise |

## Left out

- The serial I/O itself is not modelled. `ReadLine` is a finite sequence of lines and `Open` is an oracle over the attempt number. The endless `while (true)` is modelled as `Run` over that finite input.
- `Thread.Sleep` between open attempts is left out, because timing is not modelled.
- COM calls, `Marshal.ReleaseComObject` and reference counting are left out. Devices, sessions and volume controls are values in `Audio.Platform`, and a session's `isSimpleVolume` stands for the `as ISimpleAudioVolume` cast.
- Between lines only the process table changes: each line of a run comes with the process table current when it is handled (`Engine.Reading`, `LegacyEngine.LegacyReading`). Devices and sessions stay fixed for the run except for the levels the run sets. Changes while a single line is being handled are not modelled.
- Floats are modelled as reals. `float.TryParse` is the parameter `parse`, and its culture-dependent syntax and single-precision rounding are not modelled.
- `ToUpper` is modelled on ASCII letters only. Culture-specific case mapping is left out.
- A null dictionary value is folded into the empty string. A null directory passed to the logger is not modelled (it would throw on `EndsWith`).
- The `ILog`/log4net debug, info, warning and error messages of the engines and helpers are left out, because they do not affect behaviour.
- `VolumeMixer` (the legacy mixer facade) is not part of this model. Its `GetApplicationVolume(id) != null` is the `inMixer` flag of a process, and `SetApplicationVolume` is recorded as an outcome instead of being applied.
- The `VolMixer.Console` and `VolMixer.Service` hosts, threads and cancellation are left out. They only construct and run the engine.
- `PropVariants.GetValue` does not model `Marshal.PtrToStringUni`/`PtrToStructure` beyond reading memory through the parameters `stringAt` and `guidAt`. The float, double, date and FILETIME fields are not modelled, because the getter never reads them. Pointers are modelled as 64-bit, for a 64-bit process.
- `PropVariants.SetValue` does not model allocating the BSTR. The new address is the parameter `bstr`, and the old string is not freed.
- `Logging.Entry` does not model the text of `DateTime.Now`, which is the parameter `now`. `string.Format` and an exception's `ToString` are parameters as well.
- `Logging.Logger.Write` models the file as the sequence of lines this logger appended. Other writers and I/O errors are not modelled.
- `Engine.VolMixer.TryOpenPort` counts failed attempts with an unbounded counter rather than the 32-bit `tryCount`. The two agree while fewer than `int.MaxValue` attempts have failed (`Serial.TryCountGuard`). At `MaxRetries == int.MaxValue` the written counter wraps and the loop never stops (see Findings); the model stops after `MaxRetries` attempts, as intended.
- `LegacyEngine.LegacyVolMixer.OpenPort` has the same unbounded counter and the same difference at `maxRetries == int.MaxValue`.
- `Audio.SetLevel`: the declaration of `ISimpleAudioVolume` is not part of this model. A refused level is taken to return an error HRESULT that the code ignores, not to throw.
- `Logging.WithSeparator` compares the trailing backslash ordinally; the .NET `EndsWith(string)` it models compares with the current culture.
- `PropVariants.SetThenGetString` holds only under its memory assumption `stringAt(bstr) == s`. The setter writes a BSTR, while the getter reads up to the first NUL, so a string with an embedded NUL reads back shortened.

## Findings

| source | as written | input that shows it | evidently intended | confidence | as-written member | corrected member |
|---|---|---|---|---|---|---|
| VolMixer/Components/VolMixer.cs:126-136, VolMixerConsole/VolMixer.cs:54-64 | `int tryCount` is advanced by an unchecked `tryCount++` and checked with `tryCount <= MaxRetries` | `MaxRetries = 2147483647` and a port that never opens: after 2147483647 failures `tryCount` wraps to -2147483648, the guard still holds, and the loop retries for ever | stop after `MaxRetries` failed attempts and report the port as not opened | not executed; high | Serial.TryCountWraps | Serial.AttemptsBounded |

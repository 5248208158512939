# why-no-sound: the decision core, in Dafny

`why-no-sound` diagnoses a silent Linux desktop. It runs six checks in a fixed order:

- the audio stack: is PipeWire, WirePlumber or PulseAudio running;
- device presence: does ALSA list a sound card;
- default sink validity: does the default sink exist, is it suspended, is it a disconnected HDMI output;
- mute state: is the default sink muted or nearly silent;
- sink inputs: is an application playing to a sink other than the default;
- Bluetooth profile: is a headset stuck in the HSP/HFP call profile.

Each check reads the captured output of one or more commands and returns one `CheckResult`: a status of Ok, Warning or Error, a message and an optional suggestion. The report then picks the first Error as the probable cause, writes a summary sentence and builds an ordered list of fixes.

This project models that decision layer:

- **Types** (`types.dfy`): `CheckStatus`, `CheckResult`, its constructors `ok`/`warning`/`error`, `with_debug` and `DiagnosticReport`.
- **Report** (`report.dfy`): `build_report`. The filter, cause and summary are functions. The fix list is built by two loops, as in the source, and the loops are proved equal to the functions.
- **The six checks** (`audio_stack.dfy`, `device_presence.dfy`, `sink_validity.dfy`, `mute_state.dfy`, `sink_inputs.dfy`, `bluetooth.dfy`). Each decision ladder is a function of the command outputs. A command's captured result is a `CommandOutput` value (`runner.dfy`) passed in as a parameter.
- **The line scanners** are methods with `while` loops over the lines, updating the same locals as the source. These are `parse_sink_info`, `parse_mute_and_volume`, `parse_sink_inputs`, `parse_sink_index_map`, `parse_bluetooth_cards`, and the `misrouted` and `issues` loops.
  - Each scanner is proved equal to a fold over the classified lines.
  - The fold is in turn proved equal to a declarative reading of the listing: records that start at boundary lines and run to the next boundary.
  - The properties (which block is read, which value wins, what resets) are lemmas about that reading.
- **String helpers** (`text.dfy`) mirror the Rust standard library operations the checks use:
  - `trim` over the Unicode White_Space set;
  - `lines`, splitting at `\n` and dropping one `\r` before it;
  - `starts_with`, `contains`, `find`, `strip_prefix`, `trim_matches`, `trim_start_matches`;
  - ASCII case mapping;
  - `parse::<u32>`: an optional `+`, then ASCII digits, and overflow is an error.

Three facts about the scanners shape the model:

- **No shared record parser.** Each listing has its own scanner with its own rules: the Bluetooth profile section is closed only by `Sinks:` or the next `Name:`, and a sink's port section never closes. Each scanner is modelled as written.
- **The last field line wins.** When a block repeats a field, the last `Description:`, `State:`, `Active Port:`, `device.description = ` and `Active Profile:` line wins, not the first. Every `application.name = ` line overwrites the name as well, even with an empty value; an empty name then falls back to `media.name` or "Unknown". So a stream's name is the value of its block's last `application.name` line when that value is non-empty (`Bluetooth.LastDescriptionWins`, `SinkInputs.LastAppNameWins`).
- **Port lines before `Active Port:`.** A sink's port lines are matched against the active port read so far. In the usual `pactl list sinks` layout the `Ports:` list comes before `Active Port:`, so the active port is still empty there and every port line matches. `SinkValidity.EmptyActivePortMatchesAnyPortLine` states this behaviour.

The mute, sink-input and Bluetooth checks read only the trimmed output of `pactl get-default-sink`, not its success flag. The sink-input check also ignores whether `pactl list sinks` succeeded; a failed listing simply gives an empty index map. The model does the same.

The audio-stack ladder ends in an "unclear" Warning that no input reaches, because the earlier branches cover every combination of the three booleans. The last Ok message of the Bluetooth check is also unreachable, because the card list is known to be non-empty there. Both facts are proved.

`Bluetooth.CheckBluetoothProfile` decides the Error with the test as the code writes it: it searches the issue texts for "A2DP available". That test can be misled by a card's description (see "## Findings"). The intended test, "a card in a call profile offers A2DP", is defined beside it as `Bluetooth.AssessCards`, and `Bluetooth.ErrorIff` characterises it. `Bluetooth.IntendedErrorIsAsWrittenError` relates the two tests.

## Model

| member | source | states |
|---|---|---|
| Types.Emoji | src/types.rs:16-22 | every status has a non-empty symbol |
| Types.EmojiDistinct | src/types.rs:16-22 | two statuses have the same symbol exactly when they are the same status |
| Types.OkResult | src/types.rs:44-52 | status Ok, name and message copied, no suggestion, no debug text |
| Types.WarningResult | src/types.rs:55-63 | status Warning, name and message copied, suggestion `Some(s)`, no debug text |
| Types.ErrorResult | src/types.rs:66-74 | status Error, name and message copied, suggestion `Some(s)`, no debug text |
| Types.WithDebug | src/types.rs:77-80 | debug text becomes `Some(d)`; name, status, message and suggestion are unchanged |
| Report.WithStatus | src/report.rs:8-16 | the filtered list is no longer than the input and holds only checks of that status |
| Report.WithStatusEmpty | src/report.rs:8-16 | the filtered list is empty exactly when no check has that status |
| Report.WithStatusMembers | src/report.rs:8-16 | a check is in the filtered list exactly when it is in the input with that status |
| Report.WithStatusCount | src/report.rs:8-16 | the filtered list's length is the number of checks with that status |
| Report.NoCauseIffNoError | src/report.rs:18-19 | there is no probable cause exactly when no check is an Error |
| Report.ProbableCauseIsFirstError | src/report.rs:18-19 | the probable cause is the message of the first Error in list order |
| Report.WarningsSummary | src/report.rs:24-28 | the warnings-only summary differs from the healthy one (it opens with "No critical") |
| Report.ErrorsSummary | src/report.rs:29-35 | the error summary opens with "Found" and ends with the cause's message |
| Report.SummaryHealthyIff | src/report.rs:22-23 | the summary is the healthy sentence exactly when every check is Ok |
| Report.SummaryNotHealthy | src/report.rs:22-36 | with any Error or Warning the summary is not the healthy sentence |
| Report.SummaryCountsWarnings | src/report.rs:24-28 | with Warnings but no Errors the summary is the warning-count sentence for the number of Warnings |
| Report.SummaryNamesCause | src/report.rs:29-35 | with an Error the summary carries both counts and ends with the first Error's message |
| Report.FixableSplits | src/report.rs:39-55 | the suggestions of Errors plus those of Warnings are all the suggestions of non-Ok checks |
| Report.ErrorFixesExact | src/report.rs:41-45 | the error fixes are one `"message: suggestion"` per Error with a suggestion, none dropped and none invented |
| Report.AddWarningFixesExtends | src/report.rs:47-55 | warning fixes only append, keep the earlier list as a prefix, and add at most one per Warning with a suggestion |
| Report.AddWarningFixesFresh | src/report.rs:47-55 | no appended warning fix equals any entry before it |
| Report.AddWarningFixesCover | src/report.rs:47-55 | every Warning's fix ends up in the list, and every new entry is some Warning's fix |
| Report.CollectErrorFixes | src/report.rs:41-45 | the first loop produces exactly the error fixes |
| Report.CollectWarningFixes | src/report.rs:47-55 | the second loop appends exactly the deduplicated warning fixes |
| Report.BuildReport | src/report.rs:6-63 | the report keeps the input checks unchanged and in order, with the probable cause, summary and fix list defined above |
| Report.SuggestedFixesOrder | src/report.rs:38-55 | the error fixes come first, undeduplicated; after them no entry repeats an earlier one |
| Report.SuggestedFixesBound | src/report.rs:39-55 | there are at most as many fixes as non-Ok checks with a suggestion |
| Report.SuggestedFixesFromChecks | src/report.rs:39-55 | every fix is the text of a non-Ok check with a suggestion; Ok checks never contribute |
| Report.SuggestedFixesComplete | src/report.rs:39-55 | every non-Ok check with a suggestion has its fix in the list |
| Report.DeduplicationExample | src/report.rs:41-55 | two identical Warnings give one fix; two identical Errors give two |
| AudioStack.CheckAudioStack | src/checks/audio_stack.rs:10-79 | the result names the check and carries the evidence of all three commands |
| AudioStack.UnclearBranchIsDead | src/checks/audio_stack.rs:48-77 | over all three booleans, the ladder warns exactly when PipeWire runs without WirePlumber, so the "unclear" Warning is never produced |
| AudioStack.UnclearIsUnreachable | src/checks/audio_stack.rs:71-77 | the same for the check itself; it is an Error exactly when PipeWire is not active and `pactl info` failed |
| AudioStack.BothRunningIsOk | src/checks/audio_stack.rs:48-49 | both services `active` gives Ok whatever pactl reports |
| AudioStack.MissingWirePlumberWarns | src/checks/audio_stack.rs:50-56 | PipeWire active without WirePlumber gives the WirePlumber Warning |
| AudioStack.PactlFallbackIsOk | src/checks/audio_stack.rs:57-63 | PipeWire inactive with pactl working gives Ok: "socket-activated" exactly when the lowercased server name contains "pipewire", otherwise "legacy" |
| AudioStack.NoServerIsError | src/checks/audio_stack.rs:64-70 | PipeWire inactive with pactl failing gives Error "No audio server detected" |
| AudioStack.ServerNameFromFirstLine | src/checks/audio_stack.rs:38-43 | the server name is the first `Server Name:` line with the prefix stripped and trimmed |
| AudioStack.NoServerNameLine | src/checks/audio_stack.rs:38-45 | without such a line the name is empty and not PipeWire |
| DevicePresence.CountCardLines | src/checks/device_presence.rs:39-47 | the count is at most the number of lines, and positive exactly when some line starts with `card ` |
| DevicePresence.CheckAudioDevices | src/checks/device_presence.rs:10-62 | the result names the check and carries stdout and stderr as evidence |
| DevicePresence.MissingAplayWarns | src/checks/device_presence.rs:14-24 | a failed run whose stderr says "not found" or "No such file" gives the not-installed Warning |
| DevicePresence.NoSoundcardsIsError | src/checks/device_presence.rs:26-36 | otherwise "no soundcards found" in stderr or stdout gives Error |
| DevicePresence.CardsDecide | src/checks/device_presence.rs:38-61 | otherwise Ok exactly when a `card ` line exists, with the number of such lines (at least 1) in the message; else the same Error as no soundcards |
| DevicePresence.NeverOkWithoutCards | src/checks/device_presence.rs:39-60 | without a `card ` line the result is never Ok |
| DevicePresence.DeviceCountReadsBack | src/checks/device_presence.rs:43-51 | the number in an Ok message reads back as the count of `card ` lines |
| SinkValidity.FirstTargetFrom | src/checks/sink_validity.rs:121-138 | the first boundary line from a position on whose trimmed name is the target, or none when there is none |
| SinkValidity.NextName | src/checks/sink_validity.rs:121-144 | the next boundary line: no `Name:` line before it |
| SinkValidity.BlockFields | src/checks/sink_validity.rs:170-176 | the port availability read from a block is always "", "available" or "not available" |
| SinkValidity.SinkInfoOf | src/checks/sink_validity.rs:108-192 | a found sink carries the target's name, and its availability is one of the three values |
| SinkValidity.SinkFoundIff | src/checks/sink_validity.rs:121-138 | a sink is found exactly when some trimmed `Name:` line's trimmed value equals the target |
| SinkValidity.SinkInfoAt | src/checks/sink_validity.rs:121-148 | the fields come from the first target block only, up to the next boundary line, starting from reset fields |
| SinkValidity.BlockFieldsInContext | src/checks/sink_validity.rs:139-177 | the fields read from a block do not depend on the lines around it |
| SinkValidity.EmptyActivePortMatchesAnyPortLine | src/checks/sink_validity.rs:170-173 | while no `Active Port:` has been read, any port line saying "not available" sets that availability |
| SinkValidity.ScanInfoIsSinkInfo | src/checks/sink_validity.rs:117-191 | the line-by-line fold, with its early return, gives the block-based answer |
| SinkValidity.ReadSinkField | src/checks/sink_validity.rs:150-177 | one field line inside the target block updates the fields as the fold's step does |
| SinkValidity.ReadInfoLine | src/checks/sink_validity.rs:118-177 | one line moves the scan state from the fold at line i to the fold at line i+1 |
| SinkValidity.ParseSinkInfo | src/checks/sink_validity.rs:108-192 | the loop returns exactly the block-based answer for the trimmed lines |
| SinkValidity.CheckDefaultSink | src/checks/sink_validity.rs:10-98 | a failed or empty default sink gives Error with only the first command's evidence; otherwise the evidence includes the listing |
| SinkValidity.DefaultSinkErrorIff | src/checks/sink_validity.rs:20-91 | Error exactly when: the default sink is unavailable or empty, or the listing succeeded and the sink is missing, or it is a non-suspended HDMI sink that looks disconnected |
| SinkValidity.DefaultSinkWarningIff | src/checks/sink_validity.rs:46-70 | Warning exactly when the listing failed or the found sink is suspended |
| SinkValidity.SuspendedBeforeHdmi | src/checks/sink_validity.rs:62-70 | a suspended sink gives the SUSPENDED Warning whatever its HDMI state |
| SinkValidity.NonHdmiNeverFails | src/checks/sink_validity.rs:72-95 | a found non-HDMI sink is never an Error; if Ok, the message names its description |
| SinkValidity.MissingSinkIsNamed | src/checks/sink_validity.rs:54-60 | a sink absent from the listing gives Error naming it, with the "select a new device" suggestion |
| MuteState.DigitRunStart | src/checks/mute_state.rs:117-120 | where the run of digits ending at a position begins: not after that position |
| MuteState.DigitRunStartSpec | src/checks/mute_state.rs:117-120 | that run is all ASCII digits and cannot be extended to the left |
| MuteState.PercentFromIsFind | src/checks/mute_state.rs:114 | the scan for '%' finds what `find('%')` finds |
| MuteState.ReadPercent | src/checks/mute_state.rs:114-124 | the percentage read from one `Volume:` line is the line's volume value |
| MuteState.VolumeIsDigitsParsed | src/checks/mute_state.rs:114-121 | the volume of a line is its digit run before the first '%', parsed |
| MuteState.VolumeOfDigits | src/checks/mute_state.rs:114-123 | a digit run right before the first '%', after text not ending in a digit, is read as its value |
| MuteState.VolumeOfRoundTrip | src/checks/mute_state.rs:111-124 | a percentage written into a `Volume:` line in pactl's format is read back |
| MuteState.ClassifyByKey | src/checks/mute_state.rs:93-111 | the `Name:`, `Mute:` and `Volume:` keys exclude each other, so classifying a line loses nothing |
| MuteState.DoneIsFinal | src/checks/mute_state.rs:127-130 | once both values are known, later lines change nothing |
| MuteState.ReadMuteLine | src/checks/mute_state.rs:91-125 | one line moves the scan state from the fold at line i to the fold at line i+1 |
| MuteState.ParseMuteAndVolume | src/checks/mute_state.rs:85-134 | the loop, with its `continue` and `break`, returns exactly the fold's mute flag and volume |
| MuteState.InTargetBlockIff | src/checks/mute_state.rs:93-104 | a line is read exactly when the last boundary line at or before it names the target |
| MuteState.FirstVolumeReading | src/checks/mute_state.rs:111-125 | the first parsable volume line inside a target block, or none |
| MuteState.ScanTracksTarget | src/checks/mute_state.rs:93-130 | the scan follows the target blocks, and its volume is that of the first parsable volume line |
| MuteState.VolumeIsFirstReading | src/checks/mute_state.rs:111-125 | the volume is unknown exactly when no target-block `Volume:` line parses; otherwise it is the first such line's, never overwritten |
| MuteState.MutedFromTargetBlock | src/checks/mute_state.rs:106-109 | the mute flag is unknown exactly when no target-block `Mute:` line was read; otherwise it comes from one of them |
| MuteState.MutedIsTargetReading | src/checks/mute_state.rs:106-109 | the mute flag is `Some(value is "yes" ignoring ASCII case)` of a target-block `Mute:` line |
| MuteState.OutsideLineIgnored | src/checks/mute_state.rs:93-104 | changing a non-boundary line outside the target blocks does not change the scan |
| MuteState.OutsideTextIgnored | src/checks/mute_state.rs:93-104 | the same for the listing's text: such a line can say anything |
| MuteState.CheckMuteState | src/checks/mute_state.rs:10-83 | an empty default sink gives Warning without evidence; otherwise the listing's evidence is attached |
| MuteState.NoDefaultSinkIgnoresListing | src/checks/mute_state.rs:17-23 | with an empty default sink the listing is not consulted |
| MuteState.MuteErrorIff | src/checks/mute_state.rs:49-55 | Error exactly when the sink is set, the listing succeeded and the mute flag is `Some(true)`, whatever the volume |
| MuteState.MuteWarningIff | src/checks/mute_state.rs:17-81 | Warning exactly when: no default sink, or a failed listing, or an unknown mute flag, or not muted with a volume below 5 |
| MuteState.MuteOkMessage | src/checks/mute_state.rs:56-74 | Ok means not muted, with the percentage (at least 5) when it is known and the plain message when it is not |
| MuteState.LowVolumeIsNamed | src/checks/mute_state.rs:58-65 | a low volume gives a Warning naming the percentage |
| SinkInputs.ClassifyStreamByKey | src/checks/sink_inputs.rs:105-133 | a line is a `Sink:`, `application.name = ` or `media.name = ` line exactly when it starts with that key |
| SinkInputs.QuotedAppName | src/checks/sink_inputs.rs:124-129 | a quoted `application.name` value is read without its quotes |
| SinkInputs.NameOrUnknown | src/checks/sink_inputs.rs:109-113 | the app name is never empty: an empty name becomes "Unknown" |
| SinkInputs.ScanStreamsIsInputs | src/checks/sink_inputs.rs:102-152 | the fold, plus the final push, gives the record-based list of streams |
| SinkInputs.ReadStreamLine | src/checks/sink_inputs.rs:103-139 | one line moves the scan state from the fold at line i to the fold at line i+1 |
| SinkInputs.ParseSinkInputs | src/checks/sink_inputs.rs:97-155 | the loop returns exactly the record-based list of streams |
| SinkInputs.RecordLines | src/checks/sink_inputs.rs:105-122 | the `Sink:` lines whose index parses, in increasing order, all of them |
| SinkInputs.InputsAreRecordLines | src/checks/sink_inputs.rs:105-152 | one stream per `Sink:` line whose index parses, in input order; other `Sink:` lines produce nothing |
| SinkInputs.LastAppNameWins | src/checks/sink_inputs.rs:124-130 | a record's name is the value of its last `application.name` line, when that value is non-empty |
| SinkInputs.FirstMediaNameWithoutApp | src/checks/sink_inputs.rs:132-139 | without `application.name`, the first non-empty `media.name` is used |
| SinkInputs.EmptyBeforeMediaName | src/checks/sink_inputs.rs:119-139 | without either name the record's name stays empty; names before its `Sink:` line are discarded |
| SinkInputs.UnnamedIsUnknown | src/checks/sink_inputs.rs:109-113 | a record without name lines is "Unknown" |
| SinkInputs.ScanSinkListIsSinkMap | src/checks/sink_inputs.rs:161-175 | the fold over `pactl list sinks` gives the header-based index map |
| SinkInputs.ReadSinkListLine | src/checks/sink_inputs.rs:162-174 | one line moves the map scan from line i to line i+1 |
| SinkInputs.ParseSinkIndexMap | src/checks/sink_inputs.rs:157-178 | the loop returns exactly the header-based index map |
| SinkInputs.HeaderTakesFirstName | src/checks/sink_inputs.rs:164-174 | a `Sink #n` header pairs with the first following `Name:` value, and with nothing if another header comes first |
| SinkInputs.ResolveIsFirst | src/checks/sink_inputs.rs:58-62 | an index resolves to the name of the first map entry with that index |
| SinkInputs.ResolveMissing | src/checks/sink_inputs.rs:58-62 | an index absent from the map resolves to "" |
| SinkInputs.UnresolvedNeverMisrouted | src/checks/sink_inputs.rs:58-64 | a stream whose index is not in the map never counts as misrouted |
| SinkInputs.FirstEntryDecides | src/checks/sink_inputs.rs:58-64 | a stream is misrouted exactly when its first entry's name is non-empty and not the default sink |
| SinkInputs.Misrouted | src/checks/sink_inputs.rs:56-70 | there is at most one misrouted message per stream |
| SinkInputs.CollectMisrouted | src/checks/sink_inputs.rs:54-70 | the loop collects exactly the misrouted messages, in stream order |
| SinkInputs.MisroutedEmptyIff | src/checks/sink_inputs.rs:56-70 | the misrouted list is empty exactly when no stream is misrouted |
| SinkInputs.MisroutedStreams | src/checks/sink_inputs.rs:56-66 | the positions of the misrouted streams, in increasing order, all of them |
| SinkInputs.MisroutedInStreamOrder | src/checks/sink_inputs.rs:56-70 | exactly one message per misrouted stream, in stream order, naming the stream's application and the sink it resolves to |
| SinkInputs.CheckSinkInputs | src/checks/sink_inputs.rs:10-90 | never an Error; an empty default sink gives Warning without evidence |
| SinkInputs.SinkInputsWarningIff | src/checks/sink_inputs.rs:17-83 | Warning exactly when: no default sink, or a failed listing, or some parsed stream is misrouted |
| SinkInputs.MisroutedCountIsListed | src/checks/sink_inputs.rs:72-82 | the Warning's message opens with the number of misrouted streams, which is at most the number of streams |
| SinkInputs.SummaryStartsWithCount | src/checks/sink_inputs.rs:75-79 | the misrouted summary opens with its count |
| SinkInputs.NoStreamsIsOk | src/checks/sink_inputs.rs:44-47 | no parsed stream gives Ok "nothing playing", whatever the sink listing |
| SinkInputs.AllRoutedCountsStreams | src/checks/sink_inputs.rs:83-89 | with streams and none misrouted, Ok counts all parsed streams |
| Bluetooth.ClassifyCardByKey | src/checks/bluetooth.rs:157-214 | a line is a card boundary, `Profiles:` or `Sinks:` header exactly when it starts with that key; headers carry no property |
| Bluetooth.CardStepCases | src/checks/bluetooth.rs:156-231 | one line of the fold: a boundary emits the pending card and resets; a non-Bluetooth card's lines are skipped; headers switch section; other lines set properties and add entries |
| Bluetooth.ReadCardProperties | src/checks/bluetooth.rs:188-202 | `device.description = ` and `Active Profile:` lines set those properties; other lines keep them |
| Bluetooth.ReadSectionLine | src/checks/bluetooth.rs:216-231 | a line in the open section adds its profile or sink entry, if it has one |
| Bluetooth.ReadCardLine | src/checks/bluetooth.rs:153-232 | one line performs the fold's step, and at most one section is ever open |
| Bluetooth.ScanCardsIsCards | src/checks/bluetooth.rs:153-243 | the fold, plus the final push, gives the record-based list of cards |
| Bluetooth.ParseBluetoothCards | src/checks/bluetooth.rs:142-246 | the loop returns exactly the record-based list of cards |
| Bluetooth.CardLines | src/checks/bluetooth.rs:157-182 | the boundary lines whose trimmed name is non-empty and contains "bluez" or "bluetooth", in order, all of them |
| Bluetooth.CardsAreCardLines | src/checks/bluetooth.rs:157-243 | one card per such boundary line, in order, built from that line's block |
| Bluetooth.LastDescriptionWins | src/checks/bluetooth.rs:188-194 | a card's description is its block's last `device.description` value |
| Bluetooth.DescriptionResets | src/checks/bluetooth.rs:169-179 | without such a line the description is empty; nothing carries over from an earlier card |
| Bluetooth.LastActiveProfileWins | src/checks/bluetooth.rs:196-202 | a card's active profile is its block's last `Active Profile:` value |
| Bluetooth.ActiveProfileResets | src/checks/bluetooth.rs:169-179 | without such a line the active profile is empty |
| Bluetooth.SectionEntries | src/checks/bluetooth.rs:204-231 | profile and sink entries are exactly the entries of lines read while that section is open; a section closes only at the other header or the next card |
| Bluetooth.Issues | src/checks/bluetooth.rs:65-87 | there is at most one issue per card |
| Bluetooth.HeadsetCards | src/checks/bluetooth.rs:65-73 | the positions of the cards whose lowercased active profile contains "hsp", "hfp" or "headset-head-unit", in increasing order, all of them |
| Bluetooth.IssuesInCardOrder | src/checks/bluetooth.rs:65-87 | exactly one issue per card in a call profile, in card order: the p-th issue is the p-th such card's |
| Bluetooth.CollectIssues | src/checks/bluetooth.rs:51-88 | the loop collects exactly the issues, in card order, and whether any card is the active output |
| Bluetooth.IssuesAreHeadsetCards | src/checks/bluetooth.rs:65-87 | every card in a call profile has its issue, and every issue belongs to such a card |
| Bluetooth.NoIssuesIff | src/checks/bluetooth.rs:65-90 | there are no issues exactly when no card's lowercased active profile contains "hsp", "hfp" or "headset-head-unit" |
| Bluetooth.IssueSaysAvailable | src/checks/bluetooth.rs:75-86 | an issue ends in ", A2DP available" exactly when the card offers a profile containing "a2dp" |
| Bluetooth.AsWrittenMisreadsDescription | src/checks/bluetooth.rs:90-99 | the test on issue texts reports an Error for a card without A2DP whose description reads "A2DP available" |
| Bluetooth.AsWrittenErrorIff | src/checks/bluetooth.rs:90-99 | as written, Error exactly when a card is the active output and some issue text contains "A2DP available" |
| Bluetooth.IntendedErrorIsAsWrittenError | src/checks/bluetooth.rs:75-99 | whenever the intended reading gives Error, the test as written does too |
| Bluetooth.ErrorIff | src/checks/bluetooth.rs:90-118 | with the corrected test, Error exactly when a card is the active output and a card in a call profile offers A2DP |
| Bluetooth.InactiveIssuesWarn | src/checks/bluetooth.rs:108-117 | issues with no active card always give the "not active output" Warning |
| Bluetooth.NoIssuesIsOk | src/checks/bluetooth.rs:121-131 | without issues the result is Ok, and "optimal" exactly when a card is the active output |
| Bluetooth.CheckBluetoothProfile | src/checks/bluetooth.rs:10-132 | the evidence is always attached; a failed card listing gives Ok; otherwise Error exactly when a card is the active output and some issue text contains "A2DP available", and Ok exactly when there are no issues |
| Bluetooth.NoCardsIsOk | src/checks/bluetooth.rs:46-49 | no Bluetooth cards gives Ok, whatever the default sink |
| Bluetooth.NoIssuesMessageUnreachable | src/checks/bluetooth.rs:121-129 | the bare "No Bluetooth audio issues" message is never produced |
| Bluetooth.VerdictNeverSaysNoIssues | src/checks/bluetooth.rs:121-129 | no ending of the ladder carries that message, however "A2DP available" is decided |

## Left out

- `run_command` (src/runner.rs): spawning processes and lossy UTF-8 decoding. Each check takes the `CommandOutput` values it would have obtained as parameters.
- src/main.rs (argument parsing, clearing `debug_info` when evidence is not requested) and src/output.rs (human and JSON rendering) are presentation, not decisions.
- src/checks/mod.rs only runs the six checks in a fixed order; the report is modelled over any list of results.
- Each check runs `pactl get-default-sink` itself. Here each check receives that output as its own parameter, so nothing ties the runs together.
- The evidence attached as `debug_info` is modelled as text. No decision reads it and no property is proved about its content beyond which branches attach it.
- `to_lowercase` and `to_uppercase` are modelled on ASCII letters only. Rust also maps non-ASCII letters.
- MuteState.ReadPercent: models characters, not UTF-8 bytes. In the source, a multi-byte non-digit right before the digits makes `rfind(...) + 1` fall inside a character, and the slice then panics. The model reads the digits instead.

## Findings

| source | as written | input that shows it | evidently intended | confidence | as-written member | corrected member |
|---|---|---|---|---|---|---|
| src/checks/bluetooth.rs:91 | the Error needs an issue string containing "A2DP available". The issue text embeds the card's description, so the description alone can satisfy the test | one active Bluetooth card in profile "hsp" with no A2DP profile and description "A2DP available": as written an Error asking to switch to A2DP, which the card does not offer | Error only when a card in a call profile really offers an A2DP profile | not executed | Bluetooth.AsWrittenMisreadsDescription | Bluetooth.ErrorIff |

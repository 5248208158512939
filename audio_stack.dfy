/**
 * Check 1, the audio stack (src/checks/audio_stack.rs): is PipeWire with WirePlumber
 * running, or does a PulseAudio-compatible server answer `pactl info`?
 */
module AudioStack {
  import opened Options
  import opened Text
  import opened Types
  import opened Runner

  const CHECK_NAME: string := "audio_stack"

  const BOTH_RUNNING: string := "PipeWire and WirePlumber are running"
  const NO_WIREPLUMBER: string := "PipeWire is running but WirePlumber is not"
  const START_WIREPLUMBER: string := "Start WirePlumber: systemctl --user start wireplumber"
  const LEGACY: string := "PulseAudio is running (legacy mode)"
  const SOCKET_ACTIVATED: string := "PipeWire is running (socket-activated)"
  const NO_SERVER: string := "No audio server detected"
  const START_PIPEWIRE: string := "Start PipeWire: systemctl --user start pipewire pipewire-pulse wireplumber"
  const UNCLEAR: string := "Audio stack status is unclear"
  const CHECK_MANUALLY: string := "Check your audio server manually: systemctl --user status pipewire"

  /** `systemctl --user is-active <unit>` reports the unit running: its trimmed output is "active". */
  predicate IsRunning(isActive: CommandOutput) {
    Trim(isActive.stdout) == "active"
  }

  /**
   * The server name reported by `pactl info`: the first line starting with "Server Name:",
   * with that prefix stripped (repeatedly, as `trim_start_matches` does) and trimmed;
   * empty when there is no such line.
   */
  function ServerName(pactlInfo: string): string {
    var lines := Lines(pactlInfo);
    match FindLine(lines, "Server Name:")
    case None => ""
    case Some(i) => Trim(TrimStartMatches(lines[i], "Server Name:"))
  }

  /** The server behind `pactl` is PipeWire's PulseAudio replacement. */
  predicate IsPipeWirePulse(pactlInfo: string) {
    Contains(ToLower(ServerName(pactlInfo)), "pipewire")
  }

  /** The evidence text: both unit states and the first 500 characters of `pactl info`. */
  function Evidence(pipewire: CommandOutput, wireplumber: CommandOutput, pactl: CommandOutput): string {
    "systemctl --user is-active pipewire:\n" + Trim(pipewire.stdout) + "\n"
    + "systemctl --user is-active wireplumber:\n" + Trim(wireplumber.stdout) + "\n"
    + "pactl info (first 500 chars):\n" + Take(pactl.stdout, 500) + "\n"
  }

  /** The decision ladder of `check_audio_stack`, over the facts it has established. */
  function Decide(pipewireRunning: bool, wireplumberRunning: bool, pactlWorks: bool, isPipeWirePulse: bool): CheckResult {
    if pipewireRunning && wireplumberRunning then
      OkResult(CHECK_NAME, BOTH_RUNNING)
    else if pipewireRunning && !wireplumberRunning then
      WarningResult(CHECK_NAME, NO_WIREPLUMBER, START_WIREPLUMBER)
    else if !pipewireRunning && pactlWorks && !isPipeWirePulse then
      OkResult(CHECK_NAME, LEGACY)
    else if !pipewireRunning && pactlWorks && isPipeWirePulse then
      OkResult(CHECK_NAME, SOCKET_ACTIVATED)
    else if !pactlWorks then
      ErrorResult(CHECK_NAME, NO_SERVER, START_PIPEWIRE)
    else
      WarningResult(CHECK_NAME, UNCLEAR, CHECK_MANUALLY)
  }

  /** `check_audio_stack`, given the outputs of the three commands it runs. */
  function CheckAudioStack(pipewire: CommandOutput, wireplumber: CommandOutput, pactl: CommandOutput): (r: CheckResult)
    ensures r.name == CHECK_NAME && r.debugInfo == Some(Evidence(pipewire, wireplumber, pactl))
  {
    var decision := Decide(IsRunning(pipewire), IsRunning(wireplumber), pactl.success, IsPipeWirePulse(pactl.stdout));
    WithDebug(decision, Evidence(pipewire, wireplumber, pactl))
  }

  /** The last branch of the ladder, the "unclear" Warning, is never taken. */
  lemma UnclearBranchIsDead(pipewireRunning: bool, wireplumberRunning: bool, pactlWorks: bool, isPipeWirePulse: bool)
    ensures var r := Decide(pipewireRunning, wireplumberRunning, pactlWorks, isPipeWirePulse);
      (r.status == Warning <==> pipewireRunning && !wireplumberRunning)
      && (r.status == Warning ==> r.message == NO_WIREPLUMBER && r.suggestion == Some(START_WIREPLUMBER))
  {
  }

  /** Both services running: Ok, whatever `pactl` says. */
  lemma BothRunningIsOk(pipewire: CommandOutput, wireplumber: CommandOutput, pactl: CommandOutput)
    requires IsRunning(pipewire) && IsRunning(wireplumber)
    ensures var r := CheckAudioStack(pipewire, wireplumber, pactl);
      r.status == Ok && r.message == BOTH_RUNNING && r.suggestion == None
  {
  }

  /** PipeWire up but WirePlumber down: a Warning that suggests starting WirePlumber. */
  lemma MissingWirePlumberWarns(pipewire: CommandOutput, wireplumber: CommandOutput, pactl: CommandOutput)
    requires IsRunning(pipewire) && !IsRunning(wireplumber)
    ensures var r := CheckAudioStack(pipewire, wireplumber, pactl);
      r.status == Warning && r.message == NO_WIREPLUMBER && r.suggestion == Some(START_WIREPLUMBER)
  {
  }

  /**
   * PipeWire's unit not active but `pactl` answering: Ok; socket-activated PipeWire when the
   * lower-cased server name mentions "pipewire", legacy PulseAudio otherwise.
   */
  lemma PactlFallbackIsOk(pipewire: CommandOutput, wireplumber: CommandOutput, pactl: CommandOutput)
    requires !IsRunning(pipewire) && pactl.success
    ensures var r := CheckAudioStack(pipewire, wireplumber, pactl);
      r.status == Ok
      && (Contains(ToLower(ServerName(pactl.stdout)), "pipewire") ==> r.message == SOCKET_ACTIVATED)
      && (!Contains(ToLower(ServerName(pactl.stdout)), "pipewire") ==> r.message == LEGACY)
  {
  }

  /** Neither PipeWire's unit nor `pactl` working: Error "No audio server detected". */
  lemma NoServerIsError(pipewire: CommandOutput, wireplumber: CommandOutput, pactl: CommandOutput)
    requires !IsRunning(pipewire) && !pactl.success
    ensures var r := CheckAudioStack(pipewire, wireplumber, pactl);
      r.status == Error && r.message == NO_SERVER && r.suggestion == Some(START_PIPEWIRE)
  {
  }

  /**
   * The ladder's last branch, the "unclear" Warning, is dead: the only Warning left is the
   * missing-WirePlumber one, and the only Error is the missing server.
   */
  lemma UnclearIsUnreachable(pipewire: CommandOutput, wireplumber: CommandOutput, pactl: CommandOutput)
    ensures var r := CheckAudioStack(pipewire, wireplumber, pactl);
      (r.status == Warning <==> IsRunning(pipewire) && !IsRunning(wireplumber))
      && (r.status == Warning ==> r.message == NO_WIREPLUMBER && r.suggestion == Some(START_WIREPLUMBER))
      && (r.status == Error <==> !IsRunning(pipewire) && !pactl.success)
  {
    UnclearBranchIsDead(IsRunning(pipewire), IsRunning(wireplumber), pactl.success, IsPipeWirePulse(pactl.stdout));
  }

  /** The server name is the stripped, trimmed rest of the first "Server Name:" line. */
  lemma {:induction false} ServerNameFromFirstLine(pactlInfo: string, i: nat)
    requires i < |Lines(pactlInfo)| && StartsWith(Lines(pactlInfo)[i], "Server Name:")
    requires forall k :: 0 <= k < i ==> !StartsWith(Lines(pactlInfo)[k], "Server Name:")
    ensures ServerName(pactlInfo) == Trim(TrimStartMatches(Lines(pactlInfo)[i], "Server Name:"))
  {
    FindLineIsFirst(Lines(pactlInfo), "Server Name:", i);
  }

  /** Without a "Server Name:" line the name is empty, so the server counts as legacy PulseAudio. */
  lemma NoServerNameLine(pactlInfo: string)
    requires forall k :: 0 <= k < |Lines(pactlInfo)| ==> !StartsWith(Lines(pactlInfo)[k], "Server Name:")
    ensures ServerName(pactlInfo) == "" && !IsPipeWirePulse(pactlInfo)
  {
    assert !OccursAt(ToLower(""), "pipewire", 0);
  }
}

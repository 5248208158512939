/**
 * Check 2, device presence (src/checks/device_presence.rs): does `aplay -l` list at
 * least one sound card?
 */
module DevicePresence {
  import opened Options
  import opened Text
  import opened Types
  import opened Runner

  const CHECK_NAME: string := "audio_devices"

  const NOT_INSTALLED: string := "Cannot check audio devices (aplay not installed)"
  const INSTALL_ALSA: string := "Install alsa-utils package for full diagnostics"
  const NO_DEVICES: string := "No audio devices detected"
  const MISSING_DRIVER: string := "Possible cause: missing driver or disabled device in BIOS"

  /** A line of `aplay -l` that describes a card. */
  predicate IsCardLine(line: string) {
    StartsWith(line, "card ")
  }

  /** The number of card lines (`filter(...).count()`). */
  function CountCardLines(lines: seq<string>): (n: nat)
    ensures n <= |lines|
    ensures n > 0 <==> exists k :: 0 <= k < |lines| && IsCardLine(lines[k])
  {
    if lines == [] then 0
    else
      var rest := CountCardLines(lines[1..]);
      assert forall k :: 0 < k < |lines| ==> lines[k] == lines[1..][k - 1];
      (if IsCardLine(lines[0]) then 1 else 0) + rest
  }

  /** `aplay` itself is missing: it failed and said so on stderr. */
  predicate AplayMissing(aplay: CommandOutput) {
    !aplay.success && (Contains(aplay.stderr, "not found") || Contains(aplay.stderr, "No such file"))
  }

  /** `aplay` reports that there is no sound card, on either stream. */
  predicate ReportsNoSoundcards(aplay: CommandOutput) {
    Contains(aplay.stderr, "no soundcards found") || Contains(aplay.stdout, "no soundcards found")
  }

  /** The evidence text: the whole of stdout followed by stderr. */
  function Evidence(aplay: CommandOutput): string {
    "aplay -l:\n" + aplay.stdout + aplay.stderr
  }

  /** `check_audio_devices`, given the output of `aplay -l`. */
  function CheckAudioDevices(aplay: CommandOutput): (r: CheckResult)
    ensures r.name == CHECK_NAME && r.debugInfo == Some(Evidence(aplay))
  {
    var lines := Lines(aplay.stdout);
    var result :=
      if AplayMissing(aplay) then
        WarningResult(CHECK_NAME, NOT_INSTALLED, INSTALL_ALSA)
      else if ReportsNoSoundcards(aplay) then
        ErrorResult(CHECK_NAME, NO_DEVICES, MISSING_DRIVER)
      else if exists k :: 0 <= k < |lines| && IsCardLine(lines[k]) then
        OkResult(CHECK_NAME, NatToString(CountCardLines(lines)) + " audio device(s) detected")
      else
        ErrorResult(CHECK_NAME, NO_DEVICES, MISSING_DRIVER);
    WithDebug(result, Evidence(aplay))
  }

  /** A failed run whose stderr says the program is missing: Warning (not installed). */
  lemma MissingAplayWarns(aplay: CommandOutput)
    requires AplayMissing(aplay)
    ensures var r := CheckAudioDevices(aplay);
      r.status == Warning && r.message == NOT_INSTALLED && r.suggestion == Some(INSTALL_ALSA)
  {
  }

  /** Otherwise "no soundcards found" on either stream is an Error, whatever else is listed. */
  lemma NoSoundcardsIsError(aplay: CommandOutput)
    requires !AplayMissing(aplay) && ReportsNoSoundcards(aplay)
    ensures var r := CheckAudioDevices(aplay);
      r.status == Error && r.message == NO_DEVICES && r.suggestion == Some(MISSING_DRIVER)
  {
  }

  /**
   * Otherwise the check passes exactly when some line starts with "card ", and then its
   * message counts those lines, at least one; with no such line it fails exactly like the
   * "no soundcards" case.
   */
  lemma CardsDecide(aplay: CommandOutput)
    requires !AplayMissing(aplay) && !ReportsNoSoundcards(aplay)
    ensures var r := CheckAudioDevices(aplay);
      var lines := Lines(aplay.stdout);
      (r.status == Ok <==> exists k :: 0 <= k < |lines| && IsCardLine(lines[k]))
      && (r.status == Ok ==>
            CountCardLines(lines) >= 1
            && r.message == NatToString(CountCardLines(lines)) + " audio device(s) detected")
      && (r.status != Ok ==>
            r.status == Error && r.message == NO_DEVICES && r.suggestion == Some(MISSING_DRIVER))
  {
  }

  /** The check never passes unless `aplay -l` lists a card line. */
  lemma NeverOkWithoutCards(aplay: CommandOutput)
    requires forall k :: 0 <= k < |Lines(aplay.stdout)| ==> !IsCardLine(Lines(aplay.stdout)[k])
    ensures CheckAudioDevices(aplay).status != Ok
  {
  }

  /** The count in the message can be read back as the number of card lines. */
  lemma DeviceCountReadsBack(aplay: CommandOutput, digits: string)
    requires CheckAudioDevices(aplay).status == Ok
    requires CheckAudioDevices(aplay).message == digits + " audio device(s) detected"
    ensures AllDigits(digits) && DigitsValue(digits) == CountCardLines(Lines(aplay.stdout))
  {
    var n := CountCardLines(Lines(aplay.stdout));
    var suffix := " audio device(s) detected";
    assert NatToString(n) + suffix == digits + suffix;
    assert NatToString(n) == (NatToString(n) + suffix)[..|NatToString(n)|];
    assert |NatToString(n)| == |digits|;
    assert digits == (digits + suffix)[..|digits|];
    NatToStringRoundTrip(n);
  }
}

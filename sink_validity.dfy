/**
 * Check 3, default sink validity (src/checks/sink_validity.rs): does the default sink
 * exist in `pactl list sinks`, is it suspended, is it an HDMI output whose port is gone?
 */
module SinkValidity {
  import opened Options
  import opened Text
  import opened Types
  import opened Runner
  import opened Listing

  const CHECK_NAME: string := "default_sink"

  /** What the check reads about one sink. */
  datatype SinkInfo = SinkInfo(
    name: string,
    description: string,
    state: string,
    activePort: string,
    portAvailability: string)

  /** The index of the first boundary line of the target sink at or after `from`. */
  function FirstTargetFrom(ts: seq<string>, target: string, from: nat): (r: Option<nat>)
    requires from <= |ts|
    ensures r.None? <==> forall k :: from <= k < |ts| ==> !IsTargetLine(ts[k], target)
    ensures r.Some? ==>
      from <= r.value < |ts| && IsTargetLine(ts[r.value], target)
      && (forall k :: from <= k < r.value ==> !IsTargetLine(ts[k], target))
    decreases |ts| - from
  {
    if from == |ts| then None
    else if IsTargetLine(ts[from], target) then Some(from)
    else FirstTargetFrom(ts, target, from + 1)
  }

  /** The index of the first boundary line of the target sink. */
  function FirstTarget(ts: seq<string>, target: string): Option<nat> {
    FirstTargetFrom(ts, target, 0)
  }

  /** The end of the block that starts at `from`: the next boundary line, or the end. */
  function NextName(ts: seq<string>, from: nat): (j: nat)
    requires from <= |ts|
    ensures from <= j <= |ts|
    ensures forall k :: from <= k < j ==> !IsNameLine(ts[k])
    ensures j < |ts| ==> IsNameLine(ts[j])
    decreases |ts| - from
  {
    if from == |ts| || IsNameLine(ts[from]) then from else NextName(ts, from + 1)
  }

  lemma FirstTargetIs(ts: seq<string>, target: string, i: nat)
    requires i < |ts| && IsTargetLine(ts[i], target)
    requires forall k :: 0 <= k < i ==> !IsTargetLine(ts[k], target)
    ensures FirstTarget(ts, target) == Some(i)
  {
    var r := FirstTarget(ts, target);
    assert r.Some? && r.value <= i;
  }

  lemma NextNameIs(ts: seq<string>, from: nat, j: nat)
    requires from <= j <= |ts|
    requires forall k :: from <= k < j ==> !IsNameLine(ts[k])
    requires j < |ts| ==> IsNameLine(ts[j])
    ensures NextName(ts, from) == j
  {
    var r := NextName(ts, from);
    assert r <= j;
  }

  /** The fields read so far inside the target sink's block, and whether "Ports:" was seen. */
  datatype Fields = Fields(
    description: string,
    state: string,
    activePort: string,
    portAvailability: string,
    inPorts: bool)

  const NO_FIELDS: Fields := Fields("", "", "", "", false)

  /** How one trimmed line inside the target sink's block updates the fields. */
  function FieldStep(f: Fields, t: string): Fields {
    if StartsWith(t, "Description:") then f.(description := Trim(StripPrefix(t, "Description:")))
    else if StartsWith(t, "State:") then f.(state := Trim(StripPrefix(t, "State:")))
    else if StartsWith(t, "Active Port:") then f.(activePort := Trim(StripPrefix(t, "Active Port:")))
    else if StartsWith(t, "Ports:") then f.(inPorts := true)
    else if f.inPorts && Contains(t, f.activePort) then
      if Contains(t, "not available") then f.(portAvailability := "not available")
      else if Contains(t, "available") then f.(portAvailability := "available")
      else f
    else f
  }

  /** A boundary line is none of the field lines, so fresh fields stay fresh. */
  lemma NameLineKeepsNoFields(t: string)
    requires IsNameLine(t)
    ensures FieldStep(NO_FIELDS, t) == NO_FIELDS
  {
    assert t[0] == NAME_KEY[0] == 'N';
  }

  /** The fields read from the trimmed lines `ts[from..to]`, in order. */
  function BlockFields(ts: seq<string>, from: nat, to: nat): (f: Fields)
    requires from <= to <= |ts|
    ensures f.portAvailability in {"", "available", "not available"}
  {
    if to == from then NO_FIELDS else FieldStep(BlockFields(ts, from, to - 1), ts[to - 1])
  }

  /**
   * What `parse_sink_info` finds in the trimmed lines `ts`: the block of the first boundary
   * line naming the target, up to the next boundary line; nothing when no boundary names it.
   */
  function SinkInfoOf(ts: seq<string>, target: string): (r: Option<SinkInfo>)
    ensures r.Some? ==> r.value.name == target
    ensures r.Some? ==> r.value.portAvailability in {"", "available", "not available"}
  {
    match FirstTarget(ts, target)
    case None => None
    case Some(i) =>
      var f := BlockFields(ts, i + 1, NextName(ts, i + 1));
      Some(SinkInfo(target, f.description, f.state, f.activePort, f.portAvailability))
  }

  /** The sink is found exactly when some boundary line names it. */
  lemma SinkFoundIff(ts: seq<string>, target: string)
    ensures SinkInfoOf(ts, target).Some? <==> exists k :: 0 <= k < |ts| && IsTargetLine(ts[k], target)
  {
    if SinkInfoOf(ts, target).Some? {
      assert IsTargetLine(ts[FirstTarget(ts, target).value], target);
    }
  }

  /**
   * What the scan of `parse_sink_info` holds: the last name read, the fields, whether that
   * name is the target, and the answer once the target's block has been closed by a boundary.
   */
  datatype InfoScan = InfoScan(name: string, fields: Fields, inTarget: bool, done: Option<SinkInfo>)

  function InfoOf(name: string, f: Fields): SinkInfo {
    SinkInfo(name, f.description, f.state, f.activePort, f.portAvailability)
  }

  /** One trimmed line; once an answer is fixed the scan ignores the rest. */
  function InfoStep(s: InfoScan, t: string, target: string): InfoScan {
    if s.done.Some? then s
    else if IsNameLine(t) then
      if s.inTarget then s.(done := Some(InfoOf(s.name, s.fields)))
      else
        var name := Trim(t[|NAME_KEY|..]);
        InfoScan(name, NO_FIELDS, name == target, None)
    else if s.inTarget then s.(fields := FieldStep(s.fields, t))
    else s
  }

  /** The scan over the first `n` trimmed lines. */
  function ScanInfo(ts: seq<string>, target: string, n: nat): InfoScan
    requires n <= |ts|
  {
    if n == 0 then InfoScan("", NO_FIELDS, false, None) else InfoStep(ScanInfo(ts, target, n - 1), ts[n - 1], target)
  }

  /** The answer when the lines run out. */
  function FinalInfo(s: InfoScan): Option<SinkInfo> {
    if s.done.Some? then s.done else if s.inTarget then Some(InfoOf(s.name, s.fields)) else None
  }

  /**
   * The scan agrees with the declarative reading: before the target's boundary nothing names
   * the target; inside its block the fields are that block's so far; an answer is the answer.
   */
  predicate InfoAgrees(ts: seq<string>, target: string, n: nat)
    requires n <= |ts|
  {
    var s := ScanInfo(ts, target, n);
    (s.done.None? && !s.inTarget ==> FirstTarget(ts, target) == FirstTargetFrom(ts, target, n))
    && (s.done.None? && s.inTarget ==>
          FirstTarget(ts, target).Some? && FirstTarget(ts, target).value < n
          && s.name == target
          && NextName(ts, FirstTarget(ts, target).value + 1) == NextName(ts, n)
          && s.fields == BlockFields(ts, FirstTarget(ts, target).value + 1, n))
    && (s.done.Some? ==> s.done == SinkInfoOf(ts, target))
  }

  lemma {:induction false} ScanInfoInvariant(ts: seq<string>, target: string, n: nat)
    requires n <= |ts|
    ensures InfoAgrees(ts, target, n)
  {
    if n > 0 {
      ScanInfoInvariant(ts, target, n - 1);
      var s := ScanInfo(ts, target, n - 1);
      if s.done.None? {
        if s.inTarget {
          InfoAgreesInBlock(ts, target, n);
        } else {
          InfoAgreesOutside(ts, target, n);
        }
      }
    }
  }

  /** Inside the target's block: a boundary closes it with the block's fields, any other line is read. */
  lemma InfoAgreesInBlock(ts: seq<string>, target: string, n: nat)
    requires 0 < n <= |ts| && InfoAgrees(ts, target, n - 1)
    requires ScanInfo(ts, target, n - 1).done.None? && ScanInfo(ts, target, n - 1).inTarget
    ensures InfoAgrees(ts, target, n)
  {
    var st := FirstTarget(ts, target).value;
    if IsNameLine(ts[n - 1]) {
      assert NextName(ts, n - 1) == n - 1;
    } else {
      assert NextName(ts, n - 1) == NextName(ts, n);
    }
  }

  /** Before the target's block: its boundary opens the block, any other line is passed over. */
  lemma InfoAgreesOutside(ts: seq<string>, target: string, n: nat)
    requires 0 < n <= |ts| && InfoAgrees(ts, target, n - 1)
    requires ScanInfo(ts, target, n - 1).done.None? && !ScanInfo(ts, target, n - 1).inTarget
    ensures InfoAgrees(ts, target, n)
  {
    if IsTargetLine(ts[n - 1], target) {
      assert FirstTargetFrom(ts, target, n - 1) == Some(n - 1);
    } else {
      assert FirstTargetFrom(ts, target, n - 1) == FirstTargetFrom(ts, target, n);
    }
  }

  /** The scan's answer is the declarative one. */
  lemma ScanInfoIsSinkInfo(ts: seq<string>, target: string)
    ensures FinalInfo(ScanInfo(ts, target, |ts|)) == SinkInfoOf(ts, target)
  {
    ScanInfoInvariant(ts, target, |ts|);
    var s := ScanInfo(ts, target, |ts|);
    if s.done.None? && s.inTarget {
      assert NextName(ts, |ts|) == |ts|;
    }
  }

  /** Once fixed, the answer stays. */
  lemma {:induction false} DoneStays(ts: seq<string>, target: string, n: nat, m: nat)
    requires n <= m <= |ts| && ScanInfo(ts, target, n).done.Some?
    ensures ScanInfo(ts, target, m) == ScanInfo(ts, target, n)
  {
    if n < m {
      DoneStays(ts, target, n, m - 1);
    }
  }

  /** The field updates `parse_sink_info` makes for one line inside the target sink's block. */
  method ReadSinkField(trimmed: string, desc: string, state: string, activePort: string, availability: string, inPorts: bool)
    returns (desc': string, state': string, activePort': string, availability': string, inPorts': bool)
    ensures Fields(desc', state', activePort', availability', inPorts')
      == FieldStep(Fields(desc, state, activePort, availability, inPorts), trimmed)
  {
    desc', state', activePort', availability', inPorts' := desc, state, activePort, availability, inPorts;
    if StartsWith(trimmed, "Description:") {
      desc' := Trim(StripPrefix(trimmed, "Description:"));
    } else if StartsWith(trimmed, "State:") {
      state' := Trim(StripPrefix(trimmed, "State:"));
    } else if StartsWith(trimmed, "Active Port:") {
      activePort' := Trim(StripPrefix(trimmed, "Active Port:"));
    } else if StartsWith(trimmed, "Ports:") {
      inPorts' := true;
    } else if inPorts && Contains(trimmed, activePort) {
      if Contains(trimmed, "not available") {
        availability' := "not available";
      } else if Contains(trimmed, "available") {
        availability' := "available";
      }
    }
  }

  /**
   * One line of `parse_sink_info`: a `Name:` line ends the target sink's block (the answer) or
   * starts a new block; inside the target's block any other line updates the fields.
   */
  method ReadInfoLine(ghost lines: seq<string>, ghost i: nat, trimmed: string, target: string,
                      name: string, desc: string, state: string, activePort: string, availability: string,
                      inPorts: bool, inTarget: bool)
    returns (name': string, desc': string, state': string, activePort': string, availability': string,
             inPorts': bool, inTarget': bool, done: Option<SinkInfo>)
    requires i < |lines| && trimmed == Trim(lines[i])
    requires ScanInfo(TrimAll(lines), target, i) == InfoScan(name, Fields(desc, state, activePort, availability, inPorts), inTarget, None)
    ensures ScanInfo(TrimAll(lines), target, i + 1)
      == InfoScan(name', Fields(desc', state', activePort', availability', inPorts'), inTarget', done)
  {
    TrimAllAt(lines, i);
    name', desc', state', activePort', availability', inPorts', inTarget', done :=
      name, desc, state, activePort, availability, inPorts, inTarget, None;
    if StartsWith(trimmed, "Name:") {
      if inTarget {
        done := Some(SinkInfo(name, desc, state, activePort, availability));
        return;
      }
      name' := Trim(StripPrefix(trimmed, "Name:"));
      inTarget' := name' == target;
      desc', state', activePort', availability', inPorts' := "", "", "", "", false;
      if inTarget' {
        NameLineKeepsNoFields(trimmed);
      }
    }

    if !inTarget' {
      return;
    }

    desc', state', activePort', availability', inPorts' :=
      ReadSinkField(trimmed, desc', state', activePort', availability', inPorts');
  }

  /** `parse_sink_info`: one pass over the lines with the source's seven locals. */
  method ParseSinkInfo(output: string, target: string) returns (r: Option<SinkInfo>)
    ensures r == SinkInfoOf(TrimAll(Lines(output)), target)
  {
    var lines := Lines(output);
    ghost var ts := TrimAll(lines);
    var currentName := "";
    var currentDesc := "";
    var currentState := "";
    var currentActivePort := "";
    var currentPortAvailability := "";
    var inTargetSink := false;
    var inPortsSection := false;

    var i := 0;
    while i < |lines|
      invariant 0 <= i <= |lines|
      invariant ScanInfo(ts, target, i)
        == InfoScan(currentName, Fields(currentDesc, currentState, currentActivePort, currentPortAvailability, inPortsSection), inTargetSink, None)
    {
      var trimmed := Trim(lines[i]);
      var done;
      currentName, currentDesc, currentState, currentActivePort, currentPortAvailability, inPortsSection, inTargetSink, done :=
        ReadInfoLine(lines, i, trimmed, target, currentName, currentDesc, currentState, currentActivePort, currentPortAvailability, inPortsSection, inTargetSink);
      if done.Some? {
        DoneStays(ts, target, i + 1, |ts|);
        ScanInfoIsSinkInfo(ts, target);
        return done;
      }
      i := i + 1;
    }

    ScanInfoIsSinkInfo(ts, target);
    if inTargetSink {
      return Some(SinkInfo(currentName, currentDesc, currentState, currentActivePort, currentPortAvailability));
    }
    return None;
  }

  const NO_SERVER: string := "Cannot determine default sink (audio server not responding)"
  const START_SERVER: string := "Ensure PipeWire or PulseAudio is running"
  const NO_DEFAULT: string := "No default sink configured"
  const SET_DEFAULT: string := "Set a default output device in your sound settings"
  const NO_LISTING: string := "Cannot list sinks"
  const CHECK_SERVER: string := "Check audio server status"
  const SELECT_NEW: string := "Your default audio device may have been removed. Select a new output device."
  const SUSPENDED: string := "Default sink is SUSPENDED (no active audio streams)"
  const TRY_PLAYING: string := "This is normal when nothing is playing. Try playing audio."
  const SWITCH_OUTPUT: string := "Switch output to Built-in Audio or connect your HDMI display"

  /** The message for a default sink that the listing does not contain. */
  function NotFoundMessage(defaultSink: string): string {
    "Default sink '" + defaultSink + "' not found in sink list"
  }

  /** The message for a disconnected HDMI output. */
  function HdmiMessage(description: string): string {
    "Default output is HDMI (" + description + ") but appears disconnected"
  }

  /** The message for a usable sink. */
  function OkMessage(description: string): string {
    "Default sink: " + description
  }

  /** The debug text once `pactl get-default-sink` has run. */
  function DefaultSinkEvidence(getDefault: CommandOutput): string {
    "pactl get-default-sink:\n" + Trim(getDefault.stdout) + "\n"
  }

  /** The debug text once `pactl list sinks` has run too: its first 2000 characters. */
  function ListingEvidence(getDefault: CommandOutput, listSinks: CommandOutput): string {
    DefaultSinkEvidence(getDefault) + "pactl list sinks (truncated):\n" + Take(listSinks.stdout, 2000) + "\n"
  }

  /** The sink's name or description mentions HDMI, in any ASCII case. */
  predicate IsHdmi(info: SinkInfo) {
    Contains(ToLower(info.name), "hdmi") || Contains(ToLower(info.description), "hdmi")
  }

  /** The active port is named unavailable, or its port line said "not available". */
  predicate LooksDisconnected(info: SinkInfo) {
    Contains(ToLower(info.activePort), "unavailable") || info.portAvailability == "not available"
  }

  /** The state reads SUSPENDED in any ASCII case. */
  predicate IsSuspended(info: SinkInfo) {
    ToUpper(info.state) == "SUSPENDED"
  }

  /** The verdict on a default sink that the listing contains. */
  function AssessSink(info: SinkInfo): CheckResult {
    if IsSuspended(info) then
      WarningResult(CHECK_NAME, SUSPENDED, TRY_PLAYING)
    else if IsHdmi(info) && LooksDisconnected(info) then
      ErrorResult(CHECK_NAME, HdmiMessage(info.description), SWITCH_OUTPUT)
    else
      OkResult(CHECK_NAME, OkMessage(info.description))
  }

  /** The sink `check_default_sink` finds in a listing, if any. */
  function FoundSink(getDefault: CommandOutput, listSinks: CommandOutput): Option<SinkInfo> {
    SinkInfoOf(TrimAll(Lines(listSinks.stdout)), Trim(getDefault.stdout))
  }

  /** `check_default_sink`, given the outputs of `pactl get-default-sink` and `pactl list sinks`. */
  function CheckDefaultSink(getDefault: CommandOutput, listSinks: CommandOutput): (r: CheckResult)
    ensures r.name == CHECK_NAME
    ensures !getDefault.success || Trim(getDefault.stdout) == [] ==>
      r.status == Error && r.debugInfo == Some(DefaultSinkEvidence(getDefault))
    ensures getDefault.success && Trim(getDefault.stdout) != [] ==>
      r.debugInfo == Some(ListingEvidence(getDefault, listSinks))
  {
    if !getDefault.success then
      WithDebug(ErrorResult(CHECK_NAME, NO_SERVER, START_SERVER), DefaultSinkEvidence(getDefault))
    else
      var defaultSink := Trim(getDefault.stdout);
      if defaultSink == [] then
        WithDebug(ErrorResult(CHECK_NAME, NO_DEFAULT, SET_DEFAULT), DefaultSinkEvidence(getDefault))
      else if !listSinks.success then
        WithDebug(WarningResult(CHECK_NAME, NO_LISTING, CHECK_SERVER), ListingEvidence(getDefault, listSinks))
      else
        match FoundSink(getDefault, listSinks)
        case None =>
          WithDebug(ErrorResult(CHECK_NAME, NotFoundMessage(defaultSink), SELECT_NEW), ListingEvidence(getDefault, listSinks))
        case Some(info) =>
          WithDebug(AssessSink(info), ListingEvidence(getDefault, listSinks))
  }

  /**
   * The check fails exactly when the default sink cannot be read or is empty, or when the
   * listing works and the sink is missing from it, or is an unsuspended HDMI output that
   * looks disconnected.
   */
  lemma DefaultSinkErrorIff(getDefault: CommandOutput, listSinks: CommandOutput)
    ensures CheckDefaultSink(getDefault, listSinks).status == Error <==>
      !getDefault.success || Trim(getDefault.stdout) == []
      || (listSinks.success
          && (FoundSink(getDefault, listSinks).None?
              || (var info := FoundSink(getDefault, listSinks).value;
                  !IsSuspended(info) && IsHdmi(info) && LooksDisconnected(info))))
  {
  }

  /** It warns exactly when the listing fails, or when the found sink is suspended. */
  lemma DefaultSinkWarningIff(getDefault: CommandOutput, listSinks: CommandOutput)
    ensures CheckDefaultSink(getDefault, listSinks).status == Warning <==>
      getDefault.success && Trim(getDefault.stdout) != []
      && (!listSinks.success
          || (FoundSink(getDefault, listSinks).Some? && IsSuspended(FoundSink(getDefault, listSinks).value)))
  {
  }

  /** A suspended sink is reported as suspended even when it is a disconnected HDMI output. */
  lemma SuspendedBeforeHdmi(getDefault: CommandOutput, listSinks: CommandOutput)
    requires getDefault.success && Trim(getDefault.stdout) != [] && listSinks.success
    requires FoundSink(getDefault, listSinks).Some? && IsSuspended(FoundSink(getDefault, listSinks).value)
    ensures var r := CheckDefaultSink(getDefault, listSinks);
      r.status == Warning && r.message == SUSPENDED && r.suggestion == Some(TRY_PLAYING)
  {
  }

  /** A sink that is not HDMI never fails the check once the listing contains it. */
  lemma NonHdmiNeverFails(getDefault: CommandOutput, listSinks: CommandOutput)
    requires getDefault.success && Trim(getDefault.stdout) != [] && listSinks.success
    requires FoundSink(getDefault, listSinks).Some? && !IsHdmi(FoundSink(getDefault, listSinks).value)
    ensures var r := CheckDefaultSink(getDefault, listSinks);
      r.status != Error
      && (r.status == Ok ==> r.message == OkMessage(FoundSink(getDefault, listSinks).value.description))
  {
  }

  /** A missing default sink is an Error whose message names the sink. */
  lemma MissingSinkIsNamed(getDefault: CommandOutput, listSinks: CommandOutput)
    requires getDefault.success && Trim(getDefault.stdout) != [] && listSinks.success
    requires forall k :: 0 <= k < |Lines(listSinks.stdout)| ==>
      !IsTargetLine(TrimAll(Lines(listSinks.stdout))[k], Trim(getDefault.stdout))
    ensures var r := CheckDefaultSink(getDefault, listSinks);
      r.status == Error && Contains(r.message, Trim(getDefault.stdout)) && r.suggestion == Some(SELECT_NEW)
  {
    ContainsInfix("Default sink '", Trim(getDefault.stdout), "' not found in sink list");
  }

  /** The fields read from a block do not depend on the lines around it. */
  lemma {:induction false} BlockFieldsInContext(prefix: seq<string>, block: seq<string>, suffix: seq<string>, n: nat)
    requires n <= |block|
    ensures BlockFields(prefix + block + suffix, |prefix|, |prefix| + n) == BlockFields(block, 0, n)
  {
    if n > 0 {
      var whole := prefix + block + suffix;
      BlockFieldsInContext(prefix, block, suffix, n - 1);
      assert whole[|prefix| + n - 1] == block[n - 1];
      assert BlockFields(whole, |prefix|, |prefix| + n)
        == FieldStep(BlockFields(whole, |prefix|, |prefix| + n - 1), block[n - 1]);
    }
  }

  /**
   * Locality: the sink is read from the block of the first boundary line naming it, up to
   * the next boundary line; what earlier sinks set is forgotten at that boundary, and later
   * sinks are never read.
   */
  lemma SinkInfoAt(ts: seq<string>, target: string, start: nat, end: nat)
    requires start < end <= |ts|
    requires IsTargetLine(ts[start], target)
    requires forall k :: 0 <= k < start ==> !IsTargetLine(ts[k], target)
    requires forall k :: start < k < end ==> !IsNameLine(ts[k])
    requires end < |ts| ==> IsNameLine(ts[end])
    ensures var f := BlockFields(ts, start + 1, end);
      SinkInfoOf(ts, target) == Some(SinkInfo(target, f.description, f.state, f.activePort, f.portAvailability))
  {
    FirstTargetIs(ts, target, start);
    NextNameIs(ts, start + 1, end);
  }

  /**
   * Port lines are matched against the active port known so far; while no "Active Port:"
   * line has been read, the empty name matches every port line.
   */
  lemma EmptyActivePortMatchesAnyPortLine(f: Fields, t: string)
    requires f.inPorts && f.activePort == []
    requires !StartsWith(t, "Description:") && !StartsWith(t, "State:")
    requires !StartsWith(t, "Active Port:") && !StartsWith(t, "Ports:")
    requires Contains(t, "not available")
    ensures FieldStep(f, t).portAvailability == "not available"
  {
    assert OccursAt(t, f.activePort, 0);
  }
}

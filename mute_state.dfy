/**
 * Check 4, mute state (src/checks/mute_state.rs): is the default sink muted, or its
 * volume nearly zero? Both are read from the default sink's block of `pactl list sinks`.
 */
module MuteState {
  import opened Options
  import opened Text
  import opened Types
  import opened Runner
  import opened Listing

  const CHECK_NAME: string := "mute_state"

  const MUTE_KEY: string := "Mute:"
  const VOLUME_KEY: string := "Volume:"

  /** A "Mute:" line says yes, in any ASCII case, once its value is trimmed. */
  predicate SaysYes(t: string)
    requires StartsWith(t, MUTE_KEY)
  {
    EqIgnoreAsciiCase(Trim(t[|MUTE_KEY|..]), "yes")
  }

  /**
   * `rfind(|c| !c.is_ascii_digit()).map(|i| i + 1).unwrap_or(0)` on `s[..j]`: where the run of
   * digits that ends at `j` begins (characterised by `DigitRunStartSpec`).
   */
  function DigitRunStart(s: string, j: nat): (i: nat)
    requires j <= |s|
    ensures i <= j
  {
    if j == 0 || !IsDigit(s[j - 1]) then j else DigitRunStart(s, j - 1)
  }

  /** The run `s[DigitRunStart(s, j)..j]` is all digits and cannot be extended to the left. */
  lemma {:induction false} DigitRunStartSpec(s: string, j: nat)
    requires j <= |s|
    ensures forall k :: DigitRunStart(s, j) <= k < j ==> IsDigit(s[k])
    ensures DigitRunStart(s, j) > 0 ==> !IsDigit(s[DigitRunStart(s, j) - 1])
  {
    if j > 0 && IsDigit(s[j - 1]) {
      DigitRunStartSpec(s, j - 1);
    }
  }

  /** The digit run ending at `n` is found alike in `s` and in any prefix `s[..j]` holding it. */
  lemma {:induction false} DigitRunStartPrefix(s: string, j: nat, n: nat)
    requires n <= j <= |s|
    ensures DigitRunStart(s[..j], n) == DigitRunStart(s, n)
  {
    if n > 0 {
      assert s[..j][n - 1] == s[n - 1];
      DigitRunStartPrefix(s, j, n - 1);
    }
  }

  /** A run of digits from `i` to `j` preceded by a non-digit (or the start) is the run found. */
  lemma {:induction false} DigitRunStartIs(s: string, j: nat, i: nat)
    requires i <= j <= |s|
    requires forall k :: i <= k < j ==> IsDigit(s[k])
    requires i == 0 || !IsDigit(s[i - 1])
    ensures DigitRunStart(s, j) == i
  {
    if i < j {
      DigitRunStartIs(s, j - 1, i);
    }
  }

  /** The index of the first '%' at or after `i`, or `|t|` when there is none. */
  function PercentFrom(t: string, i: nat): (p: nat)
    requires i <= |t|
    ensures i <= p <= |t|
    decreases |t| - i
  {
    if i == |t| || t[i] == '%' then i else PercentFrom(t, i + 1)
  }

  /** `PercentFrom(t, 0)` is what `str::find('%')` reports. */
  lemma {:induction false} PercentFromIsFind(t: string, i: nat)
    requires i <= |t|
    requires '%' !in t[..i]
    ensures PercentFrom(t, i) < |t| <==> Find(t, '%').Some?
    ensures PercentFrom(t, i) < |t| ==> Find(t, '%') == Some(PercentFrom(t, i))
    decreases |t| - i
  {
    if i < |t| && t[i] != '%' {
      assert t[..i + 1] == t[..i] + [t[i]];
      PercentFromIsFind(t, i + 1);
    } else if i == |t| {
      assert t[..i] == t;
    }
  }

  /** The first '%' from `i` on is at `p`. */
  lemma {:induction false} PercentFromIs(t: string, i: nat, p: nat)
    requires i <= p < |t| && t[p] == '%'
    requires forall k :: i <= k < p ==> t[k] != '%'
    ensures PercentFrom(t, i) == p
    decreases p - i
  {
    if i < p {
      PercentFromIs(t, i + 1, p);
    }
  }

  /**
   * The percentage on a "Volume:" line: the digits right before the first '%', read as a
   * `u32`; `None` when there is no '%', no digit before it, or the number does not fit.
   */
  function VolumeOf(t: string): (r: Option<nat>) {
    var p := PercentFrom(t, 0);
    if p == |t| then None else ParseU32(t[DigitRunStart(t, p)..p])
  }

  /** What one trimmed line of the listing means to `parse_mute_and_volume`. */
  datatype LineKind =
    | NameLine(isTarget: bool)
    | MuteLine(yes: bool)
    | VolumeLine(percent: Option<nat>)
    | OtherLine

  /** Classifies a trimmed line: a sink boundary (naming the target or not), a mute flag, a volume, or anything else. */
  function Classify(t: string, target: string): LineKind {
    if IsNameLine(t) then NameLine(IsTargetLine(t, target))
    else if StartsWith(t, MUTE_KEY) then MuteLine(SaysYes(t))
    else if StartsWith(t, VOLUME_KEY) then VolumeLine(VolumeOf(t))
    else OtherLine
  }

  /**
   * The three keys exclude each other, so the classification loses nothing: a line is a
   * boundary, mute or volume line exactly when it starts with that key.
   */
  lemma ClassifyByKey(t: string, target: string)
    ensures Classify(t, target).NameLine? <==> IsNameLine(t)
    ensures Classify(t, target) == NameLine(true) <==> IsTargetLine(t, target)
    ensures Classify(t, target).MuteLine? <==> StartsWith(t, MUTE_KEY)
    ensures Classify(t, target).MuteLine? ==> Classify(t, target).yes == SaysYes(t)
    ensures Classify(t, target).VolumeLine? <==> StartsWith(t, VOLUME_KEY)
    ensures Classify(t, target).VolumeLine? ==> Classify(t, target).percent == VolumeOf(t)
  {
    if StartsWith(t, MUTE_KEY) || StartsWith(t, VOLUME_KEY) {
      assert t[0] != NAME_KEY[0];
    }
    if StartsWith(t, VOLUME_KEY) {
      assert t[0] != MUTE_KEY[0];
    }
  }

  /** The classification of every trimmed line. */
  function Kinds(ts: seq<string>, target: string): (r: seq<LineKind>)
    ensures |r| == |ts|
  {
    if ts == [] then [] else [Classify(ts[0], target)] + Kinds(ts[1..], target)
  }

  lemma {:induction false} KindsAt(ts: seq<string>, target: string, k: nat)
    requires k < |ts|
    ensures Kinds(ts, target)[k] == Classify(ts[k], target)
  {
    if k > 0 {
      KindsAt(ts[1..], target, k - 1);
    }
  }

  /** What the scan of `parse_mute_and_volume` has learned so far. */
  datatype MuteScan = MuteScan(inTarget: bool, muted: Option<bool>, volume: Option<nat>)

  const START: MuteScan := MuteScan(false, None, None)

  /** Both values are known: the scan stops. */
  predicate Done(s: MuteScan) {
    s.muted.Some? && s.volume.Some?
  }

  /**
   * One line: a boundary decides whether the target's block starts; outside it nothing
   * else changes; inside it a mute line sets the flag, and the first volume line whose
   * percentage parses sets the volume.
   */
  function MuteStep(s: MuteScan, kind: LineKind): MuteScan {
    var inTarget := if kind.NameLine? then kind.isTarget else s.inTarget;
    if !inTarget then s.(inTarget := false)
    else
      MuteScan(
        true,
        if kind.MuteLine? then Some(kind.yes) else s.muted,
        if kind.VolumeLine? && s.volume.None? && kind.percent.Some? then kind.percent else s.volume)
  }

  /** The scan over the first `n` lines, which stops early once `Done`. */
  function ScanUpTo(ks: seq<LineKind>, n: nat): MuteScan
    requires n <= |ks|
  {
    if n == 0 then START
    else
      var s := ScanUpTo(ks, n - 1);
      if Done(s) then s else MuteStep(s, ks[n - 1])
  }

  /** The result of `parse_mute_and_volume` on the trimmed lines of a listing. */
  function MuteAndVolume(ts: seq<string>, target: string): MuteScan {
    ScanUpTo(Kinds(ts, target), |ts|)
  }

  /** The scan stops: once both values are known, later lines change nothing. */
  lemma {:induction false} DoneIsFinal(ks: seq<LineKind>, m: nat, n: nat)
    requires m <= n <= |ks|
    requires Done(ScanUpTo(ks, m))
    ensures ScanUpTo(ks, n) == ScanUpTo(ks, m)
    decreases n
  {
    if m < n {
      DoneIsFinal(ks, m, n - 1);
    }
  }

  /** The percentage of one "Volume:" line, computed as `parse_mute_and_volume` does. */
  method ReadPercent(trimmed: string) returns (parsed: Option<nat>)
    ensures parsed == VolumeOf(trimmed)
  {
    PercentFromIsFind(trimmed, 0);
    parsed := None;
    var percentPos := Find(trimmed, '%');
    if percentPos.Some? {
      var beforePercent := trimmed[..percentPos.value];
      var numStart := DigitRunStart(beforePercent, |beforePercent|);
      DigitRunStartPrefix(trimmed, percentPos.value, percentPos.value);
      assert beforePercent[numStart..] == trimmed[numStart..percentPos.value];
      parsed := ParseU32(beforePercent[numStart..]);
    }
  }

  /**
   * One line of `parse_mute_and_volume`: a `Name:` line decides whether the target sink's
   * block starts; inside it a `Mute:` line sets the flag and the first parsable `Volume:`
   * line the volume.
   */
  method ReadMuteLine(ghost lines: seq<string>, ghost i: nat, trimmed: string, target: string,
                      inTarget: bool, muted: Option<bool>, volume: Option<nat>)
    returns (inTarget': bool, muted': Option<bool>, volume': Option<nat>)
    requires i < |lines| && trimmed == Trim(lines[i])
    requires ScanUpTo(Kinds(TrimAll(lines), target), i) == MuteScan(inTarget, muted, volume)
    requires !Done(MuteScan(inTarget, muted, volume))
    ensures ScanUpTo(Kinds(TrimAll(lines), target), i + 1) == MuteScan(inTarget', muted', volume')
  {
    TrimAllAt(lines, i);
    KindsAt(TrimAll(lines), target, i);
    ClassifyByKey(trimmed, target);
    inTarget', muted', volume' := inTarget, muted, volume;

    if StartsWith(trimmed, "Name:") {
      var name := Trim(StripPrefix(trimmed, "Name:"));
      inTarget' := name == target;
      if !inTarget' {
        return;
      }
    }

    if !inTarget' {
      return;
    }

    if StartsWith(trimmed, "Mute:") {
      var muteValue := Trim(StripPrefix(trimmed, "Mute:"));
      muted' := Some(EqIgnoreAsciiCase(muteValue, "yes"));
    }

    if StartsWith(trimmed, "Volume:") && volume'.None? {
      var parsed := ReadPercent(trimmed);
      if parsed.Some? {
        volume' := parsed;
      }
    }
  }

  /** `parse_mute_and_volume`: one pass over the lines, stopping once both values are known. */
  method ParseMuteAndVolume(output: string, target: string) returns (muted: Option<bool>, volume: Option<nat>)
    ensures muted == MuteAndVolume(TrimAll(Lines(output)), target).muted
    ensures volume == MuteAndVolume(TrimAll(Lines(output)), target).volume
  {
    var lines := Lines(output);
    ghost var ks := Kinds(TrimAll(lines), target);
    var inTargetSink := false;
    muted := None;
    volume := None;

    var i := 0;
    while i < |lines|
      invariant 0 <= i <= |lines|
      invariant MuteScan(inTargetSink, muted, volume) == ScanUpTo(ks, i)
      invariant !Done(ScanUpTo(ks, i))
    {
      var trimmed := Trim(lines[i]);
      inTargetSink, muted, volume := ReadMuteLine(lines, i, trimmed, target, inTargetSink, muted, volume);
      if muted.Some? && volume.Some? {
        DoneIsFinal(ks, i + 1, |ks|);
        break;
      }
      i := i + 1;
    }
  }

  /** Whether the line before `n` is read: the last boundary up to it names the target. */
  predicate InTargetAfter(ks: seq<LineKind>, n: nat)
    requires n <= |ks|
  {
    if n == 0 then false
    else if ks[n - 1].NameLine? then ks[n - 1].isTarget
    else InTargetAfter(ks, n - 1)
  }

  /** Line k lies in a block of the target sink (its boundary line included). */
  predicate InTargetBlock(ks: seq<LineKind>, k: nat)
    requires k < |ks|
  {
    InTargetAfter(ks, k + 1)
  }

  /** A line is in a target block exactly when a target boundary precedes it with no other boundary between. */
  lemma {:induction false} InTargetBlockIff(ks: seq<LineKind>, k: nat)
    requires k < |ks|
    ensures InTargetBlock(ks, k) <==>
      exists j :: 0 <= j <= k && ks[j] == NameLine(true) && forall m :: j < m <= k ==> !ks[m].NameLine?
  {
    if ks[k].NameLine? {
      if !ks[k].isTarget {
        forall j | 0 <= j < k && ks[j] == NameLine(true)
          ensures exists m :: j < m <= k && ks[m].NameLine?
        {
          assert ks[k].NameLine?;
        }
      }
    } else if k > 0 {
      InTargetBlockIff(ks, k - 1);
      if InTargetBlock(ks, k) {
        var j :| 0 <= j <= k - 1 && ks[j] == NameLine(true) && forall m :: j < m <= k - 1 ==> !ks[m].NameLine?;
        assert forall m :: j < m <= k ==> !ks[m].NameLine?;
      } else {
        forall j | 0 <= j <= k && ks[j] == NameLine(true)
          ensures exists m :: j < m <= k && ks[m].NameLine?
        {
          assert j != k;
        }
      }
    } else {
      assert InTargetBlock(ks, 0) == InTargetAfter(ks, 0) == false;
      assert ks[0] != NameLine(true);
    }
  }

  /** Line k is a "Mute:" line of the target's block. */
  predicate IsMuteReading(ks: seq<LineKind>, k: nat)
    requires k < |ks|
  {
    InTargetBlock(ks, k) && ks[k].MuteLine?
  }

  /** Line k is a "Volume:" line of the target's block with a readable percentage. */
  predicate IsVolumeReading(ks: seq<LineKind>, k: nat)
    requires k < |ks|
  {
    InTargetBlock(ks, k) && ks[k].VolumeLine? && ks[k].percent.Some?
  }

  /** The index of the first volume reading among the first `n` lines. */
  function FirstVolumeReading(ks: seq<LineKind>, n: nat): (r: Option<nat>)
    requires n <= |ks|
    ensures r.None? <==> forall k :: 0 <= k < n ==> !IsVolumeReading(ks, k)
    ensures r.Some? ==>
      r.value < n && IsVolumeReading(ks, r.value)
      && forall k :: 0 <= k < r.value ==> !IsVolumeReading(ks, k)
  {
    if n == 0 then None
    else
      var r := FirstVolumeReading(ks, n - 1);
      if r.Some? then r
      else if IsVolumeReading(ks, n - 1) then Some(n - 1)
      else None
  }

  /**
   * Until the scan stops its flag agrees with `InTargetAfter`, and its volume is always that
   * of the first volume reading: once set, the volume is never overwritten.
   */
  lemma {:induction false} ScanTracksTarget(ks: seq<LineKind>, n: nat)
    requires n <= |ks|
    ensures Done(ScanUpTo(ks, n)) || ScanUpTo(ks, n).inTarget == InTargetAfter(ks, n)
    ensures ScanUpTo(ks, n).volume ==
      match FirstVolumeReading(ks, n)
      case None => None
      case Some(k) => ks[k].percent
  {
    if n > 0 {
      ScanTracksTarget(ks, n - 1);
    }
  }

  /** The volume reported is the percentage of the first readable "Volume:" line of the target's block. */
  lemma VolumeIsFirstReading(ts: seq<string>, target: string)
    ensures var ks := Kinds(ts, target);
      (MuteAndVolume(ts, target).volume.None? <==> forall k :: 0 <= k < |ks| ==> !IsVolumeReading(ks, k))
      && (MuteAndVolume(ts, target).volume.Some? ==>
            exists k :: 0 <= k < |ts| && IsVolumeReading(ks, k)
              && MuteAndVolume(ts, target).volume == VolumeOf(ts[k])
              && forall j :: 0 <= j < k ==> !IsVolumeReading(ks, j))
  {
    var ks := Kinds(ts, target);
    ScanTracksTarget(ks, |ks|);
    var r := FirstVolumeReading(ks, |ks|);
    if r.Some? {
      KindsAt(ts, target, r.value);
      ClassifyByKey(ts[r.value], target);
    }
  }

  /**
   * The mute flag is unknown exactly when the target's blocks (up to line n) hold no "Mute:"
   * line; when known, it is what one of those lines says.
   */
  lemma {:induction false} MutedFromTargetBlock(ks: seq<LineKind>, n: nat)
    requires n <= |ks|
    ensures ScanUpTo(ks, n).muted.None? <==> forall k :: 0 <= k < n ==> !IsMuteReading(ks, k)
    ensures ScanUpTo(ks, n).muted.Some? ==>
      exists k :: 0 <= k < n && IsMuteReading(ks, k) && ScanUpTo(ks, n).muted == Some(ks[k].yes)
  {
    if n > 0 {
      MutedFromTargetBlock(ks, n - 1);
      ScanTracksTarget(ks, n - 1);
      if !Done(ScanUpTo(ks, n - 1)) && IsMuteReading(ks, n - 1) {
        assert ScanUpTo(ks, n).muted == Some(ks[n - 1].yes);
      }
    }
  }

  /** The mute flag of the whole listing comes from a "Mute:" line of the target's block. */
  lemma MutedIsTargetReading(ts: seq<string>, target: string)
    ensures var ks := Kinds(ts, target);
      (MuteAndVolume(ts, target).muted.None? <==> forall k :: 0 <= k < |ks| ==> !IsMuteReading(ks, k))
      && (MuteAndVolume(ts, target).muted.Some? ==>
            exists k :: 0 <= k < |ts| && IsMuteReading(ks, k)
              && StartsWith(ts[k], MUTE_KEY) && MuteAndVolume(ts, target).muted == Some(SaysYes(ts[k])))
  {
    var ks := Kinds(ts, target);
    MutedFromTargetBlock(ks, |ks|);
    if MuteAndVolume(ts, target).muted.Some? {
      var k :| 0 <= k < |ks| && IsMuteReading(ks, k) && ScanUpTo(ks, |ks|).muted == Some(ks[k].yes);
      KindsAt(ts, target, k);
      ClassifyByKey(ts[k], target);
    }
  }

  /**
   * A line outside the target's blocks that is not a boundary never affects the result:
   * replacing it by any other such line leaves the scan unchanged.
   */
  lemma {:induction false} OutsideLineIgnored(ks: seq<LineKind>, ks': seq<LineKind>, k: nat, n: nat)
    requires |ks| == |ks'| && k < |ks| && n <= |ks|
    requires forall j :: 0 <= j < |ks| && j != k ==> ks[j] == ks'[j]
    requires !ks[k].NameLine? && !ks'[k].NameLine?
    requires !InTargetAfter(ks, k)
    ensures ScanUpTo(ks, n) == ScanUpTo(ks', n)
  {
    if n > 0 {
      OutsideLineIgnored(ks, ks', k, n - 1);
      if n - 1 == k {
        ScanTracksTarget(ks, k);
      }
    }
  }

  /** The same for the listing's lines: a non-boundary line outside the target's blocks can be anything. */
  lemma OutsideTextIgnored(ts: seq<string>, ts': seq<string>, target: string, k: nat)
    requires |ts| == |ts'| && k < |ts|
    requires forall j :: 0 <= j < |ts| && j != k ==> ts[j] == ts'[j]
    requires !IsNameLine(ts[k]) && !IsNameLine(ts'[k])
    requires !InTargetAfter(Kinds(ts, target), k)
    ensures MuteAndVolume(ts, target) == MuteAndVolume(ts', target)
  {
    var ks, ks' := Kinds(ts, target), Kinds(ts', target);
    forall j | 0 <= j < |ks| && j != k ensures ks[j] == ks'[j] {
      KindsAt(ts, target, j);
      KindsAt(ts', target, j);
    }
    KindsAt(ts, target, k);
    KindsAt(ts', target, k);
    ClassifyByKey(ts[k], target);
    ClassifyByKey(ts'[k], target);
    OutsideLineIgnored(ks, ks', k, |ks|);
  }

  /**
   * A "Volume:" line in pactl's format yields its percentage: the number right before the
   * first '%', when the text before it does not end in a digit.
   */
  lemma VolumeOfRoundTrip(prefix: string, v: nat, suffix: string)
    requires '%' !in prefix
    requires prefix == [] || !IsDigit(prefix[|prefix| - 1])
    requires v < U32_LIMIT
    ensures VolumeOf(prefix + NatToString(v) + "%" + suffix) == Some(v)
  {
    NatToStringRoundTrip(v);
    VolumeOfDigits(prefix, NatToString(v), suffix);
  }

  /** A run of digits right before the first '%', after a text not ending in a digit, is read back. */
  lemma VolumeOfDigits(prefix: string, digits: string, suffix: string)
    requires '%' !in prefix
    requires prefix == [] || !IsDigit(prefix[|prefix| - 1])
    requires digits != [] && AllDigits(digits) && DigitsValue(digits) < U32_LIMIT
    ensures VolumeOf(prefix + digits + "%" + suffix) == Some(DigitsValue(digits))
  {
    VolumeIsDigitsParsed(prefix, digits, suffix);
    ParseU32Digits(digits);
  }

  /** The volume of such a line is its digit run, parsed. */
  lemma VolumeIsDigitsParsed(prefix: string, digits: string, suffix: string)
    requires '%' !in prefix
    requires prefix == [] || !IsDigit(prefix[|prefix| - 1])
    requires AllDigits(digits)
    ensures VolumeOf(prefix + digits + "%" + suffix) == ParseU32(digits)
  {
    var t := prefix + digits + "%" + suffix;
    var p := |prefix| + |digits|;
    assert VolumeOf(t) == ParseU32(t[|prefix|..p]) by {
      PercentAfterDigits(prefix, digits, suffix);
      DigitRunAfterPrefix(prefix, digits, suffix);
      VolumeOfAt(t, |prefix|, p);
    }
    DigitsInPlace(prefix, digits, suffix);
  }

  lemma DigitsInPlace(prefix: string, digits: string, suffix: string)
    ensures (prefix + digits + "%" + suffix)[|prefix|..|prefix| + |digits|] == digits
  {
  }

  /** With the first '%' at `p` and the digit run before it starting at `a`, the volume is `t[a..p]` parsed. */
  lemma VolumeOfAt(t: string, a: nat, p: nat)
    requires p < |t| && PercentFrom(t, 0) == p && DigitRunStart(t, p) == a
    ensures VolumeOf(t) == ParseU32(t[a..p])
  {
  }

  /** The first '%' after a '%'-free text and a run of digits is the one that follows them. */
  lemma PercentAfterDigits(prefix: string, digits: string, suffix: string)
    requires '%' !in prefix && AllDigits(digits)
    ensures PercentFrom(prefix + digits + "%" + suffix, 0) == |prefix| + |digits|
  {
    var t := prefix + digits + "%" + suffix;
    var p := |prefix| + |digits|;
    assert t[p] == '%';
    forall k | 0 <= k < p ensures t[k] != '%' {
      if k < |prefix| {
        assert t[k] == prefix[k];
      } else {
        assert t[k] == digits[k - |prefix|];
      }
    }
    PercentFromIs(t, 0, p);
  }

  /** The digit run before that '%' is exactly the digits when the text before them does not end in a digit. */
  lemma DigitRunAfterPrefix(prefix: string, digits: string, suffix: string)
    requires prefix == [] || !IsDigit(prefix[|prefix| - 1])
    requires AllDigits(digits)
    ensures DigitRunStart(prefix + digits + "%" + suffix, |prefix| + |digits|) == |prefix|
  {
    var t := prefix + digits + "%" + suffix;
    var p := |prefix| + |digits|;
    forall k | |prefix| <= k < p ensures IsDigit(t[k]) {
      assert t[k] == digits[k - |prefix|];
    }
    if |prefix| > 0 {
      assert t[|prefix| - 1] == prefix[|prefix| - 1];
    }
    DigitRunStartIs(t, p, |prefix|);
  }

  const NO_DEFAULT: string := "Cannot check mute state (no default sink)"
  const SET_DEFAULT: string := "Set a default output device first"
  const NO_LISTING: string := "Cannot check mute state"
  const START_SERVER: string := "Ensure audio server is running"
  const MUTED: string := "Output is muted"
  const UNMUTE: string := "Unmute in sound settings or press the mute key"
  const RAISE_VOLUME: string := "Increase volume in sound settings"
  const NOT_MUTED: string := "Output is not muted"
  const UNKNOWN: string := "Could not determine mute state"
  const CHECK_MANUALLY: string := "Check sound settings manually"

  /** Volumes below this percentage are reported as very low. */
  const LOW_VOLUME: nat := 5

  function LowVolumeMessage(v: nat): string {
    "Volume is very low (" + NatToString(v) + "%)"
  }

  function VolumeMessage(v: nat): string {
    "Output is not muted (volume: " + NatToString(v) + "%)"
  }

  /** The evidence: every untrimmed listing line mentioning "Name:", "Mute:" or "Volume:". */
  function MuteEvidence(listSinks: CommandOutput): string {
    "pactl list sinks (mute info):\n"
      + Join(LinesContainingAny(Lines(listSinks.stdout), ["Name:", "Mute:", "Volume:"]), "\n") + "\n"
  }

  /** The verdict on what the scan found. */
  function AssessMute(muted: Option<bool>, volume: Option<nat>): CheckResult {
    match muted
    case Some(true) => ErrorResult(CHECK_NAME, MUTED, UNMUTE)
    case Some(false) =>
      (match volume
       case Some(v) =>
         if v < LOW_VOLUME then WarningResult(CHECK_NAME, LowVolumeMessage(v), RAISE_VOLUME)
         else OkResult(CHECK_NAME, VolumeMessage(v))
       case None => OkResult(CHECK_NAME, NOT_MUTED))
    case None => WarningResult(CHECK_NAME, UNKNOWN, CHECK_MANUALLY)
  }

  /** What `check_mute_state` learns from the listing about the default sink. */
  function Scanned(getDefault: CommandOutput, listSinks: CommandOutput): MuteScan {
    MuteAndVolume(TrimAll(Lines(listSinks.stdout)), Trim(getDefault.stdout))
  }

  /**
   * `check_mute_state`, given the outputs of `pactl get-default-sink` and `pactl list sinks`.
   * Whether the first command succeeded is not consulted, only its trimmed output.
   */
  function CheckMuteState(getDefault: CommandOutput, listSinks: CommandOutput): (r: CheckResult)
    ensures r.name == CHECK_NAME
    ensures Trim(getDefault.stdout) == [] ==> r.status == Warning && r.debugInfo == None
    ensures Trim(getDefault.stdout) != [] ==> r.debugInfo == Some(MuteEvidence(listSinks))
  {
    if Trim(getDefault.stdout) == [] then
      WarningResult(CHECK_NAME, NO_DEFAULT, SET_DEFAULT)
    else if !listSinks.success then
      WithDebug(WarningResult(CHECK_NAME, NO_LISTING, START_SERVER), MuteEvidence(listSinks))
    else
      var s := Scanned(getDefault, listSinks);
      WithDebug(AssessMute(s.muted, s.volume), MuteEvidence(listSinks))
  }

  /** Without a default sink the listing is not looked at. */
  lemma NoDefaultSinkIgnoresListing(getDefault: CommandOutput, listSinks: CommandOutput, other: CommandOutput)
    requires Trim(getDefault.stdout) == []
    ensures CheckMuteState(getDefault, listSinks) == CheckMuteState(getDefault, other)
    ensures CheckMuteState(getDefault, listSinks).message == NO_DEFAULT
  {
  }

  /** The check fails exactly when the listing says the default sink is muted, whatever the volume. */
  lemma MuteErrorIff(getDefault: CommandOutput, listSinks: CommandOutput)
    ensures CheckMuteState(getDefault, listSinks).status == Error <==>
      Trim(getDefault.stdout) != [] && listSinks.success && Scanned(getDefault, listSinks).muted == Some(true)
  {
  }

  /**
   * It warns exactly when there is no default sink, the listing fails, the mute state is
   * unknown, or the sink is unmuted at a volume below 5%.
   */
  lemma MuteWarningIff(getDefault: CommandOutput, listSinks: CommandOutput)
    ensures var s := Scanned(getDefault, listSinks);
      CheckMuteState(getDefault, listSinks).status == Warning <==>
        Trim(getDefault.stdout) == [] || !listSinks.success || s.muted.None?
        || (s.muted == Some(false) && s.volume.Some? && s.volume.value < LOW_VOLUME)
  {
  }

  /** A passing check reports the volume when known, and the volume is then at least 5%. */
  lemma MuteOkMessage(getDefault: CommandOutput, listSinks: CommandOutput)
    requires CheckMuteState(getDefault, listSinks).status == Ok
    ensures var s := Scanned(getDefault, listSinks);
      s.muted == Some(false)
      && (s.volume.None? ==> CheckMuteState(getDefault, listSinks).message == NOT_MUTED)
      && (s.volume.Some? ==>
            s.volume.value >= LOW_VOLUME
            && CheckMuteState(getDefault, listSinks).message == VolumeMessage(s.volume.value))
  {
  }

  /** A low-volume warning names the percentage it read. */
  lemma LowVolumeIsNamed(getDefault: CommandOutput, listSinks: CommandOutput)
    requires Trim(getDefault.stdout) != [] && listSinks.success
    requires Scanned(getDefault, listSinks).muted == Some(false)
    requires Scanned(getDefault, listSinks).volume.Some?
    requires Scanned(getDefault, listSinks).volume.value < LOW_VOLUME
    ensures var r := CheckMuteState(getDefault, listSinks);
      r.status == Warning && Contains(r.message, NatToString(Scanned(getDefault, listSinks).volume.value) + "%")
      && r.suggestion == Some(RAISE_VOLUME)
  {
    var v := Scanned(getDefault, listSinks).volume.value;
    ContainsInfix("Volume is very low (", NatToString(v) + "%", ")");
    assert LowVolumeMessage(v) == "Volume is very low (" + (NatToString(v) + "%") + ")";
  }
}

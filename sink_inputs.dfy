/**
 * Check 5, misrouted streams (src/checks/sink_inputs.rs): is any playing stream bound to a
 * sink other than the default one? Streams come from `pactl list sink-inputs`, sink names
 * from `pactl list sinks`.
 */
module SinkInputs {
  import opened Options
  import opened Text
  import opened Types
  import opened Runner
  import opened Listing

  const CHECK_NAME: string := "sink_inputs"

  /** One playing stream: the application behind it and the index of the sink it plays to. */
  datatype SinkInput = SinkInput(appName: string, sinkIndex: nat)

  // ---------------------------------------------------------------------------------------
  // Streams: `pactl list sink-inputs`

  const SINK_KEY: string := "Sink:"
  const APP_KEY: string := "application.name = "
  const MEDIA_KEY: string := "media.name = "

  /** What one trimmed line of the stream listing means to `parse_sink_inputs`. */
  datatype StreamLine =
    | SinkLine(index: Option<nat>)
    | AppNameLine(appValue: string)
    | MediaNameLine(mediaValue: string)
    | OtherStreamLine

  /**
   * A "Sink:" line opens a stream record (its trimmed remainder read as a `u32`); the
   * property lines carry a value with surrounding double quotes stripped.
   */
  function ClassifyStream(t: string): StreamLine {
    if StartsWith(t, SINK_KEY) then SinkLine(ParseU32(Trim(t[|SINK_KEY|..])))
    else if StartsWith(t, APP_KEY) then AppNameLine(TrimMatches(t[|APP_KEY|..], '"'))
    else if StartsWith(t, MEDIA_KEY) then MediaNameLine(TrimMatches(t[|MEDIA_KEY|..], '"'))
    else OtherStreamLine
  }

  /** The three keys exclude each other: each kind is exactly the lines starting with its key. */
  lemma ClassifyStreamByKey(t: string)
    ensures ClassifyStream(t).SinkLine? <==> StartsWith(t, SINK_KEY)
    ensures ClassifyStream(t).AppNameLine? <==> StartsWith(t, APP_KEY)
    ensures ClassifyStream(t).MediaNameLine? <==> StartsWith(t, MEDIA_KEY)
  {
    if StartsWith(t, APP_KEY) || StartsWith(t, MEDIA_KEY) {
      assert t[0] != SINK_KEY[0];
    }
    if StartsWith(t, MEDIA_KEY) {
      assert t[0] != APP_KEY[0];
    }
  }

  /** A property line written as `application.name = "v"` carries exactly `v`. */
  lemma QuotedAppName(v: string)
    requires v == [] || (v[0] != '"' && v[|v| - 1] != '"')
    ensures ClassifyStream(APP_KEY + (['"'] + v + ['"'])) == AppNameLine(v)
  {
    var quoted := ['"'] + v + ['"'];
    var t := APP_KEY + quoted;
    StartsWithConcat(APP_KEY, quoted);
    assert t[0] != SINK_KEY[0];
    assert t[|APP_KEY|..] == quoted;
    TrimMatchesQuoted(v, '"');
  }

  /** The classification of every trimmed line of the stream listing. */
  function StreamKinds(ts: seq<string>): (r: seq<StreamLine>)
    ensures |r| == |ts|
  {
    if ts == [] then [] else [ClassifyStream(ts[0])] + StreamKinds(ts[1..])
  }

  lemma {:induction false} StreamKindsAt(ts: seq<string>, k: nat)
    requires k < |ts|
    ensures StreamKinds(ts)[k] == ClassifyStream(ts[k])
  {
    if k > 0 {
      StreamKindsAt(ts[1..], k - 1);
    }
  }

  /** The first "Sink:" line at or after `from`, or the end: where a stream record ends. */
  function NextSink(ks: seq<StreamLine>, from: nat): (j: nat)
    requires from <= |ks|
    ensures from <= j <= |ks|
    ensures forall k :: from <= k < j ==> !ks[k].SinkLine?
    ensures j < |ks| ==> ks[j].SinkLine?
    decreases |ks| - from
  {
    if from == |ks| || ks[from].SinkLine? then from else NextSink(ks, from + 1)
  }

  /**
   * The application name after one more line of a record: "application.name" always
   * replaces it, "media.name" only fills it while it is still empty.
   */
  function NameStep(name: string, kind: StreamLine): string {
    match kind
    case AppNameLine(v) => v
    case MediaNameLine(v) => if name == [] then v else name
    case _ => name
  }

  /** The name gathered from the lines `from` to `to` of a record. */
  function BlockName(ks: seq<StreamLine>, from: nat, to: nat): string
    requires from <= to <= |ks|
  {
    if to == from then [] else NameStep(BlockName(ks, from, to - 1), ks[to - 1])
  }

  /** A record without a name is reported as "Unknown". */
  function NameOrUnknown(name: string): (r: string)
    ensures r != []
    ensures name != [] ==> r == name
  {
    if name == [] then "Unknown" else name
  }

  /** The stream opened by the "Sink:" line at `k`, named from the lines up to the next one. */
  function RecordAt(ks: seq<StreamLine>, k: nat): SinkInput
    requires k < |ks| && ks[k].SinkLine? && ks[k].index.Some?
  {
    SinkInput(NameOrUnknown(BlockName(ks, k + 1, NextSink(ks, k + 1))), ks[k].index.value)
  }

  /** One record per "Sink:" line from `from` on whose index parses, in order. */
  function InputsFrom(ks: seq<StreamLine>, from: nat): (r: seq<SinkInput>)
    requires from <= |ks|
    ensures |r| <= |ks| - from
    decreases |ks| - from
  {
    if from == |ks| then []
    else if ks[from].SinkLine? && ks[from].index.Some? then [RecordAt(ks, from)] + InputsFrom(ks, from + 1)
    else InputsFrom(ks, from + 1)
  }

  /** The streams `parse_sink_inputs` reads from the trimmed lines of a listing. */
  function Inputs(ts: seq<string>): seq<SinkInput> {
    InputsFrom(StreamKinds(ts), 0)
  }

  /** Lines that open no record can be skipped. */
  lemma {:induction false} InputsSkip(ks: seq<StreamLine>, from: nat)
    requires from <= |ks|
    ensures InputsFrom(ks, from) == InputsFrom(ks, NextSink(ks, from))
    decreases |ks| - from
  {
    if from < |ks| && !ks[from].SinkLine? {
      InputsSkip(ks, from + 1);
    }
  }

  /** A "Sink:" line with a parsable index contributes its record, then the records from the next "Sink:" line on. */
  lemma InputsAtSink(ks: seq<StreamLine>, k: nat)
    requires k < |ks| && ks[k].SinkLine? && ks[k].index.Some?
    ensures InputsFrom(ks, k) == [RecordAt(ks, k)] + InputsFrom(ks, NextSink(ks, k + 1))
  {
    InputsSkip(ks, k + 1);
  }

  /** The record of the "Sink:" line at `k`, whose block ends at `n`, comes before the records from `n` on. */
  lemma CloseRecord(ks: seq<StreamLine>, k: nat, n: nat)
    requires k < n <= |ks| && ks[k].SinkLine? && ks[k].index.Some? && NextSink(ks, k + 1) == n
    ensures InputsFrom(ks, k) == [SinkInput(NameOrUnknown(BlockName(ks, k + 1, n)), ks[k].index.value)] + InputsFrom(ks, n)
  {
    InputsAtSink(ks, k);
  }

  /** What the scan of `parse_sink_inputs` holds: the records pushed, and the open record's index and name. */
  datatype StreamScan = StreamScan(inputs: seq<SinkInput>, index: Option<nat>, name: string)

  /** The open record, if its "Sink:" line had a parsable index. */
  function Pending(s: StreamScan): seq<SinkInput> {
    if s.index.Some? then [SinkInput(NameOrUnknown(s.name), s.index.value)] else []
  }

  /** One line: a "Sink:" line closes the open record and opens a new one with an empty name. */
  function StreamStep(s: StreamScan, kind: StreamLine): StreamScan {
    if kind.SinkLine? then StreamScan(s.inputs + Pending(s), kind.index, [])
    else s.(name := NameStep(s.name, kind))
  }

  /** The scan over the first `n` lines. */
  function ScanStreams(ks: seq<StreamLine>, n: nat): StreamScan
    requires n <= |ks|
  {
    if n == 0 then StreamScan([], None, []) else StreamStep(ScanStreams(ks, n - 1), ks[n - 1])
  }

  /** The last "Sink:" line before `n`, if any. */
  function LastSink(ks: seq<StreamLine>, n: nat): (r: Option<nat>)
    requires n <= |ks|
    ensures r.Some? ==> r.value < n && ks[r.value].SinkLine?
  {
    if n == 0 then None else if ks[n - 1].SinkLine? then Some(n - 1) else LastSink(ks, n - 1)
  }

  lemma {:induction false} NextSinkAfterLast(ks: seq<StreamLine>, n: nat)
    requires n <= |ks| && LastSink(ks, n).Some?
    ensures NextSink(ks, LastSink(ks, n).value + 1) == NextSink(ks, n)
  {
    if !ks[n - 1].SinkLine? {
      NextSinkAfterLast(ks, n - 1);
    }
  }

  /**
   * The scan agrees with the per-record definition: the records pushed so far followed by
   * those from the open record's line on (or from `n` on, when none is open) are all records.
   */
  predicate StreamsAgree(ks: seq<StreamLine>, n: nat)
    requires n <= |ks|
  {
    var s := ScanStreams(ks, n);
    (LastSink(ks, n).None? ==> s.index.None?)
    && (s.index.None? ==> s.inputs + InputsFrom(ks, n) == InputsFrom(ks, 0))
    && (s.index.Some? ==> OpenRecord(ks, LastSink(ks, n).value, n, s))
  }

  /** The open record of `s` is the one opened at `k`, named from the lines up to `n`, with every record before it pushed. */
  predicate OpenRecord(ks: seq<StreamLine>, k: nat, n: nat, s: StreamScan)
    requires k < n <= |ks|
  {
    ks[k] == SinkLine(s.index) && s.inputs + InputsFrom(ks, k) == InputsFrom(ks, 0)
    && s.name == BlockName(ks, k + 1, n)
  }

  /** Pushing the open record when its block ends keeps the records pushed a prefix of all records. */
  lemma PushRecord(ks: seq<StreamLine>, k: nat, n: nat, s: StreamScan)
    requires k < n <= |ks| && s.index.Some? && OpenRecord(ks, k, n, s) && NextSink(ks, k + 1) == n
    ensures (s.inputs + Pending(s)) + InputsFrom(ks, n) == InputsFrom(ks, 0)
  {
    CloseRecord(ks, k, n);
    assert s.inputs + InputsFrom(ks, k) == (s.inputs + Pending(s)) + InputsFrom(ks, n);
  }

  lemma {:induction false} ScanStreamsInvariant(ks: seq<StreamLine>, n: nat)
    requires n <= |ks|
    ensures StreamsAgree(ks, n)
  {
    if n > 0 {
      ScanStreamsInvariant(ks, n - 1);
      if ks[n - 1].SinkLine? {
        StreamsAgreeAtSink(ks, n);
      } else {
        assert InputsFrom(ks, n - 1) == InputsFrom(ks, n);
      }
    }
  }

  /**
   * Where a record ends (at a "Sink:" line or at the end), the records pushed plus the open
   * one, then those from there on, are all records.
   */
  lemma PushOpen(ks: seq<StreamLine>, n: nat)
    requires n <= |ks| && NextSink(ks, n) == n && StreamsAgree(ks, n)
    ensures var s := ScanStreams(ks, n);
      (s.inputs + Pending(s)) + InputsFrom(ks, n) == InputsFrom(ks, 0)
  {
    var s := ScanStreams(ks, n);
    if s.index.Some? {
      var k := LastSink(ks, n).value;
      assert OpenRecord(ks, k, n, s);
      assert NextSink(ks, k + 1) == n by {
        NextSinkAfterLast(ks, n);
      }
      PushRecord(ks, k, n, s);
    } else {
      assert Pending(s) == [];
    }
  }

  /** A "Sink:" line keeps the agreement: the record it closes is the one the definition gives. */
  lemma StreamsAgreeAtSink(ks: seq<StreamLine>, n: nat)
    requires 0 < n <= |ks| && ks[n - 1].SinkLine? && StreamsAgree(ks, n - 1)
    ensures StreamsAgree(ks, n)
  {
    var s := ScanStreams(ks, n - 1);
    var s' := ScanStreams(ks, n);
    assert s' == StreamScan(s.inputs + Pending(s), ks[n - 1].index, []);
    assert LastSink(ks, n) == Some(n - 1);
    PushOpen(ks, n - 1);
    if ks[n - 1].index.None? {
      assert InputsFrom(ks, n - 1) == InputsFrom(ks, n);
    }
  }

  /** The scan's records, once the last open record is pushed, are exactly the per-record definition. */
  lemma ScanStreamsIsInputs(ks: seq<StreamLine>)
    ensures var s := ScanStreams(ks, |ks|); s.inputs + Pending(s) == InputsFrom(ks, 0)
  {
    ScanStreamsInvariant(ks, |ks|);
    PushOpen(ks, |ks|);
    assert InputsFrom(ks, |ks|) == [];
  }

  /**
   * The body of the loop of `parse_sink_inputs`: line `i`, trimmed, against the three
   * locals, which hold the scan of the lines before it and then of the lines up to it.
   */
  method ReadStreamLine(ghost lines: seq<string>, ghost i: nat, trimmed: string,
                        inputs: seq<SinkInput>, currentSinkIndex: Option<nat>, currentAppName: string)
    returns (inputs': seq<SinkInput>, currentSinkIndex': Option<nat>, currentAppName': string)
    requires i < |lines| && trimmed == Trim(lines[i])
    requires StreamScan(inputs, currentSinkIndex, currentAppName) == ScanStreams(StreamKinds(TrimAll(lines)), i)
    ensures StreamScan(inputs', currentSinkIndex', currentAppName') == ScanStreams(StreamKinds(TrimAll(lines)), i + 1)
  {
    TrimAllAt(lines, i);
    StreamKindsAt(TrimAll(lines), i);
    ClassifyStreamByKey(trimmed);
    inputs', currentSinkIndex', currentAppName' := inputs, currentSinkIndex, currentAppName;
    if StartsWith(trimmed, "Sink:") {
      if currentSinkIndex'.Some? {
        inputs' := inputs' + [SinkInput(if currentAppName' == [] then "Unknown" else currentAppName', currentSinkIndex'.value)];
      }
      var sinkStr := Trim(StripPrefix(trimmed, "Sink:"));
      currentSinkIndex' := ParseU32(sinkStr);
      currentAppName' := "";
    }

    if StartsWith(trimmed, "application.name = ") {
      currentAppName' := TrimMatches(StripPrefix(trimmed, "application.name = "), '"');
    }
    if currentAppName' == [] && StartsWith(trimmed, "media.name = ") {
      currentAppName' := TrimMatches(StripPrefix(trimmed, "media.name = "), '"');
    }
  }

  /** `parse_sink_inputs`: a record is pushed when the next "Sink:" line or the end is reached. */
  method ParseSinkInputs(output: string) returns (inputs: seq<SinkInput>)
    ensures inputs == Inputs(TrimAll(Lines(output)))
  {
    var lines := Lines(output);
    ghost var ts := TrimAll(lines);
    ghost var ks := StreamKinds(ts);
    inputs := [];
    var currentSinkIndex: Option<nat> := None;
    var currentAppName := "";

    var i := 0;
    while i < |lines|
      invariant 0 <= i <= |lines|
      invariant StreamScan(inputs, currentSinkIndex, currentAppName) == ScanStreams(ks, i)
    {
      var trimmed := Trim(lines[i]);
      inputs, currentSinkIndex, currentAppName := ReadStreamLine(lines, i, trimmed, inputs, currentSinkIndex, currentAppName);
      i := i + 1;
    }

    ghost var last := StreamScan(inputs, currentSinkIndex, currentAppName);
    if currentSinkIndex.Some? {
      inputs := inputs + [SinkInput(if currentAppName == [] then "Unknown" else currentAppName, currentSinkIndex.value)];
    }
    assert inputs == last.inputs + Pending(last);
    ScanStreamsIsInputs(ks);
  }

  /** The indices of the "Sink:" lines from `from` on whose index parses. */
  function RecordLines(ks: seq<StreamLine>, from: nat): (r: seq<nat>)
    requires from <= |ks|
    ensures forall p :: 0 <= p < |r| ==> from <= r[p] < |ks| && ks[r[p]].SinkLine? && ks[r[p]].index.Some?
    ensures forall p, q :: 0 <= p < q < |r| ==> r[p] < r[q]
    ensures forall k :: from <= k < |ks| && ks[k].SinkLine? && ks[k].index.Some? ==> k in r
    decreases |ks| - from
  {
    if from == |ks| then []
    else if ks[from].SinkLine? && ks[from].index.Some? then [from] + RecordLines(ks, from + 1)
    else RecordLines(ks, from + 1)
  }

  /**
   * The records are exactly those of the "Sink:" lines whose index parses, one each and in
   * the order of the lines; a "Sink:" line whose index does not parse yields none.
   */
  lemma {:induction false} InputsAreRecordLines(ks: seq<StreamLine>, from: nat)
    requires from <= |ks|
    ensures |InputsFrom(ks, from)| == |RecordLines(ks, from)|
    ensures forall p :: 0 <= p < |InputsFrom(ks, from)| ==> InputsFrom(ks, from)[p] == RecordAt(ks, RecordLines(ks, from)[p])
  {
    InputsCount(ks, from);
    forall p | 0 <= p < |InputsFrom(ks, from)| ensures InputsFrom(ks, from)[p] == RecordAt(ks, RecordLines(ks, from)[p]) {
      InputOfLine(ks, from, p);
    }
  }

  /** One record per "Sink:" line whose index parses. */
  lemma {:induction false} InputsCount(ks: seq<StreamLine>, from: nat)
    requires from <= |ks|
    ensures |InputsFrom(ks, from)| == |RecordLines(ks, from)|
    decreases |ks| - from
  {
    if from < |ks| {
      InputsCount(ks, from + 1);
    }
  }

  /** The p-th record is the record of the p-th such "Sink:" line. */
  lemma {:induction false} InputOfLine(ks: seq<StreamLine>, from: nat, p: nat)
    requires from <= |ks| && p < |InputsFrom(ks, from)| && p < |RecordLines(ks, from)|
    ensures InputsFrom(ks, from)[p] == RecordAt(ks, RecordLines(ks, from)[p])
    decreases |ks| - from
  {
    var rest := InputsFrom(ks, from + 1);
    var lines := RecordLines(ks, from + 1);
    if ks[from].SinkLine? && ks[from].index.Some? {
      assert InputsFrom(ks, from) == [RecordAt(ks, from)] + rest;
      assert RecordLines(ks, from) == [from] + lines;
      if p > 0 {
        InputOfLine(ks, from + 1, p - 1);
        assert InputsFrom(ks, from)[p] == rest[p - 1];
      }
    } else {
      assert InputsFrom(ks, from) == rest && RecordLines(ks, from) == lines;
      InputOfLine(ks, from + 1, p);
    }
  }

  /** An "application.name" line with a value fixes the name unless a later one replaces it. */
  lemma {:induction false} LastAppNameWins(ks: seq<StreamLine>, from: nat, to: nat, j: nat)
    requires from <= j < to <= |ks|
    requires ks[j].AppNameLine? && ks[j].appValue != []
    requires forall k :: j < k < to ==> !ks[k].AppNameLine?
    ensures BlockName(ks, from, to) == ks[j].appValue
  {
    if to - 1 > j {
      LastAppNameWins(ks, from, to - 1, j);
    }
  }

  /**
   * Without an "application.name" line, the name is the first non-empty "media.name" value.
   */
  lemma {:induction false} FirstMediaNameWithoutApp(ks: seq<StreamLine>, from: nat, to: nat, j: nat)
    requires from <= j < to <= |ks|
    requires forall k :: from <= k < to ==> !ks[k].AppNameLine?
    requires ks[j].MediaNameLine? && ks[j].mediaValue != []
    requires forall k :: from <= k < j && ks[k].MediaNameLine? ==> ks[k].mediaValue == []
    ensures BlockName(ks, from, to) == ks[j].mediaValue
  {
    if to - 1 > j {
      FirstMediaNameWithoutApp(ks, from, to - 1, j);
    } else {
      EmptyBeforeMediaName(ks, from, j);
    }
  }

  /** Before any non-empty name value, the gathered name is still empty. */
  lemma {:induction false} EmptyBeforeMediaName(ks: seq<StreamLine>, from: nat, to: nat)
    requires from <= to <= |ks|
    requires forall k :: from <= k < to ==> !ks[k].AppNameLine?
    requires forall k :: from <= k < to && ks[k].MediaNameLine? ==> ks[k].mediaValue == []
    ensures BlockName(ks, from, to) == []
  {
    if to > from {
      EmptyBeforeMediaName(ks, from, to - 1);
    }
  }

  /** A record with neither an application nor a media name is reported as "Unknown". */
  lemma UnnamedIsUnknown(ks: seq<StreamLine>, k: nat)
    requires k < |ks| && ks[k].SinkLine? && ks[k].index.Some?
    requires forall m :: k < m < NextSink(ks, k + 1) ==> !ks[m].AppNameLine? && !ks[m].MediaNameLine?
    ensures RecordAt(ks, k).appName == "Unknown"
  {
    EmptyBeforeMediaName(ks, k + 1, NextSink(ks, k + 1));
  }

  // ---------------------------------------------------------------------------------------
  // Sink names: `pactl list sinks`

  const HEADER_KEY: string := "Sink #"

  /** What one trimmed line of the sink listing means to `parse_sink_index_map`. */
  datatype SinkListLine =
    | SinkHeader(headerIndex: Option<nat>)
    | SinkNameLine(sinkName: string)
    | OtherSinkLine

  /** A "Sink #n" header (the rest read as a `u32`, untrimmed) or a "Name:" line (trimmed value). */
  function ClassifySinkList(t: string): SinkListLine {
    if StartsWith(t, HEADER_KEY) then SinkHeader(ParseU32(t[|HEADER_KEY|..]))
    else if IsNameLine(t) then SinkNameLine(Trim(t[|NAME_KEY|..]))
    else OtherSinkLine
  }

  lemma ClassifySinkListByKey(t: string)
    ensures ClassifySinkList(t).SinkHeader? <==> StartsWith(t, HEADER_KEY)
    ensures ClassifySinkList(t).SinkNameLine? <==> IsNameLine(t)
  {
    if IsNameLine(t) {
      assert t[0] != HEADER_KEY[0];
    }
  }

  function SinkListKinds(ts: seq<string>): (r: seq<SinkListLine>)
    ensures |r| == |ts|
  {
    if ts == [] then [] else [ClassifySinkList(ts[0])] + SinkListKinds(ts[1..])
  }

  lemma {:induction false} SinkListKindsAt(ts: seq<string>, k: nat)
    requires k < |ts|
    ensures SinkListKinds(ts)[k] == ClassifySinkList(ts[k])
  {
    if k > 0 {
      SinkListKindsAt(ts[1..], k - 1);
    }
  }

  /** The first header or "Name:" line at or after `from`, or the end. */
  function NextMark(ks: seq<SinkListLine>, from: nat): (j: nat)
    requires from <= |ks|
    ensures from <= j <= |ks|
    ensures forall k :: from <= k < j ==> ks[k].OtherSinkLine?
    ensures j < |ks| ==> !ks[j].OtherSinkLine?
    decreases |ks| - from
  {
    if from == |ks| || !ks[from].OtherSinkLine? then from else NextMark(ks, from + 1)
  }

  /**
   * The entry of the header at `k`: its index paired with the first "Name:" value after it,
   * provided no other header comes first.
   */
  function EntryAt(ks: seq<SinkListLine>, k: nat): seq<(nat, string)>
    requires k < |ks| && ks[k].SinkHeader?
  {
    var j := NextMark(ks, k + 1);
    if ks[k].headerIndex.Some? && j < |ks| && ks[j].SinkNameLine? then [(ks[k].headerIndex.value, ks[j].sinkName)]
    else []
  }

  /** The entries of the headers from `from` on, in order. */
  function SinkMapFrom(ks: seq<SinkListLine>, from: nat): (r: seq<(nat, string)>)
    requires from <= |ks|
    ensures |r| <= |ks| - from
    decreases |ks| - from
  {
    if from == |ks| then []
    else if ks[from].SinkHeader? then EntryAt(ks, from) + SinkMapFrom(ks, from + 1)
    else SinkMapFrom(ks, from + 1)
  }

  /** The index-to-name table `parse_sink_index_map` reads from the trimmed lines of a listing. */
  function SinkMap(ts: seq<string>): seq<(nat, string)> {
    SinkMapFrom(SinkListKinds(ts), 0)
  }

  /** Lines up to the next header contribute no entries of their own. */
  lemma {:induction false} SinkMapSkip(ks: seq<SinkListLine>, from: nat, to: nat)
    requires from <= to <= |ks|
    requires forall k :: from <= k < to ==> !ks[k].SinkHeader?
    ensures SinkMapFrom(ks, from) == SinkMapFrom(ks, to)
    decreases |ks| - from
  {
    if from < to {
      SinkMapSkip(ks, from + 1, to);
    }
  }

  /** A header line whose index does not parse, or one followed by another header, has no entry. */
  lemma EntryAtIs(ks: seq<SinkListLine>, k: nat)
    requires k < |ks| && ks[k].SinkHeader?
    ensures SinkMapFrom(ks, k) == EntryAt(ks, k) + SinkMapFrom(ks, NextMark(ks, k + 1))
  {
    SinkMapSkip(ks, k + 1, NextMark(ks, k + 1));
  }

  /** What the scan of `parse_sink_index_map` holds: the entries pushed and the armed index. */
  datatype SinkListScan = SinkListScan(entries: seq<(nat, string)>, current: Option<nat>)

  /** One line: a header (re)arms the index, a "Name:" line consumes an armed one. */
  function SinkListStep(s: SinkListScan, kind: SinkListLine): SinkListScan {
    match kind
    case SinkHeader(idx) => s.(current := idx)
    case SinkNameLine(name) =>
      if s.current.Some? then SinkListScan(s.entries + [(s.current.value, name)], None) else s
    case OtherSinkLine => s
  }

  /** The scan over the first `n` lines. */
  function ScanSinkList(ks: seq<SinkListLine>, n: nat): SinkListScan
    requires n <= |ks|
  {
    if n == 0 then SinkListScan([], None) else SinkListStep(ScanSinkList(ks, n - 1), ks[n - 1])
  }

  /** The last header before `n`, if any. */
  function LastHeader(ks: seq<SinkListLine>, n: nat): (r: Option<nat>)
    requires n <= |ks|
    ensures r.Some? ==> r.value < n && ks[r.value].SinkHeader?
  {
    if n == 0 then None else if ks[n - 1].SinkHeader? then Some(n - 1) else LastHeader(ks, n - 1)
  }

  /**
   * The scan agrees with the per-header definition: with no index armed, the entries pushed
   * followed by those of the headers from `n` on are all entries; with one armed, the entries
   * pushed followed by those from its header on are, and no mark has come since that header.
   */
  predicate SinkListAgrees(ks: seq<SinkListLine>, n: nat)
    requires n <= |ks|
  {
    var s := ScanSinkList(ks, n);
    (s.current.None? ==> s.entries + SinkMapFrom(ks, n) == SinkMapFrom(ks, 0))
    && (s.current.Some? ==>
          LastHeader(ks, n).Some?
          && var k := LastHeader(ks, n).value;
          ks[k] == SinkHeader(s.current) && s.entries + SinkMapFrom(ks, k) == SinkMapFrom(ks, 0)
          && NextMark(ks, k + 1) == NextMark(ks, n))
  }

  lemma {:induction false} ScanSinkListInvariant(ks: seq<SinkListLine>, n: nat)
    requires n <= |ks|
    ensures SinkListAgrees(ks, n)
  {
    if n > 0 {
      ScanSinkListInvariant(ks, n - 1);
      var s := ScanSinkList(ks, n - 1);
      if s.current.None? {
        assert SinkMapFrom(ks, n - 1) == (if ks[n - 1].SinkHeader? then EntryAt(ks, n - 1) else []) + SinkMapFrom(ks, n);
      } else if ks[n - 1].OtherSinkLine? {
        assert NextMark(ks, n - 1) == NextMark(ks, n);
      } else {
        SinkListAgreesAtMark(ks, n);
      }
    }
  }

  /** A header or "Name:" line that meets an armed index closes that header's entry. */
  lemma SinkListAgreesAtMark(ks: seq<SinkListLine>, n: nat)
    requires 0 < n <= |ks| && !ks[n - 1].OtherSinkLine? && SinkListAgrees(ks, n - 1)
    requires ScanSinkList(ks, n - 1).current.Some?
    ensures SinkListAgrees(ks, n)
  {
    var s := ScanSinkList(ks, n - 1);
    var k := LastHeader(ks, n - 1).value;
    assert NextMark(ks, k + 1) == n - 1;
    assert SinkMapFrom(ks, k) == EntryAt(ks, k) + SinkMapFrom(ks, n - 1) by {
      EntryAtIs(ks, k);
    }
    if ks[n - 1].SinkHeader? {
      assert EntryAt(ks, k) == [];
      assert LastHeader(ks, n) == Some(n - 1);
    } else {
      var e := (s.current.value, ks[n - 1].sinkName);
      assert EntryAt(ks, k) == [e];
      assert SinkMapFrom(ks, n - 1) == SinkMapFrom(ks, n);
      assert s.entries + SinkMapFrom(ks, k) == (s.entries + [e]) + SinkMapFrom(ks, n);
    }
  }

  /** The scan's entries are exactly the per-header definition. */
  lemma ScanSinkListIsSinkMap(ks: seq<SinkListLine>)
    ensures ScanSinkList(ks, |ks|).entries == SinkMapFrom(ks, 0)
  {
    ScanSinkListInvariant(ks, |ks|);
    var s := ScanSinkList(ks, |ks|);
    assert SinkMapFrom(ks, |ks|) == [];
    if s.current.Some? {
      EntryAtIs(ks, LastHeader(ks, |ks|).value);
    }
  }

  /**
   * The body of the loop of `parse_sink_index_map`: line `i`, trimmed, against the two
   * locals, which hold the scan of the lines before it and then of the lines up to it.
   */
  method ReadSinkListLine(ghost lines: seq<string>, ghost i: nat, trimmed: string,
                          map_: seq<(nat, string)>, currentIndex: Option<nat>)
    returns (map': seq<(nat, string)>, currentIndex': Option<nat>)
    requires i < |lines| && trimmed == Trim(lines[i])
    requires SinkListScan(map_, currentIndex) == ScanSinkList(SinkListKinds(TrimAll(lines)), i)
    ensures SinkListScan(map', currentIndex') == ScanSinkList(SinkListKinds(TrimAll(lines)), i + 1)
  {
    TrimAllAt(lines, i);
    SinkListKindsAt(TrimAll(lines), i);
    ClassifySinkListByKey(trimmed);
    map', currentIndex' := map_, currentIndex;
    if StartsWith(trimmed, "Sink #") {
      currentIndex' := ParseU32(StripPrefix(trimmed, "Sink #"));
    }

    if currentIndex'.Some? {
      if StartsWith(trimmed, "Name:") {
        var name := Trim(StripPrefix(trimmed, "Name:"));
        map' := map' + [(currentIndex'.value, name)];
        currentIndex' := None;
      }
    }
  }

  /** `parse_sink_index_map`: a header arms the index, the next "Name:" line consumes it. */
  method ParseSinkIndexMap(output: string) returns (map_: seq<(nat, string)>)
    ensures map_ == SinkMap(TrimAll(Lines(output)))
  {
    var lines := Lines(output);
    ghost var ts := TrimAll(lines);
    ghost var ks := SinkListKinds(ts);
    map_ := [];
    var currentIndex: Option<nat> := None;

    var i := 0;
    while i < |lines|
      invariant 0 <= i <= |lines|
      invariant SinkListScan(map_, currentIndex) == ScanSinkList(ks, i)
    {
      var trimmed := Trim(lines[i]);
      map_, currentIndex := ReadSinkListLine(lines, i, trimmed, map_, currentIndex);
      i := i + 1;
    }
    assert map_ == SinkMap(ts) by {
      assert SinkListScan(map_, currentIndex) == ScanSinkList(ks, |ks|);
      ScanSinkListIsSinkMap(ks);
    }
  }

  /**
   * Each header with a parsable index gets at most one entry: the first "Name:" value after
   * it, and only when no other header comes between.
   */
  lemma HeaderTakesFirstName(ks: seq<SinkListLine>, k: nat, j: nat)
    requires k < j < |ks| && ks[k].SinkHeader? && ks[k].headerIndex.Some?
    requires forall m :: k < m < j ==> ks[m].OtherSinkLine?
    ensures ks[j].SinkNameLine? ==> EntryAt(ks, k) == [(ks[k].headerIndex.value, ks[j].sinkName)]
    ensures ks[j].SinkHeader? ==> EntryAt(ks, k) == []
  {
    if !ks[j].OtherSinkLine? {
      NextMarkIs(ks, k + 1, j);
    }
  }

  lemma NextMarkIs(ks: seq<SinkListLine>, from: nat, j: nat)
    requires from <= j < |ks| && !ks[j].OtherSinkLine?
    requires forall m :: from <= m < j ==> ks[m].OtherSinkLine?
    ensures NextMark(ks, from) == j
  {
  }

  // ---------------------------------------------------------------------------------------
  // The routing decision

  /** The name of the first entry from `p` on with that index, or "" when none has it. */
  function ResolveFrom(sinkMap: seq<(nat, string)>, index: nat, p: nat): string
    requires p <= |sinkMap|
    decreases |sinkMap| - p
  {
    if p == |sinkMap| then ""
    else if sinkMap[p].0 == index then sinkMap[p].1
    else ResolveFrom(sinkMap, index, p + 1)
  }

  /** `sink_map.iter().find(|(idx, _)| *idx == index)`, its name, or "". */
  function Resolve(sinkMap: seq<(nat, string)>, index: nat): string {
    ResolveFrom(sinkMap, index, 0)
  }

  /** The first entry with the index decides its name. */
  lemma {:induction false} ResolveIsFirst(sinkMap: seq<(nat, string)>, index: nat, from: nat, p: nat)
    requires from <= p < |sinkMap| && sinkMap[p].0 == index
    requires forall q :: from <= q < p ==> sinkMap[q].0 != index
    ensures ResolveFrom(sinkMap, index, from) == sinkMap[p].1
    decreases p - from
  {
    if from < p {
      ResolveIsFirst(sinkMap, index, from + 1, p);
    }
  }

  /** An index no entry has resolves to "". */
  lemma {:induction false} ResolveMissing(sinkMap: seq<(nat, string)>, index: nat, from: nat)
    requires from <= |sinkMap|
    requires forall q :: from <= q < |sinkMap| ==> sinkMap[q].0 != index
    ensures ResolveFrom(sinkMap, index, from) == ""
    decreases |sinkMap| - from
  {
    if from < |sinkMap| {
      ResolveMissing(sinkMap, index, from + 1);
    }
  }

  /** A stream is misrouted when its sink resolves to a name that is not the default sink. */
  predicate IsMisrouted(input: SinkInput, sinkMap: seq<(nat, string)>, defaultSink: string) {
    var name := Resolve(sinkMap, input.sinkIndex);
    name != [] && name != defaultSink
  }

  function MisroutedMessage(input: SinkInput, sinkName: string): string {
    "'" + input.appName + "' is playing to '" + sinkName + "'"
  }

  /** One message per misrouted stream, in stream order. */
  function Misrouted(inputs: seq<SinkInput>, sinkMap: seq<(nat, string)>, defaultSink: string): (r: seq<string>)
    ensures |r| <= |inputs|
  {
    if inputs == [] then []
    else
      var rest := Misrouted(inputs[1..], sinkMap, defaultSink);
      if IsMisrouted(inputs[0], sinkMap, defaultSink) then
        [MisroutedMessage(inputs[0], Resolve(sinkMap, inputs[0].sinkIndex))] + rest
      else rest
  }

  lemma {:induction false} MisroutedAppend(inputs: seq<SinkInput>, input: SinkInput, sinkMap: seq<(nat, string)>, defaultSink: string)
    ensures Misrouted(inputs + [input], sinkMap, defaultSink) ==
      Misrouted(inputs, sinkMap, defaultSink)
      + (if IsMisrouted(input, sinkMap, defaultSink) then [MisroutedMessage(input, Resolve(sinkMap, input.sinkIndex))] else [])
  {
    if inputs != [] {
      assert (inputs + [input])[1..] == inputs[1..] + [input];
      MisroutedAppend(inputs[1..], input, sinkMap, defaultSink);
    }
  }

  /** The loop of `check_sink_inputs` that collects the misrouted streams. */
  method CollectMisrouted(inputs: seq<SinkInput>, sinkMap: seq<(nat, string)>, defaultSink: string)
    returns (misrouted: seq<string>)
    ensures misrouted == Misrouted(inputs, sinkMap, defaultSink)
  {
    misrouted := [];
    var i := 0;
    while i < |inputs|
      invariant 0 <= i <= |inputs|
      invariant misrouted == Misrouted(inputs[..i], sinkMap, defaultSink)
    {
      var input := inputs[i];
      var sinkName := "";
      var p := 0;
      while p < |sinkMap| && sinkMap[p].0 != input.sinkIndex
        invariant 0 <= p <= |sinkMap|
        invariant Resolve(sinkMap, input.sinkIndex) == ResolveFrom(sinkMap, input.sinkIndex, p)
      {
        p := p + 1;
      }
      if p < |sinkMap| {
        sinkName := sinkMap[p].1;
      }
      assert sinkName == Resolve(sinkMap, input.sinkIndex);

      MisroutedAppend(inputs[..i], input, sinkMap, defaultSink);
      assert inputs[..i + 1] == inputs[..i] + [input];
      if sinkName != [] && sinkName != defaultSink {
        misrouted := misrouted + [MisroutedMessage(input, sinkName)];
      }
      i := i + 1;
    }
    assert inputs[..i] == inputs;
  }

  /** The list is empty exactly when no stream is misrouted. */
  lemma {:induction false} MisroutedEmptyIff(inputs: seq<SinkInput>, sinkMap: seq<(nat, string)>, defaultSink: string)
    ensures Misrouted(inputs, sinkMap, defaultSink) == [] <==>
      forall k :: 0 <= k < |inputs| ==> !IsMisrouted(inputs[k], sinkMap, defaultSink)
  {
    if inputs != [] {
      MisroutedEmptyIff(inputs[1..], sinkMap, defaultSink);
      assert forall k :: 1 <= k < |inputs| ==> inputs[k] == inputs[1..][k - 1];
    }
  }

  /** The positions from `from` on of the misrouted streams, in increasing order, all of them. */
  function MisroutedStreams(inputs: seq<SinkInput>, sinkMap: seq<(nat, string)>, defaultSink: string, from: nat): (r: seq<nat>)
    requires from <= |inputs|
    ensures forall p :: 0 <= p < |r| ==> from <= r[p] < |inputs| && IsMisrouted(inputs[r[p]], sinkMap, defaultSink)
    ensures forall p, q :: 0 <= p < q < |r| ==> r[p] < r[q]
    ensures forall k :: from <= k < |inputs| && IsMisrouted(inputs[k], sinkMap, defaultSink) ==> k in r
    decreases |inputs| - from
  {
    if from == |inputs| then []
    else if IsMisrouted(inputs[from], sinkMap, defaultSink) then [from] + MisroutedStreams(inputs, sinkMap, defaultSink, from + 1)
    else MisroutedStreams(inputs, sinkMap, defaultSink, from + 1)
  }

  /**
   * Exactly one message per misrouted stream, in stream order: the p-th message names the
   * p-th misrouted stream and the sink it resolves to.
   */
  lemma {:induction false} MisroutedInStreamOrder(inputs: seq<SinkInput>, sinkMap: seq<(nat, string)>, defaultSink: string, from: nat)
    requires from <= |inputs|
    ensures var r := Misrouted(inputs[from..], sinkMap, defaultSink);
      var ks := MisroutedStreams(inputs, sinkMap, defaultSink, from);
      |r| == |ks| &&
      forall p :: 0 <= p < |r| ==> r[p] == MisroutedMessage(inputs[ks[p]], Resolve(sinkMap, inputs[ks[p]].sinkIndex))
    decreases |inputs| - from
  {
    if from < |inputs| {
      MisroutedInStreamOrder(inputs, sinkMap, defaultSink, from + 1);
      assert inputs[from..][1..] == inputs[from + 1..];
      assert inputs[from..][0] == inputs[from];
    }
  }

  /** A stream whose sink index is in no entry is never reported. */
  lemma UnresolvedNeverMisrouted(input: SinkInput, sinkMap: seq<(nat, string)>, defaultSink: string)
    requires forall p :: 0 <= p < |sinkMap| ==> sinkMap[p].0 != input.sinkIndex
    ensures !IsMisrouted(input, sinkMap, defaultSink)
  {
    ResolveMissing(sinkMap, input.sinkIndex, 0);
  }

  /**
   * Otherwise the first entry with its index decides: the stream is reported exactly when
   * that entry's name is non-empty and not the default sink.
   */
  lemma FirstEntryDecides(input: SinkInput, sinkMap: seq<(nat, string)>, defaultSink: string, p: nat)
    requires p < |sinkMap| && sinkMap[p].0 == input.sinkIndex
    requires forall q :: 0 <= q < p ==> sinkMap[q].0 != input.sinkIndex
    ensures IsMisrouted(input, sinkMap, defaultSink) <==> sinkMap[p].1 != [] && sinkMap[p].1 != defaultSink
  {
    ResolveIsFirst(sinkMap, input.sinkIndex, 0, p);
  }

  const NO_DEFAULT: string := "Cannot check stream routing (no default sink)"
  const SET_DEFAULT: string := "Set a default output device first"
  const NO_LISTING: string := "Cannot list active audio streams"
  const START_SERVER: string := "Ensure audio server is running"
  const NOTHING_PLAYING: string := "No active audio streams (nothing playing)"
  const MOVE_STREAMS: string := "Move streams to default output in sound settings or pavucontrol"

  const STREAMS: string := " stream(s)"

  function MisroutedSummary(misrouted: seq<string>): string {
    NatToString(|misrouted|) + STREAMS + " playing to non-default output: " + Join(misrouted, ", ")
  }

  function RoutedSummary(count: nat): string {
    NatToString(count) + " active stream(s) correctly routed"
  }

  /** The evidence: the whole stream listing. */
  function InputsEvidence(listInputs: CommandOutput): string {
    "pactl list sink-inputs:\n" + listInputs.stdout + "\n"
  }

  /** The streams `check_sink_inputs` finds. */
  function FoundInputs(listInputs: CommandOutput): seq<SinkInput> {
    Inputs(TrimAll(Lines(listInputs.stdout)))
  }

  /** The messages about misrouted streams; the sink listing is read whether or not it succeeded. */
  function FoundMisrouted(getDefault: CommandOutput, listInputs: CommandOutput, listSinks: CommandOutput): seq<string> {
    Misrouted(FoundInputs(listInputs), SinkMap(TrimAll(Lines(listSinks.stdout))), Trim(getDefault.stdout))
  }

  /**
   * `check_sink_inputs`, given the outputs of `pactl get-default-sink`, `pactl list
   * sink-inputs` and `pactl list sinks`.
   */
  function CheckSinkInputs(getDefault: CommandOutput, listInputs: CommandOutput, listSinks: CommandOutput): (r: CheckResult)
    ensures r.name == CHECK_NAME
    ensures Trim(getDefault.stdout) == [] ==> r.status == Warning && r.debugInfo == None
    ensures Trim(getDefault.stdout) != [] ==> r.debugInfo == Some(InputsEvidence(listInputs))
    ensures r.status != Error
  {
    if Trim(getDefault.stdout) == [] then
      WarningResult(CHECK_NAME, NO_DEFAULT, SET_DEFAULT)
    else if !listInputs.success then
      WithDebug(WarningResult(CHECK_NAME, NO_LISTING, START_SERVER), InputsEvidence(listInputs))
    else if FoundInputs(listInputs) == [] then
      WithDebug(OkResult(CHECK_NAME, NOTHING_PLAYING), InputsEvidence(listInputs))
    else
      var misrouted := FoundMisrouted(getDefault, listInputs, listSinks);
      if misrouted != [] then
        WithDebug(WarningResult(CHECK_NAME, MisroutedSummary(misrouted), MOVE_STREAMS), InputsEvidence(listInputs))
      else
        WithDebug(OkResult(CHECK_NAME, RoutedSummary(|FoundInputs(listInputs)|)), InputsEvidence(listInputs))
  }

  /**
   * It warns exactly when there is no default sink, the stream listing fails, or some
   * parsed stream is misrouted.
   */
  lemma SinkInputsWarningIff(getDefault: CommandOutput, listInputs: CommandOutput, listSinks: CommandOutput)
    ensures CheckSinkInputs(getDefault, listInputs, listSinks).status == Warning <==>
      Trim(getDefault.stdout) == [] || !listInputs.success
      || exists k :: 0 <= k < |FoundInputs(listInputs)|
           && IsMisrouted(FoundInputs(listInputs)[k], SinkMap(TrimAll(Lines(listSinks.stdout))), Trim(getDefault.stdout))
  {
    MisroutedEmptyIff(FoundInputs(listInputs), SinkMap(TrimAll(Lines(listSinks.stdout))), Trim(getDefault.stdout));
  }

  /** The warning counts the misrouted streams it lists. */
  lemma MisroutedCountIsListed(getDefault: CommandOutput, listInputs: CommandOutput, listSinks: CommandOutput)
    requires Trim(getDefault.stdout) != [] && listInputs.success && FoundInputs(listInputs) != []
    requires FoundMisrouted(getDefault, listInputs, listSinks) != []
    ensures var r := CheckSinkInputs(getDefault, listInputs, listSinks);
      var misrouted := FoundMisrouted(getDefault, listInputs, listSinks);
      r.status == Warning && r.suggestion == Some(MOVE_STREAMS)
      && StartsWith(r.message, NatToString(|misrouted|) + STREAMS)
      && |misrouted| <= |FoundInputs(listInputs)|
  {
    var misrouted := FoundMisrouted(getDefault, listInputs, listSinks);
    SummaryStartsWithCount(misrouted);
    assert CheckSinkInputs(getDefault, listInputs, listSinks)
      == WithDebug(WarningResult(CHECK_NAME, MisroutedSummary(misrouted), MOVE_STREAMS), InputsEvidence(listInputs));
  }

  /** The summary of misrouted streams opens with their count. */
  lemma SummaryStartsWithCount(misrouted: seq<string>)
    ensures StartsWith(MisroutedSummary(misrouted), NatToString(|misrouted|) + STREAMS)
  {
    var head := NatToString(|misrouted|) + STREAMS;
    var middle := " playing to non-default output: ";
    StartsWithConcat(head, middle);
    StartsWithExtend(head + middle, head, Join(misrouted, ", "));
  }

  /** Without streams nothing is routed wrongly, and the sink listing is not consulted. */
  lemma NoStreamsIsOk(getDefault: CommandOutput, listInputs: CommandOutput, listSinks: CommandOutput, other: CommandOutput)
    requires Trim(getDefault.stdout) != [] && listInputs.success && FoundInputs(listInputs) == []
    ensures var r := CheckSinkInputs(getDefault, listInputs, listSinks);
      r.status == Ok && r.message == NOTHING_PLAYING && r == CheckSinkInputs(getDefault, listInputs, other)
  {
  }

  /** When every stream is correctly routed, the message counts all parsed streams. */
  lemma AllRoutedCountsStreams(getDefault: CommandOutput, listInputs: CommandOutput, listSinks: CommandOutput)
    requires Trim(getDefault.stdout) != [] && listInputs.success && FoundInputs(listInputs) != []
    requires FoundMisrouted(getDefault, listInputs, listSinks) == []
    ensures var r := CheckSinkInputs(getDefault, listInputs, listSinks);
      r.status == Ok && r.message == RoutedSummary(|FoundInputs(listInputs)|)
  {
  }
}

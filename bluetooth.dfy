/**
 * Check 6, the Bluetooth profile trap (src/checks/bluetooth.rs): is a Bluetooth headset
 * stuck in its call profile (HSP/HFP) instead of A2DP? Cards come from `pactl list cards`.
 */
module Bluetooth {
  import opened Options
  import opened Text
  import opened Types
  import opened Runner
  import opened Listing

  const CHECK_NAME: string := "bluetooth_profile"

  /** One Bluetooth card of the listing, with the fields the decision reads. */
  datatype BluetoothCard = BluetoothCard(
    name: string,
    description: string,
    activeProfile: string,
    availableProfiles: seq<string>,
    sinks: seq<string>)

  // ---------------------------------------------------------------------------------------
  // Cards: `pactl list cards`

  const DESC_KEY: string := "device.description = "
  const ACTIVE_KEY: string := "Active Profile:"
  const PROFILES_KEY: string := "Profiles:"
  const SINKS_KEY: string := "Sinks:"
  const PART_OF: string := "Part of"

  /** A card is a Bluetooth card when its name mentions "bluez" or "bluetooth". */
  predicate IsBluetoothName(name: string) {
    Contains(name, "bluez") || Contains(name, "bluetooth")
  }

  /**
   * The profile a line of the profiles section names: the trimmed text before its first ':',
   * unless that is empty or starts with "Part of".
   */
  function ProfileEntry(t: string): Option<string> {
    match Find(t, ':')
    case None => None
    case Some(c) =>
      var p := Trim(t[..c]);
      if p != [] && !StartsWith(p, PART_OF) then Some(p) else None
  }

  /** A line of the sinks section names a sink when it mentions "bluez" or starts with '#'. */
  function SinkEntry(t: string): Option<string> {
    if Contains(t, "bluez") || StartsWith(t, "#") then Some(t) else None
  }

  /** What one trimmed line of the card listing means to `parse_bluetooth_cards`. */
  datatype CardLine =
    | CardName(cardName: string)
    | ProfilesHeader
    | SinksHeader
    | Body(desc: Option<string>, active: Option<string>, profileEntry: Option<string>, sinkEntry: Option<string>)

  /**
   * A "Name:" line opens a card (its value trimmed); "Profiles:" and "Sinks:" open a section;
   * any other line may carry a description (quotes stripped), an active profile (trimmed),
   * a profile entry and a sink entry, each read only where the scan is ready for it.
   */
  function ClassifyCard(t: string): CardLine {
    if IsNameLine(t) then CardName(Trim(t[|NAME_KEY|..]))
    else if StartsWith(t, PROFILES_KEY) then ProfilesHeader
    else if StartsWith(t, SINKS_KEY) then SinksHeader
    else Body(DescOf(t), ActiveOf(t), ProfileEntry(t), SinkEntry(t))
  }

  /** The description a "device.description = " line gives, with surrounding quotes stripped. */
  function DescOf(t: string): Option<string> {
    if StartsWith(t, DESC_KEY) then Some(TrimMatches(t[|DESC_KEY|..], '"')) else None
  }

  /** The profile an "Active Profile:" line gives, trimmed. */
  function ActiveOf(t: string): Option<string> {
    if StartsWith(t, ACTIVE_KEY) then Some(Trim(t[|ACTIVE_KEY|..])) else None
  }

  /** The five keys begin with different characters, so a line has at most one of them. */
  lemma ClassifyCardByKey(t: string)
    ensures ClassifyCard(t).CardName? <==> IsNameLine(t)
    ensures ClassifyCard(t).ProfilesHeader? <==> StartsWith(t, PROFILES_KEY)
    ensures ClassifyCard(t).SinksHeader? <==> StartsWith(t, SINKS_KEY)
    ensures !ClassifyCard(t).Body? ==> DescOf(t).None? && ActiveOf(t).None?
  {
    if StartsWith(t, PROFILES_KEY) || StartsWith(t, SINKS_KEY) {
      assert t[0] != NAME_KEY[0];
    }
    if StartsWith(t, SINKS_KEY) {
      assert t[0] != PROFILES_KEY[0];
    }
    if StartsWith(t, DESC_KEY) || StartsWith(t, ACTIVE_KEY) {
      assert t[0] != NAME_KEY[0] && t[0] != PROFILES_KEY[0] && t[0] != SINKS_KEY[0];
    }
  }

  /** The classification of every trimmed line of the card listing. */
  function CardKinds(ts: seq<string>): (r: seq<CardLine>)
    ensures |r| == |ts|
  {
    if ts == [] then [] else [ClassifyCard(ts[0])] + CardKinds(ts[1..])
  }

  lemma {:induction false} CardKindsAt(ts: seq<string>, k: nat)
    requires k < |ts|
    ensures CardKinds(ts)[k] == ClassifyCard(ts[k])
  {
    if k > 0 {
      CardKindsAt(ts[1..], k - 1);
    }
  }

  /** The section a card's body line is read in: the last section header seen since the card's "Name:" line. */
  datatype Section = NoSection | ProfilesSection | SinksSection

  /** The fields gathered for the open card, and the section being read. */
  datatype CardFields = CardFields(
    desc: string,
    profile: string,
    profiles: seq<string>,
    sinks: seq<string>,
    section: Section)

  /** What a "Name:" line resets the fields to. */
  const RESET: CardFields := CardFields([], [], [], [], NoSection)

  /**
   * One line of a Bluetooth card's block: a section header switches the section; a body line
   * may set the description and the active profile, and adds its profile entry inside the
   * profiles section and its sink entry inside the sinks section.
   */
  function FieldStep(f: CardFields, kind: CardLine): CardFields {
    match kind
    case ProfilesHeader => f.(section := ProfilesSection)
    case SinksHeader => f.(section := SinksSection)
    case Body(desc, active, profileEntry, sinkEntry) =>
      var f1 := if desc.Some? then f.(desc := desc.value) else f;
      var f2 := if active.Some? then f1.(profile := active.value) else f1;
      var f3 := if f.section == ProfilesSection && profileEntry.Some? then f2.(profiles := f2.profiles + [profileEntry.value]) else f2;
      if f.section == SinksSection && sinkEntry.Some? then f3.(sinks := f3.sinks + [sinkEntry.value]) else f3
    case CardName(_) => f
  }

  /** The fields gathered from the lines `from` up to `to`, starting from `RESET`. */
  function BlockFields(ks: seq<CardLine>, from: nat, to: nat): CardFields
    requires from <= to <= |ks|
  {
    if to == from then RESET else FieldStep(BlockFields(ks, from, to - 1), ks[to - 1])
  }

  /** The first "Name:" line at or after `from`, or the end. */
  function NextCardName(ks: seq<CardLine>, from: nat): (j: nat)
    requires from <= |ks|
    ensures from <= j <= |ks|
    ensures forall k :: from <= k < j ==> !ks[k].CardName?
    ensures j < |ks| ==> ks[j].CardName?
    decreases |ks| - from
  {
    if from == |ks| || ks[from].CardName? then from else NextCardName(ks, from + 1)
  }

  function MakeCard(name: string, f: CardFields): BluetoothCard {
    BluetoothCard(name, f.desc, f.profile, f.profiles, f.sinks)
  }

  /** The "Name:" line at `k` opens a card that is reported: a non-empty Bluetooth name. */
  predicate Emits(ks: seq<CardLine>, k: nat)
    requires k < |ks| && ks[k].CardName?
  {
    ks[k].cardName != [] && IsBluetoothName(ks[k].cardName)
  }

  /** The card opened at `k`, with the fields of the lines up to the next "Name:" line. */
  function CardAt(ks: seq<CardLine>, k: nat): BluetoothCard
    requires k < |ks| && ks[k].CardName?
  {
    MakeCard(ks[k].cardName, BlockFields(ks, k + 1, NextCardName(ks, k + 1)))
  }

  /** One card per reported "Name:" line from `from` on, in order. */
  function CardsFrom(ks: seq<CardLine>, from: nat): (r: seq<BluetoothCard>)
    requires from <= |ks|
    ensures |r| <= |ks| - from
    decreases |ks| - from
  {
    if from == |ks| then []
    else if ks[from].CardName? && Emits(ks, from) then [CardAt(ks, from)] + CardsFrom(ks, from + 1)
    else CardsFrom(ks, from + 1)
  }

  /** The Bluetooth cards `parse_bluetooth_cards` reads from the trimmed lines of a listing. */
  function Cards(ts: seq<string>): seq<BluetoothCard> {
    CardsFrom(CardKinds(ts), 0)
  }

  /** Lines before the next "Name:" line contribute no cards. */
  lemma {:induction false} CardsSkip(ks: seq<CardLine>, from: nat)
    requires from <= |ks|
    ensures CardsFrom(ks, from) == CardsFrom(ks, NextCardName(ks, from))
    decreases |ks| - from
  {
    if from < |ks| && !ks[from].CardName? {
      CardsSkip(ks, from + 1);
    }
  }

  /** A "Name:" line contributes its card, if reported, then the cards from the next "Name:" line on. */
  lemma CardsAtName(ks: seq<CardLine>, k: nat)
    requires k < |ks| && ks[k].CardName?
    ensures CardsFrom(ks, k) == (if Emits(ks, k) then [CardAt(ks, k)] else []) + CardsFrom(ks, NextCardName(ks, k + 1))
  {
    CardsSkip(ks, k + 1);
  }

  /** What the scan of `parse_bluetooth_cards` holds: the cards pushed, the open card's name, whether it is Bluetooth, and its fields. */
  datatype CardScan = CardScan(cards: seq<BluetoothCard>, name: string, isBluetooth: bool, fields: CardFields)

  /** The open card, if it is to be reported. */
  function PendingCard(s: CardScan): seq<BluetoothCard> {
    if s.isBluetooth && s.name != [] then [MakeCard(s.name, s.fields)] else []
  }

  /** One line: a "Name:" line pushes the open card and resets; other lines count only inside a Bluetooth card. */
  function CardStep(s: CardScan, kind: CardLine): CardScan {
    if kind.CardName? then CardScan(s.cards + PendingCard(s), kind.cardName, IsBluetoothName(kind.cardName), RESET)
    else if !s.isBluetooth then s
    else s.(fields := FieldStep(s.fields, kind))
  }

  /** The scan over the first `n` lines. */
  function ScanCards(ks: seq<CardLine>, n: nat): CardScan
    requires n <= |ks|
  {
    if n == 0 then CardScan([], [], false, RESET) else CardStep(ScanCards(ks, n - 1), ks[n - 1])
  }

  /** The last "Name:" line before `n`, if any. */
  function LastCardName(ks: seq<CardLine>, n: nat): (r: Option<nat>)
    requires n <= |ks|
    ensures r.Some? ==> r.value < n && ks[r.value].CardName?
  {
    if n == 0 then None else if ks[n - 1].CardName? then Some(n - 1) else LastCardName(ks, n - 1)
  }

  lemma {:induction false} NextCardNameAfterLast(ks: seq<CardLine>, n: nat)
    requires n <= |ks| && LastCardName(ks, n).Some?
    ensures NextCardName(ks, LastCardName(ks, n).value + 1) == NextCardName(ks, n)
  {
    if !ks[n - 1].CardName? {
      NextCardNameAfterLast(ks, n - 1);
    }
  }

  /**
   * The scan agrees with the per-card definition: the cards pushed so far followed by those
   * from the open card's "Name:" line on (from `n` on, before any) are all cards, and the
   * fields of an open Bluetooth card are those of its block so far.
   */
  predicate CardsAgree(ks: seq<CardLine>, n: nat)
    requires n <= |ks|
  {
    var s := ScanCards(ks, n);
    (LastCardName(ks, n).None? ==> !s.isBluetooth && s.cards + CardsFrom(ks, n) == CardsFrom(ks, 0))
    && (LastCardName(ks, n).Some? ==> OpenCard(ks, LastCardName(ks, n).value, n, s))
  }

  /** The open card of `s` is the one opened at `k`, read up to `n`, with every card before it pushed. */
  predicate OpenCard(ks: seq<CardLine>, k: nat, n: nat, s: CardScan)
    requires k < n <= |ks|
  {
    ks[k] == CardName(s.name) && s.isBluetooth == IsBluetoothName(s.name)
    && s.cards + CardsFrom(ks, k) == CardsFrom(ks, 0)
    && (s.isBluetooth ==> s.fields == BlockFields(ks, k + 1, n))
  }

  /** Once its block has ended, the open card is the card the definition gives for its "Name:" line. */
  lemma PendingIsCardAt(ks: seq<CardLine>, k: nat, n: nat, s: CardScan)
    requires k < n <= |ks| && OpenCard(ks, k, n, s) && NextCardName(ks, k + 1) == n
    ensures (if Emits(ks, k) then [CardAt(ks, k)] else []) == PendingCard(s)
  {
  }

  /** Pushing the open card when its block ends keeps the cards pushed a prefix of all cards. */
  lemma PushCard(ks: seq<CardLine>, k: nat, n: nat, s: CardScan)
    requires k < n <= |ks| && OpenCard(ks, k, n, s) && NextCardName(ks, k + 1) == n
    ensures (s.cards + PendingCard(s)) + CardsFrom(ks, n) == CardsFrom(ks, 0)
  {
    CardsAtName(ks, k);
    PendingIsCardAt(ks, k, n, s);
    assert s.cards + CardsFrom(ks, k) == (s.cards + PendingCard(s)) + CardsFrom(ks, n);
  }

  lemma {:induction false} ScanCardsInvariant(ks: seq<CardLine>, n: nat)
    requires n <= |ks|
    ensures CardsAgree(ks, n)
  {
    if n > 0 {
      ScanCardsInvariant(ks, n - 1);
      if ks[n - 1].CardName? {
        ScanCardsAtName(ks, n);
      } else {
        assert CardsFrom(ks, n - 1) == CardsFrom(ks, n);
      }
    }
  }

  /** The invariant's step across a "Name:" line: the open card is pushed exactly when the per-card definition reports it. */
  lemma ScanCardsAtName(ks: seq<CardLine>, n: nat)
    requires 0 < n <= |ks| && ks[n - 1].CardName? && CardsAgree(ks, n - 1)
    ensures CardsAgree(ks, n)
  {
    var s := ScanCards(ks, n - 1);
    assert ScanCards(ks, n).cards == s.cards + PendingCard(s);
    if LastCardName(ks, n - 1).Some? {
      var k := LastCardName(ks, n - 1).value;
      assert NextCardName(ks, k + 1) == n - 1 by {
        NextCardNameAfterLast(ks, n - 1);
      }
      PushCard(ks, k, n - 1, s);
    }
    assert LastCardName(ks, n) == Some(n - 1);
  }

  /** The scan's cards, once the last open card is pushed, are exactly the per-card definition. */
  lemma ScanCardsIsCards(ks: seq<CardLine>)
    ensures var s := ScanCards(ks, |ks|); s.cards + PendingCard(s) == CardsFrom(ks, 0)
  {
    ScanCardsInvariant(ks, |ks|);
    var s := ScanCards(ks, |ks|);
    if LastCardName(ks, |ks|).Some? {
      var k := LastCardName(ks, |ks|).value;
      assert NextCardName(ks, k + 1) == |ks| by {
        NextCardNameAfterLast(ks, |ks|);
      }
      PushCard(ks, k, |ks|, s);
    }
    assert CardsFrom(ks, |ks|) == [];
  }

  function SectionOf(inProfilesSection: bool, inSinksSection: bool): Section {
    if inProfilesSection then ProfilesSection else if inSinksSection then SinksSection else NoSection
  }

  /** The scan's step on one trimmed line, case by case as `parse_bluetooth_cards` tests it. */
  lemma CardStepCases(s: CardScan, t: string)
    ensures IsNameLine(t) ==>
      var name := Trim(t[|NAME_KEY|..]);
      CardStep(s, ClassifyCard(t)) == CardScan(s.cards + PendingCard(s), name, IsBluetoothName(name), RESET)
    ensures !IsNameLine(t) && !s.isBluetooth ==> CardStep(s, ClassifyCard(t)) == s
    ensures !IsNameLine(t) && s.isBluetooth && StartsWith(t, PROFILES_KEY) ==>
      CardStep(s, ClassifyCard(t)) == s.(fields := s.fields.(section := ProfilesSection))
    ensures !IsNameLine(t) && s.isBluetooth && !StartsWith(t, PROFILES_KEY) && StartsWith(t, SINKS_KEY) ==>
      CardStep(s, ClassifyCard(t)) == s.(fields := s.fields.(section := SinksSection))
    ensures !IsNameLine(t) && s.isBluetooth && !StartsWith(t, PROFILES_KEY) && !StartsWith(t, SINKS_KEY) ==>
      var f := s.fields;
      CardStep(s, ClassifyCard(t)) == s.(fields := CardFields(
        if DescOf(t).Some? then DescOf(t).value else f.desc,
        if ActiveOf(t).Some? then ActiveOf(t).value else f.profile,
        if f.section == ProfilesSection && ProfileEntry(t).Some? then f.profiles + [ProfileEntry(t).value] else f.profiles,
        if f.section == SinksSection && SinkEntry(t).Some? then f.sinks + [SinkEntry(t).value] else f.sinks,
        f.section))
  {
  }

  /** A "device.description = " line sets the description, an "Active Profile:" line the active profile. */
  method ReadCardProperties(trimmed: string, desc: string, profile: string) returns (desc': string, profile': string)
    ensures desc' == if DescOf(trimmed).Some? then DescOf(trimmed).value else desc
    ensures profile' == if ActiveOf(trimmed).Some? then ActiveOf(trimmed).value else profile
  {
    desc', profile' := desc, profile;
    if StartsWith(trimmed, "device.description = ") {
      desc' := TrimMatches(StripPrefix(trimmed, "device.description = "), '"');
    }
    if StartsWith(trimmed, "Active Profile:") {
      profile' := Trim(StripPrefix(trimmed, "Active Profile:"));
    }
  }

  /** A body line inside the profiles or the sinks section adds its entry there. */
  method ReadSectionLine(trimmed: string, inProfilesSection: bool, inSinksSection: bool, profiles: seq<string>, sinks: seq<string>)
    returns (profiles': seq<string>, sinks': seq<string>)
    ensures profiles' == if inProfilesSection && ProfileEntry(trimmed).Some? then profiles + [ProfileEntry(trimmed).value] else profiles
    ensures sinks' == if inSinksSection && SinkEntry(trimmed).Some? then sinks + [SinkEntry(trimmed).value] else sinks
  {
    profiles', sinks' := profiles, sinks;
    if inProfilesSection {
      var colonPos := Find(trimmed, ':');
      if colonPos.Some? {
        var profileName := Trim(trimmed[..colonPos.value]);
        if profileName != [] && !StartsWith(profileName, "Part of") {
          profiles' := profiles' + [profileName];
        }
      }
    }
    if inSinksSection {
      if Contains(trimmed, "bluez") || StartsWith(trimmed, "#") {
        sinks' := sinks' + [trimmed];
      }
    }
  }

  /**
   * One line of `parse_bluetooth_cards`, on its locals: a "Name:" line pushes the open card
   * when it is Bluetooth and named, then resets every field and section flag; the other
   * lines count only inside a Bluetooth card.
   */
  method ReadCardLine(trimmed: string, cards: seq<BluetoothCard>, name: string, isBluetooth: bool,
                      desc: string, profile: string, profiles: seq<string>, sinks: seq<string>,
                      inProfiles: bool, inSinks: bool)
    returns (cards': seq<BluetoothCard>, name': string, isBluetooth': bool,
             desc': string, profile': string, profiles': seq<string>, sinks': seq<string>,
             inProfiles': bool, inSinks': bool)
    requires !(inProfiles && inSinks)
    ensures !(inProfiles' && inSinks')
    ensures CardScan(cards', name', isBluetooth', CardFields(desc', profile', profiles', sinks', SectionOf(inProfiles', inSinks')))
      == CardStep(CardScan(cards, name, isBluetooth, CardFields(desc, profile, profiles, sinks, SectionOf(inProfiles, inSinks))),
                  ClassifyCard(trimmed))
  {
    ClassifyCardByKey(trimmed);
    CardStepCases(CardScan(cards, name, isBluetooth, CardFields(desc, profile, profiles, sinks, SectionOf(inProfiles, inSinks))), trimmed);
    cards', name', isBluetooth', desc', profile', profiles', sinks', inProfiles', inSinks' :=
      cards, name, isBluetooth, desc, profile, profiles, sinks, inProfiles, inSinks;

    if StartsWith(trimmed, "Name:") {
      if isBluetooth' && name' != [] {
        cards' := cards' + [BluetoothCard(name', desc', profile', profiles', sinks')];
      }
      name' := Trim(StripPrefix(trimmed, "Name:"));
      isBluetooth' := IsBluetoothName(name');
      desc' := "";
      profile' := "";
      profiles' := [];
      sinks' := [];
      inProfiles' := false;
      inSinks' := false;
    }

    if !isBluetooth' {
      return;
    }

    desc', profile' := ReadCardProperties(trimmed, desc', profile');

    if StartsWith(trimmed, "Profiles:") {
      inProfiles' := true;
      inSinks' := false;
      return;
    }

    if StartsWith(trimmed, "Sinks:") {
      inSinks' := true;
      inProfiles' := false;
      return;
    }

    profiles', sinks' := ReadSectionLine(trimmed, inProfiles', inSinks', profiles', sinks');
  }

  /** `parse_bluetooth_cards`: the cards of the listing, each pushed at the next "Name:" line or the end. */
  method ParseBluetoothCards(output: string) returns (cards: seq<BluetoothCard>)
    ensures cards == Cards(TrimAll(Lines(output)))
  {
    var lines := Lines(output);
    ghost var ts := TrimAll(lines);
    ghost var ks := CardKinds(ts);
    cards := [];
    var currentName := "";
    var currentDesc := "";
    var currentProfile := "";
    var currentProfiles: seq<string> := [];
    var currentSinks: seq<string> := [];
    var inProfilesSection := false;
    var inSinksSection := false;
    var isBluetooth := false;

    var i := 0;
    while i < |lines|
      invariant 0 <= i <= |lines|
      invariant !(inProfilesSection && inSinksSection)
      invariant CardScan(cards, currentName, isBluetooth,
        CardFields(currentDesc, currentProfile, currentProfiles, currentSinks, SectionOf(inProfilesSection, inSinksSection)))
        == ScanCards(ks, i)
    {
      var trimmed := Trim(lines[i]);
      TrimAllAt(lines, i);
      CardKindsAt(ts, i);
      cards, currentName, isBluetooth, currentDesc, currentProfile, currentProfiles, currentSinks, inProfilesSection, inSinksSection :=
        ReadCardLine(trimmed, cards, currentName, isBluetooth, currentDesc, currentProfile, currentProfiles, currentSinks,
                     inProfilesSection, inSinksSection);
      i := i + 1;
    }

    ScanCardsIsCards(ks);
    if isBluetooth && currentName != [] {
      cards := cards + [BluetoothCard(currentName, currentDesc, currentProfile, currentProfiles, currentSinks)];
    }
  }

  // ---------------------------------------------------------------------------------------
  // What the parsed cards say

  /** The indices of the "Name:" lines from `from` on that open a reported card. */
  function CardLines(ks: seq<CardLine>, from: nat): (r: seq<nat>)
    requires from <= |ks|
    ensures forall p :: 0 <= p < |r| ==> from <= r[p] < |ks| && ks[r[p]].CardName? && Emits(ks, r[p])
    ensures forall p, q :: 0 <= p < q < |r| ==> r[p] < r[q]
    ensures forall k :: from <= k < |ks| && ks[k].CardName? && Emits(ks, k) ==> k in r
    decreases |ks| - from
  {
    if from == |ks| then []
    else if ks[from].CardName? && Emits(ks, from) then [from] + CardLines(ks, from + 1)
    else CardLines(ks, from + 1)
  }

  /**
   * The cards are exactly those of the "Name:" lines with a non-empty Bluetooth name, one
   * each and in the order of the lines.
   */
  lemma {:induction false} CardsAreCardLines(ks: seq<CardLine>, from: nat)
    requires from <= |ks|
    ensures |CardsFrom(ks, from)| == |CardLines(ks, from)|
    ensures forall p :: 0 <= p < |CardsFrom(ks, from)| ==> CardsFrom(ks, from)[p] == CardAt(ks, CardLines(ks, from)[p])
  {
    CardsCount(ks, from);
    forall p | 0 <= p < |CardsFrom(ks, from)| ensures CardsFrom(ks, from)[p] == CardAt(ks, CardLines(ks, from)[p]) {
      CardOfLine(ks, from, p);
    }
  }

  /** One card per reported "Name:" line. */
  lemma {:induction false} CardsCount(ks: seq<CardLine>, from: nat)
    requires from <= |ks|
    ensures |CardsFrom(ks, from)| == |CardLines(ks, from)|
    decreases |ks| - from
  {
    if from < |ks| {
      CardsCount(ks, from + 1);
    }
  }

  /** The p-th card is the card of the p-th reported "Name:" line. */
  lemma {:induction false} CardOfLine(ks: seq<CardLine>, from: nat, p: nat)
    requires from <= |ks| && p < |CardsFrom(ks, from)| && p < |CardLines(ks, from)|
    ensures CardsFrom(ks, from)[p] == CardAt(ks, CardLines(ks, from)[p])
    decreases |ks| - from
  {
    if ks[from].CardName? && Emits(ks, from) {
      if p > 0 {
        CardOfLine(ks, from + 1, p - 1);
      }
    } else {
      CardOfLine(ks, from + 1, p);
    }
  }

  /** The description is the value of the last description line of the block. */
  lemma {:induction false} LastDescriptionWins(ks: seq<CardLine>, from: nat, to: nat, j: nat)
    requires from <= j < to <= |ks|
    requires ks[j].Body? && ks[j].desc.Some?
    requires forall k :: j < k < to ==> !(ks[k].Body? && ks[k].desc.Some?)
    ensures BlockFields(ks, from, to).desc == ks[j].desc.value
  {
    if to - 1 > j {
      LastDescriptionWins(ks, from, to - 1, j);
    }
  }

  /** Fields reset at each "Name:" line: a block without description lines leaves the description empty. */
  lemma {:induction false} DescriptionResets(ks: seq<CardLine>, from: nat, to: nat)
    requires from <= to <= |ks|
    requires forall k :: from <= k < to ==> !(ks[k].Body? && ks[k].desc.Some?)
    ensures BlockFields(ks, from, to).desc == []
  {
    if to > from {
      DescriptionResets(ks, from, to - 1);
    }
  }

  /** The active profile is the value of the last "Active Profile:" line of the block. */
  lemma {:induction false} LastActiveProfileWins(ks: seq<CardLine>, from: nat, to: nat, j: nat)
    requires from <= j < to <= |ks|
    requires ks[j].Body? && ks[j].active.Some?
    requires forall k :: j < k < to ==> !(ks[k].Body? && ks[k].active.Some?)
    ensures BlockFields(ks, from, to).profile == ks[j].active.value
  {
    if to - 1 > j {
      LastActiveProfileWins(ks, from, to - 1, j);
    }
  }

  /** A block without "Active Profile:" lines leaves the active profile empty. */
  lemma {:induction false} ActiveProfileResets(ks: seq<CardLine>, from: nat, to: nat)
    requires from <= to <= |ks|
    requires forall k :: from <= k < to ==> !(ks[k].Body? && ks[k].active.Some?)
    ensures BlockFields(ks, from, to).profile == []
  {
    if to > from {
      ActiveProfileResets(ks, from, to - 1);
    }
  }

  /**
   * The section line `n` of a block is read in: that of the last "Profiles:" or "Sinks:"
   * header before it in the block, and none before the first header.
   */
  function SectionAt(ks: seq<CardLine>, from: nat, n: nat): Section
    requires from <= n <= |ks|
  {
    if n == from then NoSection
    else if ks[n - 1].ProfilesHeader? then ProfilesSection
    else if ks[n - 1].SinksHeader? then SinksSection
    else SectionAt(ks, from, n - 1)
  }

  /**
   * The profiles of a block are exactly the profile entries of its body lines read in the
   * profiles section; the header line itself adds nothing, and the section lasts until a
   * "Sinks:" header. The sink entries are likewise those read in the sinks section.
   */
  lemma {:induction false} SectionEntries(ks: seq<CardLine>, from: nat, to: nat)
    requires from <= to <= |ks|
    ensures BlockFields(ks, from, to).section == SectionAt(ks, from, to)
    ensures forall p :: p in BlockFields(ks, from, to).profiles <==>
      exists j :: from <= j < to && ks[j].Body? && SectionAt(ks, from, j) == ProfilesSection && ks[j].profileEntry == Some(p)
    ensures forall p :: p in BlockFields(ks, from, to).sinks <==>
      exists j :: from <= j < to && ks[j].Body? && SectionAt(ks, from, j) == SinksSection && ks[j].sinkEntry == Some(p)
  {
    if to > from {
      SectionEntries(ks, from, to - 1);
    }
  }

  // ---------------------------------------------------------------------------------------
  // The decision

  /** The active profile, lower-cased, names a call profile: "hsp", "hfp" or "headset-head-unit". */
  predicate IsHeadsetProfile(profile: string) {
    var lower := ToLower(profile);
    Contains(lower, "hsp") || Contains(lower, "hfp") || Contains(lower, "headset-head-unit")
  }

  /** Some available profile, lower-cased, mentions "a2dp". */
  predicate HasA2dp(card: BluetoothCard) {
    exists k :: 0 <= k < |card.availableProfiles| && Contains(ToLower(card.availableProfiles[k]), "a2dp")
  }

  /** A card is the active output when the default sink's name contains its name or one of its sink entries. */
  predicate IsActive(card: BluetoothCard, defaultSink: string) {
    Contains(defaultSink, card.name) || exists k :: 0 <= k < |card.sinks| && Contains(defaultSink, card.sinks[k])
  }

  predicate AnyActive(cards: seq<BluetoothCard>, defaultSink: string) {
    exists k :: 0 <= k < |cards| && IsActive(cards[k], defaultSink)
  }

  const AVAILABLE: string := "A2DP available"
  const NOT_AVAILABLE: string := "A2DP not available"

  /** The issue reported for a card in a call profile, saying whether A2DP is available. */
  function IssueFor(card: BluetoothCard): string {
    "'" + card.description + "' is in call/headset mode (" + card.activeProfile + "), "
    + (if HasA2dp(card) then AVAILABLE else NOT_AVAILABLE)
  }

  /** One issue per card in a call profile, in the order of the cards. */
  function Issues(cards: seq<BluetoothCard>): (r: seq<string>)
    ensures |r| <= |cards|
  {
    if cards == [] then []
    else
      var last := cards[|cards| - 1];
      Issues(cards[..|cards| - 1]) + (if IsHeadsetProfile(last.activeProfile) then [IssueFor(last)] else [])
  }

  /** `check_bluetooth_profile`'s loop over the cards: the issues, and whether any card is the active output. */
  method CollectIssues(cards: seq<BluetoothCard>, defaultSink: string) returns (issues: seq<string>, hasActiveBt: bool)
    ensures issues == Issues(cards)
    ensures hasActiveBt == AnyActive(cards, defaultSink)
  {
    issues := [];
    hasActiveBt := false;
    var i := 0;
    while i < |cards|
      invariant 0 <= i <= |cards|
      invariant issues == Issues(cards[..i])
      invariant hasActiveBt == AnyActive(cards[..i], defaultSink)
    {
      var card := cards[i];
      assert cards[..i + 1][..i] == cards[..i] && cards[..i + 1][i] == card;
      assert Issues(cards[..i + 1]) == issues + (if IsHeadsetProfile(card.activeProfile) then [IssueFor(card)] else []);
      var isActive := IsActive(card, defaultSink);
      if isActive {
        hasActiveBt := true;
      }
      var isHspHfp := IsHeadsetProfile(card.activeProfile);
      var hasA2dp := HasA2dp(card);
      if isHspHfp {
        var head := "'" + card.description + "' is in call/headset mode (" + card.activeProfile + "), ";
        if hasA2dp {
          issues := issues + [head + "A2DP available"];
        } else {
          issues := issues + [head + "A2DP not available"];
        }
      }
      assert AnyActive(cards[..i + 1], defaultSink) == (AnyActive(cards[..i], defaultSink) || isActive) by {
        if isActive {
          assert cards[..i + 1][i] == card;
        }
      }
      i := i + 1;
    }
    assert cards[..|cards|] == cards;
  }

  /** Every card in a call profile has its issue, and every issue is such a card's. */
  lemma IssuesAreHeadsetCards(cards: seq<BluetoothCard>)
    ensures forall k :: 0 <= k < |cards| && IsHeadsetProfile(cards[k].activeProfile) ==> IssueFor(cards[k]) in Issues(cards)
    ensures forall i :: 0 <= i < |Issues(cards)| ==>
      exists k :: 0 <= k < |cards| && IsHeadsetProfile(cards[k].activeProfile) && Issues(cards)[i] == IssueFor(cards[k])
  {
    forall k | 0 <= k < |cards| && IsHeadsetProfile(cards[k].activeProfile) ensures IssueFor(cards[k]) in Issues(cards) {
      IssueListed(cards, k);
    }
    forall i | 0 <= i < |Issues(cards)|
      ensures exists k :: 0 <= k < |cards| && IsHeadsetProfile(cards[k].activeProfile) && Issues(cards)[i] == IssueFor(cards[k])
    {
      var k := IssueSource(cards, i);
      assert 0 <= k < |cards| && IsHeadsetProfile(cards[k].activeProfile) && Issues(cards)[i] == IssueFor(cards[k]);
    }
  }

  /** The issues of all cards: those of all but the last, then the last card's, if any. */
  lemma IssuesSplit(cards: seq<BluetoothCard>)
    requires cards != []
    ensures var last := cards[|cards| - 1];
      Issues(cards) == Issues(cards[..|cards| - 1]) + (if IsHeadsetProfile(last.activeProfile) then [IssueFor(last)] else [])
  {
  }

  /** A card in a call profile has its issue in the list. */
  lemma {:induction false} IssueListed(cards: seq<BluetoothCard>, k: nat)
    requires k < |cards| && IsHeadsetProfile(cards[k].activeProfile)
    ensures IssueFor(cards[k]) in Issues(cards)
    decreases |cards|
  {
    var init := cards[..|cards| - 1];
    IssuesSplit(cards);
    if k < |init| {
      IssueListed(init, k);
      assert init[k] == cards[k];
    }
  }

  /** Each issue is that of a card in a call profile: the card at the returned position. */
  lemma {:induction false} IssueSource(cards: seq<BluetoothCard>, i: nat) returns (k: nat)
    requires i < |Issues(cards)|
    ensures k < |cards| && IsHeadsetProfile(cards[k].activeProfile) && Issues(cards)[i] == IssueFor(cards[k])
    decreases |cards|
  {
    if cards == [] {
      assert false;
    }
    var init := cards[..|cards| - 1];
    IssuesSplit(cards);
    if i < |Issues(init)| {
      k := IssueSource(init, i);
      assert init[k] == cards[k];
    } else {
      k := |cards| - 1;
    }
  }

  /** The positions of the cards in a call profile, in increasing order, all of them. */
  function HeadsetCards(cards: seq<BluetoothCard>): (r: seq<nat>)
    ensures forall p :: 0 <= p < |r| ==> r[p] < |cards| && IsHeadsetProfile(cards[r[p]].activeProfile)
    ensures forall p, q :: 0 <= p < q < |r| ==> r[p] < r[q]
    ensures forall k :: 0 <= k < |cards| && IsHeadsetProfile(cards[k].activeProfile) ==> k in r
  {
    if cards == [] then []
    else
      var init := cards[..|cards| - 1];
      assert forall k :: 0 <= k < |init| ==> init[k] == cards[k];
      HeadsetCards(init) + (if IsHeadsetProfile(cards[|cards| - 1].activeProfile) then [|cards| - 1] else [])
  }

  /**
   * Exactly one issue per card in a call profile, in the order of the cards: the p-th issue
   * is that of the p-th such card.
   */
  lemma {:induction false} IssuesInCardOrder(cards: seq<BluetoothCard>)
    ensures |Issues(cards)| == |HeadsetCards(cards)|
    ensures forall p :: 0 <= p < |Issues(cards)| ==> Issues(cards)[p] == IssueFor(cards[HeadsetCards(cards)[p]])
    decreases |cards|
  {
    if cards != [] {
      var init := cards[..|cards| - 1];
      IssuesSplit(cards);
      IssuesInCardOrder(init);
      assert HeadsetCards(cards)[..|HeadsetCards(init)|] == HeadsetCards(init);
      forall p | 0 <= p < |Issues(init)| ensures Issues(cards)[p] == IssueFor(cards[HeadsetCards(cards)[p]]) {
        assert HeadsetCards(cards)[p] == HeadsetCards(init)[p];
        assert init[HeadsetCards(init)[p]] == cards[HeadsetCards(init)[p]];
      }
    }
  }

  /** There are no issues exactly when no card is in a call profile. */
  lemma {:induction false} NoIssuesIff(cards: seq<BluetoothCard>)
    ensures Issues(cards) == [] <==> forall k :: 0 <= k < |cards| ==> !IsHeadsetProfile(cards[k].activeProfile)
  {
    IssuesAreHeadsetCards(cards);
    if Issues(cards) != [] {
      var k :| 0 <= k < |cards| && IsHeadsetProfile(cards[k].activeProfile) && Issues(cards)[0] == IssueFor(cards[k]);
    }
  }

  /** An issue ends in ", A2DP available" exactly when the card offers an A2DP profile. */
  lemma IssueSaysAvailable(card: BluetoothCard)
    ensures EndsWith(IssueFor(card), ", " + AVAILABLE) <==> HasA2dp(card)
  {
    var head := "'" + card.description + "' is in call/headset mode (" + card.activeProfile + "), ";
    var tail := ", " + AVAILABLE;
    if HasA2dp(card) {
      assert IssueFor(card) == head[..|head| - 2] + tail;
    } else {
      var s := IssueFor(card);
      assert s == head + NOT_AVAILABLE;
      assert s[|s| - |tail|..] == NOT_AVAILABLE[2..];
      assert NOT_AVAILABLE[2] != tail[0];
    }
  }

  const NO_LISTING: string := "No Bluetooth audio issues (cannot list cards)"
  const NO_CARDS: string := "No Bluetooth audio devices connected"
  const CALL_MODE: string := "Bluetooth headset in call mode: "
  const SWITCH_TO_A2DP: string := "Switch Bluetooth profile to A2DP (high-quality audio) in sound settings"
  const LOW_QUALITY: string := "Bluetooth in low-quality mode: "
  const MAY_NOT_SUPPORT: string := "A2DP profile may not be available. Check if device supports it."
  const NOT_ACTIVE: string := "Bluetooth device in call mode but not active output: "
  const SWITCH_IF_USING: string := "If using Bluetooth, switch profile to A2DP for better quality"
  const OPTIMAL: string := "Bluetooth audio profile is optimal (A2DP)"
  const CORRECT_PROFILE: string := "Bluetooth device connected with correct profile"
  const NO_ISSUES: string := "No Bluetooth audio issues"

  /**
   * The closing ladder of `check_bluetooth_profile` over the parsed cards, given whether an
   * issue counts as "A2DP available": Error needs that and an active card; other issues warn;
   * without issues the result is Ok.
   */
  function Verdict(cards: seq<BluetoothCard>, defaultSink: string, a2dpAvailable: bool): CheckResult {
    if cards == [] then OkResult(CHECK_NAME, NO_CARDS)
    else
      var issues := Issues(cards);
      var active := AnyActive(cards, defaultSink);
      if issues != [] then
        if a2dpAvailable && active then ErrorResult(CHECK_NAME, CALL_MODE + Join(issues, "; "), SWITCH_TO_A2DP)
        else if active then WarningResult(CHECK_NAME, LOW_QUALITY + Join(issues, "; "), MAY_NOT_SUPPORT)
        else WarningResult(CHECK_NAME, NOT_ACTIVE + Join(issues, "; "), SWITCH_IF_USING)
      else
        OkResult(CHECK_NAME, if active then OPTIMAL else if cards != [] then CORRECT_PROFILE else NO_ISSUES)
  }

  /** Some issue text mentions "A2DP available": the test as written. */
  predicate MentionsAvailable(issues: seq<string>) {
    exists k :: 0 <= k < |issues| && Contains(issues[k], AVAILABLE)
  }

  /** Some card in a call profile offers A2DP: what the issue texts are meant to record. */
  predicate HeadsetWithA2dp(cards: seq<BluetoothCard>) {
    exists k :: 0 <= k < |cards| && IsHeadsetProfile(cards[k].activeProfile) && HasA2dp(cards[k])
  }

  /** The decision as written: "A2DP available" is looked for in the issue texts. */
  function AssessCardsAsWritten(cards: seq<BluetoothCard>, defaultSink: string): CheckResult {
    Verdict(cards, defaultSink, MentionsAvailable(Issues(cards)))
  }

  /** The decision as intended: "A2DP available" means a card in a call profile offers A2DP. */
  function AssessCards(cards: seq<BluetoothCard>, defaultSink: string): CheckResult {
    Verdict(cards, defaultSink, HeadsetWithA2dp(cards))
  }

  /**
   * A card whose description reads "A2DP available" but which offers no A2DP profile makes
   * the decision as written report an Error asking to switch to A2DP; the intended decision warns.
   */
  lemma AsWrittenMisreadsDescription()
    ensures var card := BluetoothCard("bluez_card.00_11", AVAILABLE, "hsp", [], ["bluez_sink.00_11"]);
      !HeadsetWithA2dp([card])
      && AssessCardsAsWritten([card], "bluez_sink.00_11").status == Error
      && AssessCards([card], "bluez_sink.00_11").status == Warning
  {
    var card := BluetoothCard("bluez_card.00_11", AVAILABLE, "hsp", [], ["bluez_sink.00_11"]);
    assert ToLower("hsp") == "hsp";
    assert OccursAt(ToLower("hsp"), "hsp", 0);
    assert IsHeadsetProfile(card.activeProfile);
    assert !HasA2dp(card);
    var issue := IssueFor(card);
    assert issue == "'" + AVAILABLE + ("' is in call/headset mode (" + card.activeProfile + "), " + NOT_AVAILABLE);
    ContainsInfix("'", AVAILABLE, "' is in call/headset mode (" + card.activeProfile + "), " + NOT_AVAILABLE);
    assert Issues([card]) == [issue];
    assert Contains(Issues([card])[0], AVAILABLE);
    assert OccursAt("bluez_sink.00_11", card.sinks[0], 0);
    assert IsActive(card, "bluez_sink.00_11");
    assert AnyActive([card], "bluez_sink.00_11");
  }

  /** With the intended reading, the result is an Error exactly when an active card exists and a card in a call profile offers A2DP. */
  lemma {:induction false} ErrorIff(cards: seq<BluetoothCard>, defaultSink: string)
    ensures AssessCards(cards, defaultSink).status == Error <==>
      AnyActive(cards, defaultSink) && HeadsetWithA2dp(cards)
  {
    if HeadsetWithA2dp(cards) {
      var k :| 0 <= k < |cards| && IsHeadsetProfile(cards[k].activeProfile) && HasA2dp(cards[k]);
      NoIssuesIff(cards);
    }
  }

  /** As written, the result is an Error exactly when a card is the active output and some issue text mentions "A2DP available". */
  lemma AsWrittenErrorIff(cards: seq<BluetoothCard>, defaultSink: string)
    ensures AssessCardsAsWritten(cards, defaultSink).status == Error <==>
      AnyActive(cards, defaultSink) && MentionsAvailable(Issues(cards))
  {
  }

  /**
   * The intended Error is always an Error as written: the issue of a card in a call profile
   * that offers A2DP ends in "A2DP available". The converse fails (`AsWrittenMisreadsDescription`).
   */
  lemma IntendedErrorIsAsWrittenError(cards: seq<BluetoothCard>, defaultSink: string)
    ensures AssessCards(cards, defaultSink).status == Error ==> AssessCardsAsWritten(cards, defaultSink).status == Error
  {
    if AssessCards(cards, defaultSink).status == Error {
      ErrorIff(cards, defaultSink);
      var k :| 0 <= k < |cards| && IsHeadsetProfile(cards[k].activeProfile) && HasA2dp(cards[k]);
      IssueListed(cards, k);
      var i :| 0 <= i < |Issues(cards)| && Issues(cards)[i] == IssueFor(cards[k]);
      var head := "'" + cards[k].description + "' is in call/headset mode (" + cards[k].activeProfile + "), ";
      assert IssueFor(cards[k]) == head + AVAILABLE + "";
      ContainsInfix(head, AVAILABLE, "");
      assert MentionsAvailable(Issues(cards));
      AsWrittenErrorIff(cards, defaultSink);
    }
  }

  /** Issues with no active card always warn, whatever the reading of "A2DP available". */
  lemma InactiveIssuesWarn(cards: seq<BluetoothCard>, defaultSink: string, a2dpAvailable: bool)
    requires Issues(cards) != [] && !AnyActive(cards, defaultSink)
    ensures Verdict(cards, defaultSink, a2dpAvailable).status == Warning
    ensures Verdict(cards, defaultSink, a2dpAvailable).message == NOT_ACTIVE + Join(Issues(cards), "; ")
  {
  }

  /** Without issues the result is Ok, and optimal exactly when a card is the active output. */
  lemma NoIssuesIsOk(cards: seq<BluetoothCard>, defaultSink: string, a2dpAvailable: bool)
    requires cards != [] && Issues(cards) == []
    ensures Verdict(cards, defaultSink, a2dpAvailable).status == Ok
    ensures Verdict(cards, defaultSink, a2dpAvailable).message == OPTIMAL <==> AnyActive(cards, defaultSink)
  {
  }

  /** The cards `check_bluetooth_profile` finds. */
  function FoundCards(listCards: CommandOutput): seq<BluetoothCard> {
    Cards(TrimAll(Lines(listCards.stdout)))
  }

  /** The keys whose lines the evidence keeps. */
  const EVIDENCE_KEYS: seq<string> := ["Name:", "bluez", "bluetooth", "Active Profile:", "a2dp", "hsp", "hfp", "headset"]

  /** The evidence: the lines of the card listing mentioning any of the keys. */
  function BluetoothEvidence(listCards: CommandOutput): string {
    "pactl list cards (bluetooth info):\n" + Join(LinesContainingAny(Lines(listCards.stdout), EVIDENCE_KEYS), "\n") + "\n"
  }

  /**
   * `check_bluetooth_profile`, given the outputs of `pactl get-default-sink` and `pactl list
   * cards`; it always attaches the evidence, and reads the default sink without checking it.
   * As in the program, "A2DP available" is looked for in the issue texts.
   */
  function CheckBluetoothProfile(getDefault: CommandOutput, listCards: CommandOutput): (r: CheckResult)
    ensures r.name == CHECK_NAME
    ensures r.debugInfo == Some(BluetoothEvidence(listCards))
    ensures !listCards.success ==> r.status == Ok && r.message == NO_LISTING
    ensures listCards.success ==>
      (r.status == Error <==>
        AnyActive(FoundCards(listCards), Trim(getDefault.stdout)) && MentionsAvailable(Issues(FoundCards(listCards))))
    ensures listCards.success ==>
      (r.status == Ok <==> Issues(FoundCards(listCards)) == [])
  {
    if !listCards.success then WithDebug(OkResult(CHECK_NAME, NO_LISTING), BluetoothEvidence(listCards))
    else
      AsWrittenErrorIff(FoundCards(listCards), Trim(getDefault.stdout));
      WithDebug(AssessCardsAsWritten(FoundCards(listCards), Trim(getDefault.stdout)), BluetoothEvidence(listCards))
  }

  /** A listing without Bluetooth cards is Ok, whatever the default sink. */
  lemma NoCardsIsOk(getDefault: CommandOutput, listCards: CommandOutput, other: CommandOutput)
    requires listCards.success && FoundCards(listCards) == []
    ensures var r := CheckBluetoothProfile(getDefault, listCards);
      r.status == Ok && r.message == NO_CARDS && r == CheckBluetoothProfile(other, listCards)
  {
  }

  /** The last Ok message is never produced: the cards are known to be non-empty there. */
  lemma NoIssuesMessageUnreachable(getDefault: CommandOutput, listCards: CommandOutput)
    ensures CheckBluetoothProfile(getDefault, listCards).message != NO_ISSUES
  {
    if listCards.success {
      VerdictNeverSaysNoIssues(FoundCards(listCards), Trim(getDefault.stdout), MentionsAvailable(Issues(FoundCards(listCards))));
    }
  }

  /** No verdict, whatever the reading of "A2DP available", carries the bare "No Bluetooth audio issues" message. */
  lemma VerdictNeverSaysNoIssues(cards: seq<BluetoothCard>, defaultSink: string, a2dpAvailable: bool)
    ensures Verdict(cards, defaultSink, a2dpAvailable).message != NO_ISSUES
  {
    var tail := Join(Issues(cards), "; ");
    assert (CALL_MODE + tail)[0] == 'B';
    assert (LOW_QUALITY + tail)[0] == 'B';
    assert (NOT_ACTIVE + tail)[0] == 'B';
  }
}

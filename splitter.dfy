/**
 * The two entry points of the splitter. `split_parts` writes one file per
 * detected (or overridden) voice type; `split_satb` chooses a layout
 * strategy from the number of parts: four parts map directly to SATB, two
 * parts are two grand staves split at middle C, anything else goes through
 * the heuristic (noise filter, piano detection, fused-voice detection, then
 * a combined-pair split, a range ordering or positional labels).
 *
 * Writing files is left to the caller: each result records the file name
 * and the score that would be written to it.
 */
module Splitter {
  import opened Document
  import opened Text
  import opened Sorting
  import opened Statistics
  import opened Decompose
  import opened Classify
  import opened Assemble
  import opened Results

  /** What is written for one key: the file name (inside the output directory) and the score. */
  datatype Output = Output(file: string, score: Score)

  function FileName(tag: string): string {
    tag + ".musicxml"
  }

  // ---------------------------------------------------------------------
  // split_parts

  /** `voice_types[i]` when the caller gives one, otherwise the detected type. */
  function ChosenType(s: Score, overrides: map<int, VoiceType>, i: int): VoiceType
    requires 0 <= i < |s.parts|
  {
    if i in overrides then overrides[i] else DetectVoiceType(s.parts[i], i, |s.parts|)
  }

  /** What `split_parts` writes for part `i`: its extraction under its type, with the score's metadata. */
  function PartOutput(s: Score, overrides: map<int, VoiceType>, i: int): Output
    requires 0 <= i < |s.parts|
  {
    var vt := ChosenType(s, overrides, i);
    Output(FileName(Value(vt)), Score(s.metadata, [Extracted(s.parts[i], None, vt)]))
  }

  /** The voice types of the first `n` parts, in score order. */
  function ChosenTypes(s: Score, overrides: map<int, VoiceType>, n: nat): (r: seq<VoiceType>)
    requires n <= |s.parts|
    ensures |r| == n
  {
    if n == 0 then [] else ChosenTypes(s, overrides, n - 1) + [ChosenType(s, overrides, n - 1)]
  }

  /** What is written for each of the first `n` parts, in score order. */
  function PartOutputs(s: Score, overrides: map<int, VoiceType>, n: nat): (r: seq<Output>)
    requires n <= |s.parts|
    ensures |r| == n
  {
    if n == 0 then [] else PartOutputs(s, overrides, n - 1) + [PartOutput(s, overrides, n - 1)]
  }

  lemma {:induction false} ChosenTypesAt(s: Score, overrides: map<int, VoiceType>, n: nat, i: int)
    requires n <= |s.parts| && 0 <= i < n
    ensures ChosenTypes(s, overrides, n)[i] == ChosenType(s, overrides, i)
    ensures PartOutputs(s, overrides, n)[i] == PartOutput(s, overrides, i)
  {
    ChosenTypeAt(s, overrides, n, i);
    PartOutputAt(s, overrides, n, i);
  }

  lemma {:induction false} ChosenTypeAt(s: Score, overrides: map<int, VoiceType>, n: nat, i: int)
    requires n <= |s.parts| && 0 <= i < n
    ensures ChosenTypes(s, overrides, n)[i] == ChosenType(s, overrides, i)
  {
    var prefix := ChosenTypes(s, overrides, n - 1);
    assert ChosenTypes(s, overrides, n) == prefix + [ChosenType(s, overrides, n - 1)];
    if i < n - 1 {
      ChosenTypeAt(s, overrides, n - 1, i);
      assert prefix[i] == ChosenType(s, overrides, i);
    }
  }

  lemma {:induction false} PartOutputAt(s: Score, overrides: map<int, VoiceType>, n: nat, i: int)
    requires n <= |s.parts| && 0 <= i < n
    ensures PartOutputs(s, overrides, n)[i] == PartOutput(s, overrides, i)
  {
    var prefix := PartOutputs(s, overrides, n - 1);
    assert PartOutputs(s, overrides, n) == prefix + [PartOutput(s, overrides, n - 1)];
    if i < n - 1 {
      PartOutputAt(s, overrides, n - 1, i);
      assert prefix[i] == PartOutput(s, overrides, i);
    }
  }

  /** The dictionary `split_parts` returns: each part stored under its type, later parts overwriting. */
  function PartsLayout(s: Score, overrides: map<int, VoiceType>): map<VoiceType, Output> {
    Keyed(ChosenTypes(s, overrides, |s.parts|), PartOutputs(s, overrides, |s.parts|))
  }

  /** `split_parts`: every part extracted and stored under its voice type. */
  method SplitParts(s: Score, overrides: map<int, VoiceType>) returns (results: map<VoiceType, Output>)
    ensures results == PartsLayout(s, overrides)
  {
    results := map[];
    var total := |s.parts|;
    var i := 0;
    while i < total
      invariant 0 <= i <= total
      invariant results == Keyed(ChosenTypes(s, overrides, i), PartOutputs(s, overrides, i))
    {
      var part := s.parts[i];
      var vt;
      if i in overrides {
        vt := overrides[i];
      } else {
        vt := DetectVoiceType(part, i, total);
      }
      var extracted := ExtractVoice(part, None, vt);
      var out := Output(FileName(Value(vt)), Score(s.metadata, [extracted]));
      assert out == PartOutput(s, overrides, i);
      KeyedStep(ChosenTypes(s, overrides, i + 1), PartOutputs(s, overrides, i + 1), i);
      assert ChosenTypes(s, overrides, i + 1)[..i] == ChosenTypes(s, overrides, i);
      assert PartOutputs(s, overrides, i + 1)[..i] == PartOutputs(s, overrides, i);
      results := results[vt := out];
      i := i + 1;
    }
  }

  /**
   * Keys are voice types, so parts of the same type overwrite each other: a
   * type has a result exactly when some part has it, and that result is the
   * output of the LAST part of the type.
   */
  lemma SplitPartsLastWins(s: Score, overrides: map<int, VoiceType>, vt: VoiceType)
    ensures vt in PartsLayout(s, overrides) <==> exists i :: 0 <= i < |s.parts| && ChosenType(s, overrides, i) == vt
    ensures vt in PartsLayout(s, overrides) ==>
      exists i :: 0 <= i < |s.parts| && ChosenType(s, overrides, i) == vt
        && PartsLayout(s, overrides)[vt] == PartOutput(s, overrides, i)
        && forall j :: i < j < |s.parts| ==> ChosenType(s, overrides, j) != vt
  {
    var n := |s.parts|;
    var types, outs := ChosenTypes(s, overrides, n), PartOutputs(s, overrides, n);
    KeyedLastWins(types, outs, vt);
    var last := LastIndex(types, vt);
    if last.Some? {
      var i := last.value;
      ChosenTypesAt(s, overrides, n, i);
      forall j | i < j < n ensures ChosenType(s, overrides, j) != vt {
        ChosenTypesAt(s, overrides, n, j);
      }
    } else {
      forall i | 0 <= i < n ensures ChosenType(s, overrides, i) != vt {
        ChosenTypesAt(s, overrides, n, i);
      }
    }
  }

  /** What the surviving result holds: the part's extraction under its type, in "<type>.musicxml", with the score's metadata. */
  lemma PartOutputIsExtraction(s: Score, overrides: map<int, VoiceType>, i: int)
    requires 0 <= i < |s.parts|
    ensures var o := PartOutput(s, overrides, i);
      var vt := ChosenType(s, overrides, i);
      && o.file == Value(vt) + ".musicxml"
      && o.score.metadata == s.metadata
      && o.score.parts == [Extracted(s.parts[i], None, vt)]
      && DirectEvents(o.score.parts[0].measures) == DirectEvents(s.parts[i].measures)
      && (i in overrides ==> vt == overrides[i])
  {
    ExtractedKeepsDirectEvents(s.parts[i].measures);
  }

  // ---------------------------------------------------------------------
  // Labelled results of split_satb

  const SatbNames: seq<string> := ["soprano", "alto", "tenor", "bass"]

  /** Parts with fewer pitched events than this are ignored by the heuristic (intros, outros). */
  const NoiseFloor: nat := 50

  /** What `split_satb` writes for a tag: a fresh score holding the part alone, without metadata. */
  function Written(tag: string, p: Part): Output {
    Output(FileName(tag), Score(None, [p]))
  }

  /** `part.partName = name.capitalize()`. */
  function Renamed(p: Part, tag: string): Part {
    p.(name := Some(Capitalize(tag)))
  }

  /** What a save loop writes for each position: `labels[i]` with `parts[i]`. */
  function WrittenEach(labels: seq<string>, parts: seq<Part>): seq<Output>
    requires |labels| == |parts|
  {
    seq(|labels|, i requires 0 <= i < |labels| => Written(labels[i], parts[i]))
  }

  /** The results of one `for part, name in ...` save loop of `split_satb`. */
  function Assign(labels: seq<string>, parts: seq<Part>): map<string, Output>
    requires |labels| == |parts|
  {
    Keyed(labels, WrittenEach(labels, parts))
  }

  /** With distinct labels, every label receives its own part; the keys are exactly the labels. */
  lemma AssignAt(labels: seq<string>, parts: seq<Part>, i: int)
    requires |labels| == |parts| && Distinct(labels) && 0 <= i < |labels|
    ensures Assign(labels, parts).Keys == set l | l in labels
    ensures Assign(labels, parts)[labels[i]] == Written(labels[i], parts[i])
  {
    KeyedDistinctAt(labels, WrittenEach(labels, parts), i);
  }

  /** One more iteration of a save loop. */
  lemma AssignStep(labels: seq<string>, parts: seq<Part>, i: int)
    requires |labels| == |parts| && 0 <= i < |labels|
    ensures Assign(labels[..i + 1], parts[..i + 1]) == Assign(labels[..i], parts[..i])[labels[i] := Written(labels[i], parts[i])]
  {
    var outs := WrittenEach(labels, parts);
    KeyedStep(labels, outs, i);
    assert WrittenEach(labels[..i + 1], parts[..i + 1]) == outs[..i + 1];
    assert WrittenEach(labels[..i], parts[..i]) == outs[..i];
  }

  /** The four fixed SATB save loops: each name receives its own part. */
  lemma AssignSatb(outs: seq<Part>)
    requires |outs| == 4
    ensures var r := Assign(SatbNames, outs);
      && r.Keys == {"soprano", "alto", "tenor", "bass"}
      && r["soprano"] == Written("soprano", outs[0]) && r["alto"] == Written("alto", outs[1])
      && r["tenor"] == Written("tenor", outs[2]) && r["bass"] == Written("bass", outs[3])
  {
    assert Distinct(SatbNames);
    AssignAt(SatbNames, outs, 0);
    AssignAt(SatbNames, outs, 1);
    AssignAt(SatbNames, outs, 2);
    AssignAt(SatbNames, outs, 3);
    assert (set l | l in SatbNames) == {"soprano", "alto", "tenor", "bass"};
  }

  /** `f"{prefix}{i+1}"` for `i` below `n`. */
  function NumberedLabels(prefix: string, n: nat): (r: seq<string>)
    ensures |r| == n
  {
    if n == 0 then [] else NumberedLabels(prefix, n - 1) + [prefix + NatToString(n)]
  }

  lemma {:induction false} NumberedLabelsAt(prefix: string, n: nat, i: int)
    requires 0 <= i < n
    ensures NumberedLabels(prefix, n)[i] == prefix + NatToString(i + 1)
  {
    if i < n - 1 {
      NumberedLabelsAt(prefix, n - 1, i);
    }
  }

  /** Numbered labels never repeat, because decimal numerals are unique. */
  lemma NumberedLabelsDistinct(prefix: string, n: nat)
    ensures Distinct(NumberedLabels(prefix, n))
  {
    var labels := NumberedLabels(prefix, n);
    forall i, j | 0 <= i < j < n ensures labels[i] != labels[j] {
      NumberedLabelsAt(prefix, n, i);
      NumberedLabelsAt(prefix, n, j);
      if labels[i] == labels[j] {
        NumberedLabelInjective(prefix, i + 1, j + 1);
      }
    }
  }

  /** The names of the piano files: "piano" for a single piano part, otherwise numbered. */
  function PianoLabels(n: nat): (r: seq<string>)
    ensures |r| == n
  {
    if n == 1 then ["piano"] else NumberedLabels("piano_", n)
  }

  // ---------------------------------------------------------------------
  // Strategy: four parts

  /** `VoiceType(name)` for the four SATB names. */
  function SatbType(i: int): VoiceType
    requires 0 <= i < 4
  {
    FromValue(SatbNames[i]).value
  }

  function DirectLayout(parts: seq<Part>): map<string, Output>
    requires |parts| == 4
  {
    Assign(SatbNames, [Extracted(parts[0], None, SatbType(0)), Extracted(parts[1], None, SatbType(1)),
                       Extracted(parts[2], None, SatbType(2)), Extracted(parts[3], None, SatbType(3))])
  }

  /**
   * Four parts are taken to be soprano, alto, tenor and bass in score order:
   * the i-th part is extracted, all its direct notes kept, under the i-th name.
   */
  lemma DirectLayoutMapsInOrder(parts: seq<Part>, i: int)
    requires |parts| == 4 && 0 <= i < 4
    ensures DirectLayout(parts).Keys == {"soprano", "alto", "tenor", "bass"}
    ensures Value(SatbType(i)) == SatbNames[i]
    ensures DirectLayout(parts)[SatbNames[i]] == Written(SatbNames[i], Extracted(parts[i], None, SatbType(i)))
    ensures DirectEvents(DirectLayout(parts)[SatbNames[i]].score.parts[0].measures) == DirectEvents(parts[i].measures)
  {
    var outs := [Extracted(parts[0], None, SatbType(0)), Extracted(parts[1], None, SatbType(1)),
                 Extracted(parts[2], None, SatbType(2)), Extracted(parts[3], None, SatbType(3))];
    AssignAt(SatbNames, outs, i);
    ExtractedKeepsDirectEvents(parts[i].measures);
  }

  // ---------------------------------------------------------------------
  // Strategy: two parts

  function GrandStaffLayout(parts: seq<Part>): map<string, Output>
    requires |parts| == 2
  {
    var (u1, l1) := GrandStaffSplit(parts[0]);
    var (u2, l2) := GrandStaffSplit(parts[1]);
    Assign(SatbNames, [Renamed(u1, "soprano"), Renamed(l1, "alto"), Renamed(u2, "tenor"), Renamed(l2, "bass")])
  }

  /** The direct pitches of a written result's single part. */
  function WrittenPitches(o: Output): seq<int>
    requires |o.score.parts| == 1
  {
    PlacedPitches(DirectEvents(o.score.parts[0].measures))
  }

  /**
   * Two parts are two grand staves: the first stave's pitches are divided
   * between soprano (middle C and above) and alto (below), the second's
   * between tenor and bass, with nothing lost.
   */
  lemma GrandStaffLayoutDividesStaves(parts: seq<Part>)
    requires |parts| == 2
    ensures var r := GrandStaffLayout(parts);
      && r.Keys == {"soprano", "alto", "tenor", "bass"}
      && r["soprano"].score.parts == [Renamed(GrandStaffSplit(parts[0]).0, "soprano")]
      && r["alto"].score.parts == [Renamed(GrandStaffSplit(parts[0]).1, "alto")]
      && r["tenor"].score.parts == [Renamed(GrandStaffSplit(parts[1]).0, "tenor")]
      && r["bass"].score.parts == [Renamed(GrandStaffSplit(parts[1]).1, "bass")]
      && multiset(WrittenPitches(r["soprano"])) + multiset(WrittenPitches(r["alto"]))
         == multiset(PlacedPitches(DirectEvents(parts[0].measures)))
      && multiset(WrittenPitches(r["tenor"])) + multiset(WrittenPitches(r["bass"]))
         == multiset(PlacedPitches(DirectEvents(parts[1].measures)))
      && (forall q :: q in WrittenPitches(r["soprano"]) ==> q >= MiddleC)
      && (forall q :: q in WrittenPitches(r["alto"]) ==> q < MiddleC)
      && (forall q :: q in WrittenPitches(r["tenor"]) ==> q >= MiddleC)
      && (forall q :: q in WrittenPitches(r["bass"]) ==> q < MiddleC)
  {
    var (u1, l1) := GrandStaffSplit(parts[0]);
    var (u2, l2) := GrandStaffSplit(parts[1]);
    AssignSatb([Renamed(u1, "soprano"), Renamed(l1, "alto"), Renamed(u2, "tenor"), Renamed(l2, "bass")]);
    GrandStaffConservesPitches(parts[0]);
    GrandStaffConservesPitches(parts[1]);
  }

  // ---------------------------------------------------------------------
  // Strategy: heuristic

  /** `str(part.getInstrument())`, empty when the part has no instrument. */
  function InstrumentText(p: Part): string {
    if p.instrument.Some? then p.instrument.value else ""
  }

  /** `'Piano' in str(inst) or 'piano' in (part.partName or '').lower()`. */
  predicate IsPianoPart(p: Part) {
    Contains(InstrumentText(p), "Piano") || Contains(Lower(NameText(p)), "piano")
  }

  /** The part has at least `NoiseFloor` pitched events. */
  predicate Audible(p: Part) {
    |Notes(p)| >= NoiseFloor
  }

  /** The audible non-piano parts, in score order. */
  function VoiceParts(ps: seq<Part>): seq<Part> {
    if ps == [] then []
    else
      var p := ps[|ps| - 1];
      VoiceParts(ps[..|ps| - 1]) + (if Audible(p) && !IsPianoPart(p) then [p] else [])
  }

  /** The audible piano parts, in score order. */
  function PianoParts(ps: seq<Part>): seq<Part> {
    if ps == [] then []
    else
      var p := ps[|ps| - 1];
      PianoParts(ps[..|ps| - 1]) + (if Audible(p) && IsPianoPart(p) then [p] else [])
  }

  /** The voice parts are exactly the audible parts that are not pianos. */
  lemma {:induction false} VoicePartsMembers(ps: seq<Part>)
    ensures forall p :: p in VoiceParts(ps) <==> p in ps && Audible(p) && !IsPianoPart(p)
  {
    if ps != [] {
      var init, last := ps[..|ps| - 1], ps[|ps| - 1];
      VoicePartsMembers(init);
      assert ps == init + [last];
      assert VoiceParts(ps) == VoiceParts(init) + (if Audible(last) && !IsPianoPart(last) then [last] else []);
    }
  }

  /** The piano parts are exactly the audible pianos. */
  lemma {:induction false} PianoPartsMembers(ps: seq<Part>)
    ensures forall p :: p in PianoParts(ps) <==> p in ps && Audible(p) && IsPianoPart(p)
  {
    if ps != [] {
      var init, last := ps[..|ps| - 1], ps[|ps| - 1];
      PianoPartsMembers(init);
      assert ps == init + [last];
      assert PianoParts(ps) == PianoParts(init) + (if Audible(last) && IsPianoPart(last) then [last] else []);
    }
  }

  /** The loop over all parts: inaudible parts dropped, the rest sorted into voices and pianos. */
  method SelectParts(ps: seq<Part>) returns (voices: seq<Part>, pianos: seq<Part>)
    ensures voices == VoiceParts(ps) && pianos == PianoParts(ps)
  {
    voices, pianos := [], [];
    var i := 0;
    while i < |ps|
      invariant 0 <= i <= |ps|
      invariant voices == VoiceParts(ps[..i]) && pianos == PianoParts(ps[..i])
    {
      var p := ps[i];
      assert ps[..i + 1][..i] == ps[..i];
      assert VoiceParts(ps[..i + 1]) == VoiceParts(ps[..i]) + (if Audible(p) && !IsPianoPart(p) then [p] else []);
      assert PianoParts(ps[..i + 1]) == PianoParts(ps[..i]) + (if Audible(p) && IsPianoPart(p) then [p] else []);
      var notes := Notes(p);
      if |notes| >= NoiseFloor {
        if Contains(InstrumentText(p), "Piano") || Contains(Lower(NameText(p)), "piano") {
          pianos := pianos + [p];
        } else {
          voices := voices + [p];
        }
      }
      i := i + 1;
    }
    assert ps[..i] == ps;
  }

  /** `[p for p in voice_parts if get_chord_ratio(p) > 0.3]`. */
  function CombinedParts(vs: seq<Part>): seq<Part> {
    if vs == [] then []
    else CombinedParts(vs[..|vs| - 1]) + (if IsCombined(vs[|vs| - 1]) then [vs[|vs| - 1]] else [])
  }

  /** The fused parts are exactly the voice parts whose chord ratio exceeds 0.3. */
  lemma {:induction false} CombinedPartsMembers(vs: seq<Part>)
    ensures forall p :: p in CombinedParts(vs) <==> p in vs && IsCombined(p)
  {
    if vs != [] {
      CombinedPartsMembers(vs[..|vs| - 1]);
      assert vs == vs[..|vs| - 1] + [vs[|vs| - 1]];
    }
  }

  // Combined pair

  /** `(sa_part, tb_part)`: the part with the strictly higher mean is SA; on a tie the second one is. */
  function PairOrder(c0: Part, c1: Part): (r: (Part, Part))
    ensures RangeMean(r.0) >= RangeMean(r.1)
    ensures (r == (c0, c1)) || (r == (c1, c0))
    ensures RangeMean(c0) == RangeMean(c1) ==> r == (c1, c0)
  {
    if RangeMean(c0) > RangeMean(c1) then (c0, c1) else (c1, c0)
  }

  /** The upper and lower parts of a fused pair, split at the pair's own median. */
  function MedianSplit(p: Part): (Part, Part) {
    CombinedSplit(p, MedianOrDefault(AllPitches(Notes(p))))
  }

  function CombinedPairLayout(c0: Part, c1: Part): map<string, Output> {
    var (sa, tb) := PairOrder(c0, c1);
    var (s, a) := MedianSplit(sa);
    var (t, b) := MedianSplit(tb);
    Assign(SatbNames, [Renamed(s, "soprano"), Renamed(a, "alto"), Renamed(t, "tenor"), Renamed(b, "bass")])
  }

  /** The pitches of a written result's single unmeasured part. */
  function LoosePitches(o: Output): seq<int>
    requires |o.score.parts| == 1
  {
    PlacedPitches(o.score.parts[0].loose)
  }

  /**
   * Two fused parts: the one with the higher single-note mean becomes soprano
   * and alto, the other tenor and bass; each is divided at the upper median
   * of all its pitches, soprano taking the median and above, and the pitches
   * of each pair together are exactly those of its source part.
   */
  lemma CombinedPairDividesAtMedian(c0: Part, c1: Part)
    ensures var r := CombinedPairLayout(c0, c1);
      var (sa, tb) := PairOrder(c0, c1);
      var saMedian := MedianOrDefault(AllPitches(Notes(sa)));
      && r.Keys == {"soprano", "alto", "tenor", "bass"}
      && RangeMean(sa) >= RangeMean(tb)
      && (AllPitches(Notes(sa)) != [] ==> IsUpperMedian(AllPitches(Notes(sa)), saMedian))
      && r["soprano"].score.parts == [Renamed(MedianSplit(sa).0, "soprano")]
      && r["alto"].score.parts == [Renamed(MedianSplit(sa).1, "alto")]
      && r["tenor"].score.parts == [Renamed(MedianSplit(tb).0, "tenor")]
      && r["bass"].score.parts == [Renamed(MedianSplit(tb).1, "bass")]
      && multiset(LoosePitches(r["soprano"])) + multiset(LoosePitches(r["alto"]))
         == multiset(PlacedPitches(Flatten(sa)))
      && multiset(LoosePitches(r["tenor"])) + multiset(LoosePitches(r["bass"]))
         == multiset(PlacedPitches(Flatten(tb)))
      && (forall q :: q in LoosePitches(r["soprano"]) ==> q >= saMedian)
      && (forall q :: q in LoosePitches(r["alto"]) ==> q < saMedian)
      && (AllPitches(Notes(tb)) != [] ==> IsUpperMedian(AllPitches(Notes(tb)), MedianOrDefault(AllPitches(Notes(tb)))))
      && (forall q :: q in LoosePitches(r["tenor"]) ==> q >= MedianOrDefault(AllPitches(Notes(tb))))
      && (forall q :: q in LoosePitches(r["bass"]) ==> q < MedianOrDefault(AllPitches(Notes(tb))))
  {
    var (sa, tb) := PairOrder(c0, c1);
    var (s, a) := MedianSplit(sa);
    var (t, b) := MedianSplit(tb);
    AssignSatb([Renamed(s, "soprano"), Renamed(a, "alto"), Renamed(t, "tenor"), Renamed(b, "bass")]);
    CombinedSplitProperties(sa, MedianOrDefault(AllPitches(Notes(sa))));
    CombinedSplitProperties(tb, MedianOrDefault(AllPitches(Notes(tb))));
    if AllPitches(Notes(sa)) != [] {
      UpperMedianIsMedian(AllPitches(Notes(sa)));
    }
    if AllPitches(Notes(tb)) != [] {
      UpperMedianIsMedian(AllPitches(Notes(tb)));
    }
  }

  // Range ordering

  /** An entry of `parts_with_range`: a part and the mean of its single-note pitches. */
  datatype Ranked = Ranked(mean: real, part: Part)

  function MeanKey(r: Ranked): real {
    r.mean
  }

  /** `parts_with_range` before sorting: the parts with at least one single-note pitch, with their means. */
  function Ranges(vs: seq<Part>): seq<Ranked> {
    if vs == [] then []
    else
      var v := vs[|vs| - 1];
      var ps := SinglePitches(Notes(v));
      Ranges(vs[..|vs| - 1]) + (if ps != [] then [Ranked(Mean(ps), v)] else [])
  }

  /** Every ranked entry is a voice part with single-note pitches, paired with its mean. */
  lemma {:induction false} RangesMembers(vs: seq<Part>)
    ensures forall x :: x in Ranges(vs) ==> x.part in vs && SinglePitches(Notes(x.part)) != [] && x.mean == RangeMean(x.part)
  {
    if vs != [] {
      var init := vs[..|vs| - 1];
      RangesMembers(init);
      assert forall p :: p in init ==> p in vs;
    }
  }

  /** Every voice part with a single-note pitch is ranked, with its mean. */
  lemma {:induction false} RangesComplete(vs: seq<Part>, v: Part)
    requires v in vs && SinglePitches(Notes(v)) != []
    ensures Ranked(RangeMean(v), v) in Ranges(vs)
  {
    var n := |vs| - 1;
    if vs[n] != v {
      assert v in vs[..n];
      RangesComplete(vs[..n], v);
    }
  }

  /** The voice parts that have a single-note pitch, in score order. */
  function Ranged(vs: seq<Part>): seq<Part> {
    if vs == [] then []
    else
      var v := vs[|vs| - 1];
      Ranged(vs[..|vs| - 1]) + (if SinglePitches(Notes(v)) != [] then [v] else [])
  }

  lemma {:induction false} RangedMembers(vs: seq<Part>)
    ensures forall v :: v in Ranged(vs) <==> v in vs && SinglePitches(Notes(v)) != []
  {
    if vs != [] {
      var init, last := vs[..|vs| - 1], vs[|vs| - 1];
      RangedMembers(init);
      assert vs == init + [last];
      assert Ranged(vs) == Ranged(init) + (if SinglePitches(Notes(last)) != [] then [last] else []);
    }
  }

  /** `parts_with_range` pairs exactly the ranged parts, in score order, with their means. */
  lemma {:induction false} RangesListRangedParts(vs: seq<Part>)
    ensures |Ranges(vs)| == |Ranged(vs)|
    ensures forall i :: 0 <= i < |Ranges(vs)| ==> Ranges(vs)[i] == Ranked(RangeMean(Ranged(vs)[i]), Ranged(vs)[i])
  {
    if vs != [] {
      RangesListRangedParts(vs[..|vs| - 1]);
    }
  }

  /** Every voice part with a single-note pitch takes some place in the ranking. */
  lemma RangedPartIsRanked(vs: seq<Part>, v: Part)
    requires v in vs && SinglePitches(Notes(v)) != []
    ensures Ranked(RangeMean(v), v) in SortBy(Ranges(vs), MeanKey, true)
  {
    RangesComplete(vs, v);
    SortByKeepsMembers(Ranges(vs), MeanKey, true, Ranked(RangeMean(v), v));
  }

  /** The ranking loop, then the stable descending sort by mean. */
  method RankByRange(vs: seq<Part>) returns (sorted: seq<Ranked>)
    ensures sorted == SortBy(Ranges(vs), MeanKey, true)
  {
    var ranges := [];
    var i := 0;
    while i < |vs|
      invariant 0 <= i <= |vs|
      invariant ranges == Ranges(vs[..i])
    {
      var v := vs[i];
      assert vs[..i + 1][..i] == vs[..i];
      var ps := SinglePitches(Notes(v));
      if ps != [] {
        ranges := ranges + [Ranked(Mean(ps), v)];
      }
      i := i + 1;
    }
    assert vs[..i] == vs;
    sorted := StableSort(ranges, MeanKey, true);
  }

  function Min(a: int, b: int): int {
    if a < b then a else b
  }

  /** The first entries of the ranking, each renamed after the voice at its rank. */
  function Labelled(rs: seq<Ranked>): (r: seq<Part>)
    requires |rs| <= 4
    ensures |r| == |rs|
  {
    if rs == [] then []
    else Labelled(rs[..|rs| - 1]) + [Renamed(rs[|rs| - 1].part, SatbNames[|rs| - 1])]
  }

  lemma {:induction false} LabelledAt(rs: seq<Ranked>, i: int)
    requires |rs| <= 4 && 0 <= i < |rs|
    ensures Labelled(rs)[i] == Renamed(rs[i].part, SatbNames[i])
  {
    if i < |rs| - 1 {
      LabelledAt(rs[..|rs| - 1], i);
    }
  }

  function RangeLayout(vs: seq<Part>): map<string, Output> {
    var sorted := SortBy(Ranges(vs), MeanKey, true);
    var k := Min(4, |sorted|);
    Assign(SatbNames[..k], Labelled(sorted[..k]))
  }

  /**
   * The ranking `parts_with_range` after its sort: a permutation of the
   * voice parts that have single-note pitches, each with its mean, in
   * non-increasing order of mean.
   */
  lemma RangeRankingDescends(vs: seq<Part>)
    ensures var sorted := SortBy(Ranges(vs), MeanKey, true);
      && |sorted| == |Ranges(vs)|
      && multiset(sorted) == multiset(Ranges(vs))
      && (forall i :: 0 <= i < |sorted| ==>
            sorted[i].part in vs && SinglePitches(Notes(sorted[i].part)) != [] && sorted[i].mean == RangeMean(sorted[i].part))
      && (forall i, j :: 0 <= i < j < |sorted| ==> sorted[i].mean >= sorted[j].mean)
  {
    var ranges := Ranges(vs);
    var sorted := SortBy(ranges, MeanKey, true);
    SortByOrderedPermutation(ranges, MeanKey, true);
    RangesMembers(vs);
    forall i, j | 0 <= i < j < |sorted| ensures sorted[i].mean >= sorted[j].mean {
      assert !Precedes(sorted[j], sorted[i], MeanKey, true);
    }
    forall i | 0 <= i < |sorted|
      ensures sorted[i].part in vs && SinglePitches(Notes(sorted[i].part)) != [] && sorted[i].mean == RangeMean(sorted[i].part)
    {
      assert sorted[i] in multiset(ranges);
    }
  }

  /** Range ordering names at most four parts: the keys are the first min(4, ranked) SATB names. */
  lemma RangeLayoutKeys(vs: seq<Part>)
    ensures RangeLayout(vs).Keys == (set l | l in SatbNames[..Min(4, |Ranges(vs)|)])
  {
    SortByOrderedPermutation(Ranges(vs), MeanKey, true);
  }

  /**
   * Range ordering: the i-th entry of the ranking, for i below four,
   * receives the i-th SATB name and is renamed after it; entries from the
   * fifth on, whose means are no higher, are dropped.
   */
  lemma RangeLayoutNamesTopFour(vs: seq<Part>, i: int)
    requires 0 <= i < Min(4, |Ranges(vs)|)
    ensures SatbNames[i] in RangeLayout(vs)
    ensures var sorted := SortBy(Ranges(vs), MeanKey, true);
      RangeLayout(vs)[SatbNames[i]] == Written(SatbNames[i], Renamed(sorted[i].part, SatbNames[i]))
  {
    var sorted := SortBy(Ranges(vs), MeanKey, true);
    SortByOrderedPermutation(Ranges(vs), MeanKey, true);
    var k := Min(4, |sorted|);
    var top := sorted[..k];
    RangeLayoutKeys(vs);
    assert SatbNames[i] in SatbNames[..k];
    assert RangeLayout(vs) == Assign(SatbNames[..k], Labelled(top));
    AssignLabelled(top, i);
    assert top[i] == sorted[i];
  }

  lemma AssignLabelled(rs: seq<Ranked>, i: int)
    requires |rs| <= 4 && 0 <= i < |rs|
    ensures Assign(SatbNames[..|rs|], Labelled(rs))[SatbNames[i]] == Written(SatbNames[i], Renamed(rs[i].part, SatbNames[i]))
  {
    assert Distinct(SatbNames[..|rs|]);
    AssignAt(SatbNames[..|rs|], Labelled(rs), i);
    LabelledAt(rs, i);
  }

  // Positional labels and pianos

  function VoiceLayout(vs: seq<Part>): map<string, Output> {
    var cs := CombinedParts(vs);
    if |cs| == 2 then CombinedPairLayout(cs[0], cs[1])
    else if |vs| >= 3 then RangeLayout(vs)
    else Assign(NumberedLabels("voice_", |vs|), vs)
  }

  function PianoLayout(ps: seq<Part>): map<string, Output> {
    Assign(PianoLabels(|ps|), ps)
  }

  function HeuristicLayout(parts: seq<Part>): map<string, Output> {
    VoiceLayout(VoiceParts(parts)) + PianoLayout(PianoParts(parts))
  }

  /** The results `split_satb` returns for a score, by strategy. */
  function SatbLayout(s: Score): map<string, Output> {
    if |s.parts| == 4 then DirectLayout(s.parts)
    else if |s.parts| == 2 then GrandStaffLayout(s.parts)
    else HeuristicLayout(s.parts)
  }

  /**
   * Positional names: with fewer than three voice parts (and not exactly two
   * fused ones) the i-th voice part is saved unchanged as "voice_<i+1>", and
   * those are all the keys.
   */
  lemma PositionalNames(vs: seq<Part>, i: int)
    requires 0 <= i < |vs|
    ensures var r := Assign(NumberedLabels("voice_", |vs|), vs);
      && r.Keys == set l | l in NumberedLabels("voice_", |vs|)
      && ("voice_" + NatToString(i + 1)) in r
      && r["voice_" + NatToString(i + 1)] == Written("voice_" + NatToString(i + 1), vs[i])
  {
    NumberedLabelsDistinct("voice_", |vs|);
    NumberedLabelsAt("voice_", |vs|, i);
    AssignAt(NumberedLabels("voice_", |vs|), vs, i);
  }

  /** Piano names: a single piano part is "piano", otherwise the i-th is "piano_<i+1>". */
  lemma PianoNames(ps: seq<Part>, i: int)
    requires 0 <= i < |ps|
    ensures |ps| == 1 ==> PianoLayout(ps) == map["piano" := Written("piano", ps[0])]
    ensures |ps| != 1 ==>
      ("piano_" + NatToString(i + 1)) in PianoLayout(ps)
      && PianoLayout(ps)["piano_" + NatToString(i + 1)] == Written("piano_" + NatToString(i + 1), ps[i])
  {
    if |ps| == 1 {
      assert ["piano"][..0] == [] && ps[..0] == [];
      assert PianoLayout(ps) == Keyed(["piano"], [Written("piano", ps[0])]);
    } else {
      NumberedLabelsDistinct("piano_", |ps|);
      NumberedLabelsAt("piano_", |ps|, i);
      AssignAt(PianoLabels(|ps|), ps, i);
    }
  }

  lemma {:induction false} NumberedLabelsStart(prefix: string, n: nat)
    requires prefix != []
    ensures forall l :: l in NumberedLabels(prefix, n) ==> |l| > 0 && l[0] == prefix[0]
  {
    if n > 0 {
      NumberedLabelsStart(prefix, n - 1);
    }
  }

  lemma CombinedPairKeys(c0: Part, c1: Part)
    ensures CombinedPairLayout(c0, c1).Keys == {"soprano", "alto", "tenor", "bass"}
  {
    var (sa, tb) := PairOrder(c0, c1);
    var (s, a) := MedianSplit(sa);
    var (t, b) := MedianSplit(tb);
    AssignSatb([Renamed(s, "soprano"), Renamed(a, "alto"), Renamed(t, "tenor"), Renamed(b, "bass")]);
  }

  lemma RangeNamesAvoidP(vs: seq<Part>)
    ensures forall l :: l in RangeLayout(vs) ==> |l| > 0 && l[0] != 'p'
  {
    RangeLayoutKeys(vs);
    var k := Min(4, |Ranges(vs)|);
    forall l | l in SatbNames[..k] ensures |l| > 0 && l[0] != 'p' {
      assert l in SatbNames;
    }
  }

  lemma CombinedNamesAvoidP(c0: Part, c1: Part)
    ensures forall l :: l in CombinedPairLayout(c0, c1) ==> |l| > 0 && l[0] != 'p'
  {
    CombinedPairKeys(c0, c1);
  }

  lemma PositionalNamesAvoidP(vs: seq<Part>)
    ensures forall l :: l in Assign(NumberedLabels("voice_", |vs|), vs) ==> |l| > 0 && l[0] != 'p'
  {
    NumberedLabelsStart("voice_", |vs|);
  }

  /** Every name the voice strategies use starts with a letter other than 'p'. */
  lemma VoiceNamesAvoidP(vs: seq<Part>)
    ensures forall l :: l in VoiceLayout(vs) ==> |l| > 0 && l[0] != 'p'
  {
    var cs := CombinedParts(vs);
    if |cs| == 2 {
      CombinedNamesAvoidP(cs[0], cs[1]);
    } else if |vs| >= 3 {
      RangeNamesAvoidP(vs);
    } else {
      PositionalNamesAvoidP(vs);
    }
  }

  /**
   * Voice and piano names never collide, so saving the pianos after the
   * voices overwrites no voice result.
   */
  lemma PianosKeepVoiceResults(parts: seq<Part>)
    ensures forall l :: l in VoiceLayout(VoiceParts(parts)) ==>
      l in HeuristicLayout(parts) && HeuristicLayout(parts)[l] == VoiceLayout(VoiceParts(parts))[l]
    ensures forall l :: l in PianoLayout(PianoParts(parts)) ==>
      l in HeuristicLayout(parts) && HeuristicLayout(parts)[l] == PianoLayout(PianoParts(parts))[l]
  {
    var ps := PianoParts(parts);
    VoiceNamesAvoidP(VoiceParts(parts));
    if |ps| != 1 {
      NumberedLabelsStart("piano_", |ps|);
    }
    assert forall l :: l in PianoLayout(ps) ==> l in PianoLabels(|ps|);
  }

  /**
   * A score whose parts all have fewer than 50 pitched events, and whose part
   * count is neither 2 nor 4, yields no result at all (the empty score
   * included): nothing is reported as a failure.
   */
  lemma NoisyScoreWritesNothing(s: Score)
    requires |s.parts| != 2 && |s.parts| != 4
    requires forall p :: p in s.parts ==> !Audible(p)
    ensures SatbLayout(s) == map[]
  {
    NothingAudible(s.parts);
    assert CombinedParts([]) == [];
    assert VoiceLayout([]) == map[];
    assert PianoLayout([]) == map[];
  }

  lemma {:induction false} NothingAudible(ps: seq<Part>)
    requires forall p :: p in ps ==> !Audible(p)
    ensures VoiceParts(ps) == [] && PianoParts(ps) == []
  {
    if ps != [] {
      assert forall p :: p in ps[..|ps| - 1] ==> p in ps;
      NothingAudible(ps[..|ps| - 1]);
      assert ps[|ps| - 1] in ps;
    }
  }

  /** One save loop of `split_satb`: `labels[i]` receives `parts[i]`, on top of the results so far. */
  method SaveAll(labels: seq<string>, parts: seq<Part>, base: map<string, Output>) returns (results: map<string, Output>)
    requires |labels| == |parts|
    ensures results == base + Assign(labels, parts)
  {
    results := base;
    var i := 0;
    while i < |labels|
      invariant 0 <= i <= |labels|
      invariant results == base + Assign(labels[..i], parts[..i])
    {
      AssignStep(labels, parts, i);
      UnionUpdate(base, Assign(labels[..i], parts[..i]), labels[i], Written(labels[i], parts[i]));
      results := results[labels[i] := Written(labels[i], parts[i])];
      i := i + 1;
    }
    assert labels[..i] == labels && parts[..i] == parts;
  }

  /** Four parts: each extracted under the SATB name at its position, and saved. */
  method SplitFourParts(parts: seq<Part>) returns (results: map<string, Output>)
    requires |parts| == 4
    ensures results == DirectLayout(parts)
  {
    ghost var outs := [Extracted(parts[0], None, SatbType(0)), Extracted(parts[1], None, SatbType(1)),
                       Extracted(parts[2], None, SatbType(2)), Extracted(parts[3], None, SatbType(3))];
    results := map[];
    var i := 0;
    while i < 4
      invariant 0 <= i <= 4
      invariant results == Assign(SatbNames[..i], outs[..i])
    {
      var name := SatbNames[i];
      var extracted := ExtractVoice(parts[i], None, FromValue(name).value);
      assert extracted == outs[i];
      AssignStep(SatbNames, outs, i);
      results := results[name := Written(name, extracted)];
      i := i + 1;
    }
    assert SatbNames[..4] == SatbNames && outs[..4] == outs;
  }

  /** Two parts: each grand stave split at middle C, the four halves renamed and saved. */
  method SplitTwoStaves(parts: seq<Part>) returns (results: map<string, Output>)
    requires |parts| == 2
    ensures results == GrandStaffLayout(parts)
  {
    var upper1, lower1 := SplitGrandStaff(parts[0]);
    var upper2, lower2 := SplitGrandStaff(parts[1]);
    var outs := [Renamed(upper1, "soprano"), Renamed(lower1, "alto"), Renamed(upper2, "tenor"), Renamed(lower2, "bass")];
    results := SaveAll(SatbNames, outs, map[]);
    assert map[] + Assign(SatbNames, outs) == Assign(SatbNames, outs);
  }

  /** Two fused parts: SA chosen by mean, each split at its median, the four halves renamed and saved. */
  method SplitCombinedPair(c0: Part, c1: Part) returns (results: map<string, Output>)
    ensures results == CombinedPairLayout(c0, c1)
  {
    var sa, tb := c1, c0;
    if RangeMean(c0) > RangeMean(c1) {
      sa, tb := c0, c1;
    }
    var saMedian := GetMedianPitch(sa);
    var soprano, alto := SplitCombinedVoices(sa, saMedian);
    var tbMedian := GetMedianPitch(tb);
    var tenor, bass := SplitCombinedVoices(tb, tbMedian);
    var outs := [Renamed(soprano, "soprano"), Renamed(alto, "alto"), Renamed(tenor, "tenor"), Renamed(bass, "bass")];
    results := SaveAll(SatbNames, outs, map[]);
    assert map[] + Assign(SatbNames, outs) == Assign(SatbNames, outs);
  }

  /** Three or more voice parts: ranked by mean, the first four renamed after their rank and saved. */
  method SplitByRange(vs: seq<Part>) returns (results: map<string, Output>)
    ensures results == RangeLayout(vs)
  {
    var sorted := RankByRange(vs);
    var k := Min(4, |sorted|);
    ghost var outs := Labelled(sorted[..k]);
    results := map[];
    var i := 0;
    while i < k
      invariant 0 <= i <= k
      invariant results == Assign(SatbNames[..k][..i], outs[..i])
    {
      var name := SatbNames[i];
      var renamed := Renamed(sorted[i].part, name);
      LabelledAt(sorted[..k], i);
      AssignStep(SatbNames[..k], outs, i);
      results := results[name := Written(name, renamed)];
      i := i + 1;
    }
    assert SatbNames[..k][..k] == SatbNames[..k] && outs[..k] == outs;
  }

  /** Otherwise: the voice parts saved under their positions, "voice_1", "voice_2", ... */
  method SplitPositional(vs: seq<Part>) returns (results: map<string, Output>)
    ensures results == Assign(NumberedLabels("voice_", |vs|), vs)
  {
    ghost var labels := NumberedLabels("voice_", |vs|);
    results := map[];
    var i := 0;
    while i < |vs|
      invariant 0 <= i <= |vs|
      invariant results == Assign(labels[..i], vs[..i])
    {
      var name := "voice_" + NatToString(i + 1);
      NumberedLabelsAt("voice_", |vs|, i);
      AssignStep(labels, vs, i);
      results := results[name := Written(name, vs[i])];
      i := i + 1;
    }
    assert labels[..i] == labels && vs[..i] == vs;
  }

  /** The name of piano `i` of `n`. */
  lemma PianoLabelAt(n: nat, i: int)
    requires 0 <= i < n
    ensures PianoLabels(n)[i] == if n == 1 then "piano" else "piano_" + NatToString(i + 1)
  {
    if n != 1 {
      NumberedLabelsAt("piano_", n, i);
    }
  }

  /** The piano parts saved after the voices: "piano" alone, otherwise "piano_1", "piano_2", ... */
  method SavePianos(ps: seq<Part>, base: map<string, Output>) returns (results: map<string, Output>)
    ensures results == base + PianoLayout(ps)
  {
    ghost var labels := PianoLabels(|ps|);
    results := base;
    var i := 0;
    while i < |ps|
      invariant 0 <= i <= |ps|
      invariant results == base + Assign(labels[..i], ps[..i])
    {
      var name := if |ps| == 1 then "piano" else "piano_" + NatToString(i + 1);
      PianoLabelAt(|ps|, i);
      AssignStep(labels, ps, i);
      UnionUpdate(base, Assign(labels[..i], ps[..i]), name, Written(name, ps[i]));
      results := results[name := Written(name, ps[i])];
      i := i + 1;
    }
    assert labels[..i] == labels && ps[..i] == ps;
  }

  /** The voice parts: a fused pair, a range ordering, or positional names. */
  method SplitVoices(voices: seq<Part>) returns (results: map<string, Output>)
    ensures results == VoiceLayout(voices)
  {
    var combined := CombinedParts(voices);
    if |combined| == 2 {
      results := SplitCombinedPair(combined[0], combined[1]);
    } else if |voices| >= 3 {
      results := SplitByRange(voices);
    } else {
      results := SplitPositional(voices);
    }
  }

  /** The heuristic strategy for any other number of parts. */
  method SplitHeuristic(parts: seq<Part>) returns (results: map<string, Output>)
    ensures results == HeuristicLayout(parts)
  {
    var voices, pianos := SelectParts(parts);
    var voiceResults := SplitVoices(voices);
    if pianos != [] {
      results := SavePianos(pianos, voiceResults);
    } else {
      results := voiceResults;
      assert PianoLayout(pianos) == map[];
      assert voiceResults + map[] == voiceResults;
    }
  }

  /** `split_satb`: choose the strategy by the number of parts. */
  method SplitSatb(s: Score) returns (results: map<string, Output>)
    ensures results == SatbLayout(s)
  {
    if |s.parts| == 4 {
      results := SplitFourParts(s.parts);
    } else if |s.parts| == 2 {
      results := SplitTwoStaves(s.parts);
    } else {
      results := SplitHeuristic(s.parts);
    }
  }
}

/**
 * The three part builders of the splitter: `extract_voice` (copy a part's
 * measures, keeping one voice or the direct notes), `split_grand_staff`
 * (divide each measure of a two-voice stave at middle C) and
 * `split_combined_voices` (divide a whole flattened part at a given pitch).
 * Each is a method with loops proved equal to a specification function; the
 * lemmas state what the specification functions guarantee.
 */
module Assemble {
  import opened Document
  import opened Text
  import opened Decompose
  import opened Classify

  /** The fixed split pitch of `split_grand_staff`: middle C. */
  const MiddleC: int := 60

  // ---------------------------------------------------------------------
  // Context markers

  /** One `for ... in measure.getElementsByClass(kind)` copy loop. */
  method CopyMarkers(ms: seq<Marked>, k: MarkerKind) returns (r: seq<Marked>)
    ensures r == OfKind(ms, k)
  {
    r := [];
    var i := 0;
    while i < |ms|
      invariant 0 <= i <= |ms|
      invariant r == OfKind(ms[..i], k)
    {
      assert ms[..i + 1][..i] == ms[..i];
      if IsKind(ms[i].marker, k) {
        r := r + [ms[i]];
      }
      i := i + 1;
    }
    assert ms[..i] == ms;
  }

  /** The markers `extract_voice` copies: time signatures, then key signatures, then clefs. */
  function ContextMarkers(ms: seq<Marked>): seq<Marked> {
    OfKind(ms, TimeSigKind) + OfKind(ms, KeySigKind) + OfKind(ms, ClefKind)
  }

  // ---------------------------------------------------------------------
  // extract_voice

  /** `str(voice.id)`. */
  function IdText(id: VoiceId): string {
    match id
    case NumberId(n) => IntToString(n)
    case NameId(s) => s
  }

  /** `voice.id == voice_id or str(voice.id) == str(voice_id)`. */
  predicate VoiceMatches(v: Voice, id: int) {
    v.id == NumberId(id) || IdText(v.id) == IntToString(id)
  }

  /** The events of the voices that match `id`, voice after voice. */
  function MatchingEvents(vs: seq<Voice>, id: int): seq<Placed> {
    if vs == [] then []
    else MatchingEvents(vs[..|vs| - 1], id) + (if VoiceMatches(vs[|vs| - 1], id) then vs[|vs| - 1].events else [])
  }

  /** Every selected event comes from a matching voice. */
  lemma {:induction false} MatchingEventsSound(vs: seq<Voice>, id: int, x: Placed)
    requires x in MatchingEvents(vs, id)
    ensures exists k :: 0 <= k < |vs| && VoiceMatches(vs[k], id) && x in vs[k].events
  {
    var init, last := vs[..|vs| - 1], vs[|vs| - 1];
    if x in MatchingEvents(init, id) {
      MatchingEventsSound(init, id, x);
      var k :| 0 <= k < |init| && VoiceMatches(init[k], id) && x in init[k].events;
      assert vs[k] == init[k];
    } else {
      assert VoiceMatches(vs[|vs| - 1], id) && x in vs[|vs| - 1].events;
    }
  }

  /** Every event of a matching voice is selected. */
  lemma {:induction false} MatchingEventsComplete(vs: seq<Voice>, id: int, k: int, x: Placed)
    requires 0 <= k < |vs| && VoiceMatches(vs[k], id) && x in vs[k].events
    ensures x in MatchingEvents(vs, id)
  {
    var init, last := vs[..|vs| - 1], vs[|vs| - 1];
    var tail := if VoiceMatches(last, id) then last.events else [];
    assert MatchingEvents(vs, id) == MatchingEvents(init, id) + tail;
    if k < |init| {
      assert init[k] == vs[k];
      MatchingEventsComplete(init, id, k, x);
    } else {
      assert x in tail;
    }
  }

  /** An event is selected exactly when it belongs to a voice whose id matches. */
  lemma MatchingEventsMembers(vs: seq<Voice>, id: int, x: Placed)
    ensures x in MatchingEvents(vs, id) <==>
      exists k :: 0 <= k < |vs| && VoiceMatches(vs[k], id) && x in vs[k].events
  {
    if x in MatchingEvents(vs, id) {
      MatchingEventsSound(vs, id, x);
    }
    if exists k :: 0 <= k < |vs| && VoiceMatches(vs[k], id) && x in vs[k].events {
      var k :| 0 <= k < |vs| && VoiceMatches(vs[k], id) && x in vs[k].events;
      MatchingEventsComplete(vs, id, k, x);
    }
  }

  /**
   * The notes and rests an extracted measure receives: those of the matching
   * voices when a voice id is given and the measure has voices, otherwise the
   * notes and rests placed directly in the measure (voice contents excluded).
   */
  function SelectedEvents(m: Measure, voiceId: Option<int>): seq<Placed> {
    if voiceId.Some? && m.voices != [] then MatchingEvents(m.voices, voiceId.value) else m.events
  }

  function ExtractMeasure(m: Measure, voiceId: Option<int>): Measure {
    Measure(m.number, m.offset, ContextMarkers(m.markers), SelectedEvents(m, voiceId), [])
  }

  function ExtractMeasures(ms: seq<Measure>, voiceId: Option<int>): (r: seq<Measure>)
    ensures |r| == |ms|
  {
    if ms == [] then [] else ExtractMeasures(ms[..|ms| - 1], voiceId) + [ExtractMeasure(ms[|ms| - 1], voiceId)]
  }

  /** The part `extract_voice(part, voice_id, voice_type)` builds. */
  function Extracted(p: Part, voiceId: Option<int>, vt: VoiceType): Part {
    Part(Some(DisplayName(vt)), None, [], ExtractMeasures(p.measures, voiceId), [])
  }

  lemma {:induction false} ExtractMeasuresAt(ms: seq<Measure>, voiceId: Option<int>, k: int)
    requires 0 <= k < |ms|
    ensures ExtractMeasures(ms, voiceId)[k] == ExtractMeasure(ms[k], voiceId)
  {
    if k < |ms| - 1 {
      ExtractMeasuresAt(ms[..|ms| - 1], voiceId, k);
    }
  }

  /** The `for voice in measure.voices` loop: the events of the matching voices, in order. */
  method CopyMatching(vs: seq<Voice>, id: int) returns (events: seq<Placed>)
    ensures events == MatchingEvents(vs, id)
  {
    events := [];
    var j := 0;
    while j < |vs|
      invariant 0 <= j <= |vs|
      invariant events == MatchingEvents(vs[..j], id)
    {
      assert vs[..j + 1][..j] == vs[..j];
      if VoiceMatches(vs[j], id) {
        events := events + vs[j].events;
      }
      j := j + 1;
    }
    assert vs[..j] == vs;
  }

  /** One pass of the `for measure in part.getElementsByClass('Measure')` loop of `extract_voice`. */
  method CopyMeasure(m: Measure, voiceId: Option<int>) returns (r: Measure)
    ensures r == ExtractMeasure(m, voiceId)
  {
    var ts := CopyMarkers(m.markers, TimeSigKind);
    var ks := CopyMarkers(m.markers, KeySigKind);
    var cs := CopyMarkers(m.markers, ClefKind);
    var events := m.events;
    if voiceId.Some? && m.voices != [] {
      events := CopyMatching(m.voices, voiceId.value);
    }
    r := Measure(m.number, m.offset, ts + ks + cs, events, []);
  }

  /** `extract_voice`: a new part, measure by measure. */
  method ExtractVoice(p: Part, voiceId: Option<int>, vt: VoiceType) returns (r: Part)
    ensures r == Extracted(p, voiceId, vt)
  {
    var measures := [];
    var i := 0;
    while i < |p.measures|
      invariant 0 <= i <= |p.measures|
      invariant measures == ExtractMeasures(p.measures[..i], voiceId)
    {
      assert p.measures[..i + 1][..i] == p.measures[..i];
      var copy := CopyMeasure(p.measures[i], voiceId);
      measures := measures + [copy];
      i := i + 1;
    }
    assert p.measures[..i] == p.measures;
    r := Part(Some(DisplayName(vt)), None, [], measures, []);
  }

  /**
   * What an extraction keeps of each measure: its number and position, every
   * time signature, key signature and clef change and nothing else of its
   * markers, and the selected notes and rests.
   */
  lemma ExtractedMeasures(p: Part, voiceId: Option<int>, vt: VoiceType, k: int)
    requires 0 <= k < |p.measures|
    ensures var r := Extracted(p, voiceId, vt).measures[k];
      var m := p.measures[k];
      && r.number == m.number && r.offset == m.offset
      && (forall x :: x in r.markers <==> x in m.markers && (x.marker.TimeSig? || x.marker.KeySig? || x.marker.ClefChange?))
      && r.events == SelectedEvents(m, voiceId)
      && r.voices == []
  {
    ExtractMeasuresAt(p.measures, voiceId, k);
    var ms := p.measures[k].markers;
    var r := Extracted(p, voiceId, vt).measures[k];
    forall x
      ensures x in r.markers <==> x in ms && (x.marker.TimeSig? || x.marker.KeySig? || x.marker.ClefChange?)
    {
      OfKindMembers(ms, TimeSigKind, x);
      OfKindMembers(ms, KeySigKind, x);
      OfKindMembers(ms, ClefKind, x);
    }
  }

  /**
   * Extracting a voice by id: where a measure has voices, it receives exactly
   * the notes and rests of the voices whose id or id text matches.
   */
  lemma ExtractedVoiceEvents(p: Part, id: int, vt: VoiceType, k: int, x: Placed)
    requires 0 <= k < |p.measures| && p.measures[k].voices != []
    ensures x in Extracted(p, Some(id), vt).measures[k].events <==>
      exists j :: 0 <= j < |p.measures[k].voices| && VoiceMatches(p.measures[k].voices[j], id)
        && x in p.measures[k].voices[j].events
  {
    ExtractMeasuresAt(p.measures, Some(id), k);
    MatchingEventsMembers(p.measures[k].voices, id, x);
  }

  /**
   * Extracting without a voice id keeps every note and rest placed directly
   * in the measures, in order, and so every pitch; voice contents are not copied.
   */
  lemma {:induction false} ExtractedKeepsDirectEvents(ms: seq<Measure>)
    ensures DirectEvents(ExtractMeasures(ms, None)) == DirectEvents(ms)
  {
    if ms != [] {
      ExtractedKeepsDirectEvents(ms[..|ms| - 1]);
    }
  }

  // ---------------------------------------------------------------------
  // split_grand_staff

  /** The upper copy of a measure: its number, position and time signatures, and the upper sides of its notes. */
  function UpperMeasure(m: Measure): Measure {
    Measure(m.number, m.offset, OfKind(m.markers, TimeSigKind), UpperEvents(m.events, MiddleC), [])
  }

  function LowerMeasure(m: Measure): Measure {
    Measure(m.number, m.offset, OfKind(m.markers, TimeSigKind), LowerEvents(m.events, MiddleC), [])
  }

  function UpperMeasures(ms: seq<Measure>): (r: seq<Measure>)
    ensures |r| == |ms|
  {
    if ms == [] then [] else UpperMeasures(ms[..|ms| - 1]) + [UpperMeasure(ms[|ms| - 1])]
  }

  function LowerMeasures(ms: seq<Measure>): (r: seq<Measure>)
    ensures |r| == |ms|
  {
    if ms == [] then [] else LowerMeasures(ms[..|ms| - 1]) + [LowerMeasure(ms[|ms| - 1])]
  }

  /** The pair of parts `split_grand_staff(part)` returns, named "Upper" and "Lower". */
  function GrandStaffSplit(p: Part): (Part, Part) {
    (Part(Some("Upper"), None, [], UpperMeasures(p.measures), []),
     Part(Some("Lower"), None, [], LowerMeasures(p.measures), []))
  }

  /** `split_grand_staff`: each measure's time signatures copied to both sides and its events split at middle C. */
  method SplitGrandStaff(p: Part) returns (upper: Part, lower: Part)
    ensures (upper, lower) == GrandStaffSplit(p)
  {
    var ums, lms := [], [];
    var i := 0;
    while i < |p.measures|
      invariant 0 <= i <= |p.measures|
      invariant ums == UpperMeasures(p.measures[..i]) && lms == LowerMeasures(p.measures[..i])
    {
      var m := p.measures[i];
      assert p.measures[..i + 1][..i] == p.measures[..i];
      var ts := CopyMarkers(m.markers, TimeSigKind);
      var ues, les := SplitEvents(m.events, MiddleC);
      ums := ums + [Measure(m.number, m.offset, ts, ues, [])];
      lms := lms + [Measure(m.number, m.offset, ts, les, [])];
      i := i + 1;
    }
    assert p.measures[..i] == p.measures;
    upper := Part(Some("Upper"), None, [], ums, []);
    lower := Part(Some("Lower"), None, [], lms, []);
  }

  lemma {:induction false} UpperMeasuresAt(ms: seq<Measure>, k: int)
    requires 0 <= k < |ms|
    ensures UpperMeasures(ms)[k] == UpperMeasure(ms[k]) && LowerMeasures(ms)[k] == LowerMeasure(ms[k])
  {
    if k < |ms| - 1 {
      UpperMeasuresAt(ms[..|ms| - 1], k);
    }
  }

  /** Splitting measure by measure is splitting the concatenated direct events. */
  lemma {:induction false} MeasureSplitIsEventSplit(ms: seq<Measure>)
    ensures DirectEvents(UpperMeasures(ms)) == UpperEvents(DirectEvents(ms), MiddleC)
    ensures DirectEvents(LowerMeasures(ms)) == LowerEvents(DirectEvents(ms), MiddleC)
  {
    if ms != [] {
      var init, last := ms[..|ms| - 1], ms[|ms| - 1];
      MeasureSplitIsEventSplit(init);
      UpperEventsAppend(DirectEvents(init), last.events, MiddleC);
      LowerEventsAppend(DirectEvents(init), last.events, MiddleC);
    }
  }

  /**
   * The grand-staff split loses and duplicates no pitch: the pitches of the
   * two parts together are those of the stave. Upper pitches are at or
   * above middle C and lower ones below it.
   */
  lemma GrandStaffConservesPitches(p: Part)
    ensures var (u, l) := GrandStaffSplit(p);
      && multiset(PlacedPitches(DirectEvents(u.measures))) + multiset(PlacedPitches(DirectEvents(l.measures)))
         == multiset(PlacedPitches(DirectEvents(p.measures)))
      && (forall q :: q in PlacedPitches(DirectEvents(u.measures)) ==> q >= MiddleC)
      && (forall q :: q in PlacedPitches(DirectEvents(l.measures)) ==> q < MiddleC)
  {
    MeasureSplitIsEventSplit(p.measures);
    SplitConservesPitches(DirectEvents(p.measures), MiddleC);
    SplitSeparatesPitches(DirectEvents(p.measures), MiddleC);
  }

  /**
   * Measure structure is kept: both parts have the stave's measures, with the
   * same numbers and positions, the same time signatures, and the same rests.
   */
  lemma GrandStaffKeepsMeasures(p: Part, k: int)
    requires 0 <= k < |p.measures|
    ensures var (u, l) := GrandStaffSplit(p);
      && |u.measures| == |p.measures| == |l.measures|
      && u.measures[k].number == p.measures[k].number == l.measures[k].number
      && u.measures[k].offset == p.measures[k].offset == l.measures[k].offset
      && (forall x :: x in u.measures[k].markers <==> x in p.measures[k].markers && x.marker.TimeSig?)
      && l.measures[k].markers == u.measures[k].markers
      && Rests(u.measures[k].events) == Rests(p.measures[k].events) == Rests(l.measures[k].events)
  {
    UpperMeasuresAt(p.measures, k);
    SplitKeepsRests(p.measures[k].events, MiddleC);
    var u := GrandStaffSplit(p).0.measures[k];
    forall x
      ensures x in u.markers <==> x in p.measures[k].markers && x.marker.TimeSig?
    {
      OfKindMembers(p.measures[k].markers, TimeSigKind, x);
    }
  }

  /**
   * Notes written inside a voice stream are not copied: `notesAndRests` on a
   * measure lists only its direct elements, so a measure whose one note sits
   * in a voice comes out of both `extract_voice` without a voice id and
   * `split_grand_staff` with no notes at all, although the part sounds it.
   */
  lemma VoiceNotesNotCopied(n: int)
    ensures var m := Measure(1, 0.0, [], [], [Voice(NumberId(1), [Placed(0.0, Note(n, 1.0))])]);
      var p := Part(None, None, [], [m], []);
      var empty := Measure(1, 0.0, [], [], []);
      && Notes(p) == [Note(n, 1.0)]
      && Extracted(p, None, Soprano).measures == [empty]
      && GrandStaffSplit(p).0.measures == [empty]
      && GrandStaffSplit(p).1.measures == [empty]
  {
    var x := Placed(0.0, Note(n, 1.0));
    var m := Measure(1, 0.0, [], [], [Voice(NumberId(1), [x])]);
    var p := Part(None, None, [], [m], []);
    var empty := Measure(1, 0.0, [], [], []);
    assert [m][..0] == [];
    assert VoicesEvents(m.voices) == [x] by {
      assert m.voices[..0] == [];
    }
    assert m.events + VoicesEvents(m.voices) == [x];
    assert MeasureFlat(m) == [x];
    assert MeasuresFlat([m]) == [x];
    assert Flatten(p) == [x];
    assert [x][..0] == [];
    assert ExtractMeasure(m, None) == empty;
    assert ExtractMeasures([m], None) == [empty];
    assert UpperMeasure(m) == empty && LowerMeasure(m) == empty;
    assert UpperMeasures([m]) == [empty] && LowerMeasures([m]) == [empty];
  }

  // ---------------------------------------------------------------------
  // split_combined_voices

  /** The pair of unmeasured parts `split_combined_voices(part, t)` returns. */
  function CombinedSplit(p: Part, t: int): (Part, Part) {
    (LoosePart(UpperEvents(Flatten(p), t)), LoosePart(LowerEvents(Flatten(p), t)))
  }

  /** `split_combined_voices`: the flattened notes and rests split at `t`, collected, then inserted. */
  method SplitCombinedVoices(p: Part, t: int) returns (upper: Part, lower: Part)
    ensures (upper, lower) == CombinedSplit(p, t)
  {
    var all := Flatten(p);
    var ues, les := SplitEvents(all, t);
    upper := LoosePart(ues);
    lower := LoosePart(les);
  }

  /**
   * The combined-voice split partitions the part's pitches at `t`, keeps
   * every rest on both sides, and places everything at the time of an input event.
   */
  lemma CombinedSplitProperties(p: Part, t: int)
    ensures var (u, l) := CombinedSplit(p, t);
      && multiset(PlacedPitches(u.loose)) + multiset(PlacedPitches(l.loose)) == multiset(PlacedPitches(Flatten(p)))
      && (forall q :: q in PlacedPitches(u.loose) ==> q >= t)
      && (forall q :: q in PlacedPitches(l.loose) ==> q < t)
      && Rests(u.loose) == Rests(Flatten(p)) == Rests(l.loose)
      && (forall x :: x in u.loose + l.loose ==>
            exists y :: y in Flatten(p) && y.offset == x.offset && y.event.dur == x.event.dur)
  {
    var es := Flatten(p);
    SplitConservesPitches(es, t);
    SplitSeparatesPitches(es, t);
    SplitKeepsRests(es, t);
    SplitKeepsTiming(es, t);
  }
}

/**
 * `get_score_info`: a summary of a score, part by part (name, instrument,
 * measure count, number of distinct voice ids, first clef sign), with the
 * score's first time signature and key signature and its longest part.
 */
module Introspect {
  import opened Document
  import opened Text

  datatype PartInfo = PartInfo(
    index: nat,
    name: string,
    instrumentName: string,
    measureCount: nat,
    voiceCount: nat,
    clef: string)

  datatype ScoreInfo = ScoreInfo(
    title: Option<string>,
    composer: Option<string>,
    parts: seq<PartInfo>,
    totalMeasures: nat,
    timeSignature: string,
    keySignature: string)

  // ---------------------------------------------------------------------
  // Voices

  /** The ids of the voices of one measure. */
  function MeasureVoiceIds(vs: seq<Voice>): set<VoiceId> {
    if vs == [] then {} else MeasureVoiceIds(vs[..|vs| - 1]) + {vs[|vs| - 1].id}
  }

  /** The set of voice ids over all measures of a part. */
  function VoiceIds(ms: seq<Measure>): set<VoiceId> {
    if ms == [] then {} else VoiceIds(ms[..|ms| - 1]) + MeasureVoiceIds(ms[|ms| - 1].voices)
  }

  /** `len(voices) if voices else 1`. */
  function VoiceCount(ms: seq<Measure>): nat {
    var ids := VoiceIds(ms);
    if ids == {} then 1 else |ids|
  }

  lemma {:induction false} MeasureVoiceIdsMembers(vs: seq<Voice>, id: VoiceId)
    ensures id in MeasureVoiceIds(vs) <==> exists j :: 0 <= j < |vs| && vs[j].id == id
  {
    if vs != [] {
      var n := |vs| - 1;
      MeasureVoiceIdsMembers(vs[..n], id);
      if exists j :: 0 <= j < |vs| && vs[j].id == id {
        var j :| 0 <= j < |vs| && vs[j].id == id;
        if j < n {
          assert vs[..n][j].id == id;
        }
      }
    }
  }

  /** A voice id is counted exactly when some voice of some measure carries it. */
  lemma {:induction false} VoiceIdsMembers(ms: seq<Measure>, id: VoiceId)
    ensures id in VoiceIds(ms) <==>
      exists k, j :: 0 <= k < |ms| && 0 <= j < |ms[k].voices| && ms[k].voices[j].id == id
  {
    if ms != [] {
      var n := |ms| - 1;
      VoiceIdsMembers(ms[..n], id);
      MeasureVoiceIdsMembers(ms[n].voices, id);
      if exists k, j :: 0 <= k < |ms| && 0 <= j < |ms[k].voices| && ms[k].voices[j].id == id {
        var k, j :| 0 <= k < |ms| && 0 <= j < |ms[k].voices| && ms[k].voices[j].id == id;
        if k < n {
          assert ms[..n][k].voices[j].id == id;
        }
      }
      if id in VoiceIds(ms[..n]) {
        var k, j :| 0 <= k < n && 0 <= j < |ms[..n][k].voices| && ms[..n][k].voices[j].id == id;
        assert ms[k].voices[j].id == id;
      }
    }
  }

  /** The number of voices in a measure list, counting repeats. */
  function VoiceTotal(ms: seq<Measure>): nat {
    if ms == [] then 0 else VoiceTotal(ms[..|ms| - 1]) + |ms[|ms| - 1].voices|
  }

  lemma {:induction false} MeasureVoiceIdsBound(vs: seq<Voice>)
    ensures |MeasureVoiceIds(vs)| <= |vs|
  {
    if vs != [] {
      MeasureVoiceIdsBound(vs[..|vs| - 1]);
    }
  }

  lemma {:induction false} SetUnionBound<T>(a: set<T>, b: set<T>)
    ensures |a + b| <= |a| + |b|
  {
    if b != {} {
      var x :| x in b;
      SetUnionBound(a, b - {x});
      assert a + b == (a + (b - {x})) + {x};
    }
  }

  lemma {:induction false} VoiceIdsBound(ms: seq<Measure>)
    ensures |VoiceIds(ms)| <= VoiceTotal(ms)
  {
    if ms != [] {
      var n := |ms| - 1;
      VoiceIdsBound(ms[..n]);
      MeasureVoiceIdsBound(ms[n].voices);
      SetUnionBound(VoiceIds(ms[..n]), MeasureVoiceIds(ms[n].voices));
    }
  }

  /**
   * The voice count is at least one, and at most the number of voice
   * streams (or one when there are none): repeated ids count once.
   */
  lemma VoiceCountBounds(ms: seq<Measure>)
    ensures 1 <= VoiceCount(ms)
    ensures VoiceCount(ms) <= if VoiceTotal(ms) == 0 then 1 else VoiceTotal(ms)
  {
    VoiceIdsBound(ms);
  }

  /** A part without voice streams counts as one voice. */
  lemma NoVoicesCountOne(ms: seq<Measure>)
    requires forall k :: 0 <= k < |ms| ==> ms[k].voices == []
    ensures VoiceCount(ms) == 1
  {
    if VoiceIds(ms) != {} {
      var id :| id in VoiceIds(ms);
      VoiceIdsMembers(ms, id);
    }
  }

  /** The loops of `get_score_info` that collect a part's voice ids. */
  method CountVoices(ms: seq<Measure>) returns (n: nat)
    ensures n == VoiceCount(ms)
  {
    var ids: set<VoiceId> := {};
    var k := 0;
    while k < |ms|
      invariant 0 <= k <= |ms|
      invariant ids == VoiceIds(ms[..k])
    {
      var vs := ms[k].voices;
      var j := 0;
      while j < |vs|
        invariant 0 <= j <= |vs|
        invariant ids == VoiceIds(ms[..k]) + MeasureVoiceIds(vs[..j])
      {
        assert vs[..j + 1][..j] == vs[..j];
        ids := ids + {vs[j].id};
        j := j + 1;
      }
      assert vs[..j] == vs;
      assert ms[..k + 1][..k] == ms[..k];
      k := k + 1;
    }
    assert ms[..k] == ms;
    n := if ids == {} then 1 else |ids|;
  }

  // ---------------------------------------------------------------------
  // Per-part entries

  /** `clefs[0].sign if clefs else "Unknown"`, over the part-level clefs. */
  function ClefName(p: Part): string {
    if p.clefs == [] then "Unknown" else p.clefs[0].sign
  }

  /** `part.partName or f"Part {i+1}"`: an empty name counts as missing. */
  function PartName(p: Part, i: nat): (r: string)
    ensures |r| > 0
    ensures p.name.Some? && p.name.value != "" ==> r == p.name.value
    ensures (p.name.None? || p.name.value == "") ==> r == "Part " + NatToString(i + 1)
  {
    if p.name.Some? && p.name.value != "" then p.name.value else "Part " + NatToString(i + 1)
  }

  /** `str(part.getInstrument()) if part.getInstrument() else "Unknown"`. */
  function InstrumentName(p: Part): string {
    if p.instrument.Some? then p.instrument.value else "Unknown"
  }

  function PartInfoOf(p: Part, i: nat): PartInfo {
    PartInfo(i, PartName(p, i), InstrumentName(p), |p.measures|, VoiceCount(p.measures), ClefName(p))
  }

  /** The entries of the first `n` parts, in order. */
  function PartInfos(parts: seq<Part>, n: nat): (r: seq<PartInfo>)
    requires n <= |parts|
    ensures |r| == n
    ensures forall i :: 0 <= i < n ==> r[i] == PartInfoOf(parts[i], i)
  {
    if n == 0 then [] else PartInfos(parts, n - 1) + [PartInfoOf(parts[n - 1], n - 1)]
  }

  // ---------------------------------------------------------------------
  // Longest part

  /** `max(p.measure_count for p in parts_info) if parts_info else 0`. */
  function MaxMeasures(infos: seq<PartInfo>): (r: nat)
    ensures infos == [] ==> r == 0
    ensures forall i :: 0 <= i < |infos| ==> infos[i].measureCount <= r
    ensures infos != [] ==> exists i :: 0 <= i < |infos| && infos[i].measureCount == r
  {
    if infos == [] then 0
    else
      var n := |infos| - 1;
      var m := MaxMeasures(infos[..n]);
      assert forall i :: 0 <= i < n ==> infos[..n][i] == infos[i];
      if n == 0 || infos[n].measureCount > m then infos[n].measureCount else m
  }

  // ---------------------------------------------------------------------
  // Signatures from `score.flatten()`

  /** Markers of a measure at offsets within the part. */
  function ShiftMarks(ms: seq<Marked>, delta: real): seq<Marked> {
    seq(|ms|, i requires 0 <= i < |ms| => Marked(ms[i].offset + delta, ms[i].marker))
  }

  lemma ShiftMarksAppend(a: seq<Marked>, b: seq<Marked>, d: real)
    ensures ShiftMarks(a + b, d) == ShiftMarks(a, d) + ShiftMarks(b, d)
  {
  }

  /** Shifting markers to the score's offsets and picking the markers of one class commute. */
  lemma {:induction false} OfKindShift(ms: seq<Marked>, k: MarkerKind, d: real)
    ensures OfKind(ShiftMarks(ms, d), k) == ShiftMarks(OfKind(ms, k), d)
  {
    if ms != [] {
      var n := |ms| - 1;
      var shifted := ShiftMarks(ms, d);
      var last := Marked(ms[n].offset + d, ms[n].marker);
      var tail := if IsKind(ms[n].marker, k) then [ms[n]] else [];
      assert shifted[..n] == ShiftMarks(ms[..n], d);
      assert shifted[n] == last;
      assert OfKind(shifted, k) == OfKind(shifted[..n], k) + (if IsKind(last.marker, k) then [last] else []);
      assert OfKind(ms, k) == OfKind(ms[..n], k) + tail;
      OfKindShift(ms[..n], k, d);
      ShiftMarksAppend(OfKind(ms[..n], k), tail, d);
      assert ShiftMarks(tail, d) == if IsKind(last.marker, k) then [last] else [];
    }
  }

  function MeasuresMarks(ms: seq<Measure>): seq<Marked> {
    if ms == [] then [] else MeasuresMarks(ms[..|ms| - 1]) + ShiftMarks(ms[|ms| - 1].markers, ms[|ms| - 1].offset)
  }

  /** Every measure marker of the score at its offset in the score, part after part. */
  function ScoreMarks(parts: seq<Part>): seq<Marked> {
    if parts == [] then [] else ScoreMarks(parts[..|parts| - 1]) + MeasuresMarks(parts[|parts| - 1].measures)
  }

  /**
   * The position of the element a flattened, offset-sorted stream lists
   * first: the smallest offset, and of several at that offset the first.
   */
  function EarliestIndex(xs: seq<Marked>): (r: nat)
    requires xs != []
    ensures r < |xs|
    ensures forall k :: 0 <= k < |xs| ==> xs[r].offset <= xs[k].offset
    ensures forall k :: 0 <= k < r ==> xs[k].offset > xs[r].offset
  {
    var n := |xs| - 1;
    if n == 0 then 0
    else
      var j := EarliestIndex(xs[..n]);
      assert forall k :: 0 <= k < n ==> xs[..n][k] == xs[k];
      if xs[n].offset < xs[j].offset then n else j
  }

  /** `f"{ts.numerator}/{ts.denominator}"`. */
  function TimeText(numerator: int, denominator: int): string {
    IntToString(numerator) + "/" + IntToString(denominator)
  }

  /** `str(ks.sharps) + " sharps/flats"`. */
  function KeyText(sharps: int): string {
    IntToString(sharps) + " sharps/flats"
  }

  function TimeSignatureOf(parts: seq<Part>): string {
    var ts := OfKind(ScoreMarks(parts), TimeSigKind);
    if ts == [] then "4/4"
    else
      var m := ts[EarliestIndex(ts)].marker;
      OfKindMembers(ScoreMarks(parts), TimeSigKind, ts[EarliestIndex(ts)]);
      TimeText(m.numerator, m.denominator)
  }

  function KeySignatureOf(parts: seq<Part>): string {
    var ks := OfKind(ScoreMarks(parts), KeySigKind);
    if ks == [] then "C major"
    else
      OfKindMembers(ScoreMarks(parts), KeySigKind, ks[EarliestIndex(ks)]);
      KeyText(ks[EarliestIndex(ks)].marker.sharps)
  }

  /** The summary `get_score_info` returns. */
  function ScoreInfoOf(s: Score): ScoreInfo {
    var infos := PartInfos(s.parts, |s.parts|);
    ScoreInfo(
      if s.metadata.Some? then s.metadata.value.title else None,
      if s.metadata.Some? then s.metadata.value.composer else None,
      infos,
      MaxMeasures(infos),
      TimeSignatureOf(s.parts),
      KeySignatureOf(s.parts))
  }

  /** `get_score_info(score)`: the loop over the parts, then the signatures and the maximum. */
  method GetScoreInfo(s: Score) returns (info: ScoreInfo)
    ensures info == ScoreInfoOf(s)
  {
    var title: Option<string> := None;
    var composer: Option<string> := None;
    if s.metadata.Some? {
      title := s.metadata.value.title;
      composer := s.metadata.value.composer;
    }
    var infos: seq<PartInfo> := [];
    var i := 0;
    while i < |s.parts|
      invariant 0 <= i <= |s.parts|
      invariant infos == PartInfos(s.parts, i)
    {
      var part := s.parts[i];
      var voiceCount := CountVoices(part.measures);
      var clefName := if part.clefs != [] then part.clefs[0].sign else "Unknown";
      var name := if part.name.Some? && part.name.value != "" then part.name.value else "Part " + NatToString(i + 1);
      var instrumentName := if part.instrument.Some? then part.instrument.value else "Unknown";
      assert PartInfo(i, name, instrumentName, |part.measures|, voiceCount, clefName) == PartInfoOf(part, i);
      infos := infos + [PartInfo(i, name, instrumentName, |part.measures|, voiceCount, clefName)];
      i := i + 1;
    }
    assert infos == PartInfos(s.parts, |s.parts|);
    info := ScoreInfo(title, composer, infos, MaxMeasures(infos), TimeSignatureOf(s.parts), KeySignatureOf(s.parts));
  }

  // ---------------------------------------------------------------------
  // Properties of the summary

  /** One entry per part, in score order, each describing its own part. */
  lemma PartEntries(s: Score, i: int)
    requires 0 <= i < |s.parts|
    ensures |ScoreInfoOf(s).parts| == |s.parts|
    ensures ScoreInfoOf(s).parts[i].index == i
    ensures ScoreInfoOf(s).parts[i].measureCount == |s.parts[i].measures|
    ensures |ScoreInfoOf(s).parts[i].name| > 0
    ensures 1 <= ScoreInfoOf(s).parts[i].voiceCount
    ensures ScoreInfoOf(s).parts[i].clef == "Unknown" <==>
      s.parts[i].clefs == [] || s.parts[i].clefs[0].sign == "Unknown"
    ensures s.parts[i].clefs != [] ==> ScoreInfoOf(s).parts[i].clef == s.parts[i].clefs[0].sign
  {
    VoiceCountBounds(s.parts[i].measures);
  }

  /** Title and composer come from the metadata when there is one, and are absent otherwise. */
  lemma MetadataFields(s: Score)
    ensures s.metadata.None? ==> ScoreInfoOf(s).title.None? && ScoreInfoOf(s).composer.None?
    ensures s.metadata.Some? ==>
      ScoreInfoOf(s).title == s.metadata.value.title && ScoreInfoOf(s).composer == s.metadata.value.composer
  {
  }

  /** The total is the measure count of the longest part, 0 for a score without parts. */
  lemma TotalIsLongestPart(s: Score)
    ensures s.parts == [] ==> ScoreInfoOf(s).totalMeasures == 0
    ensures forall i :: 0 <= i < |s.parts| ==> |s.parts[i].measures| <= ScoreInfoOf(s).totalMeasures
    ensures s.parts != [] ==>
      exists i :: 0 <= i < |s.parts| && |s.parts[i].measures| == ScoreInfoOf(s).totalMeasures
  {
    var infos := PartInfos(s.parts, |s.parts|);
    if s.parts != [] {
      var i :| 0 <= i < |infos| && infos[i].measureCount == MaxMeasures(infos);
      assert |s.parts[i].measures| == ScoreInfoOf(s).totalMeasures;
    }
  }

  /**
   * The reported time signature is the one at the earliest offset in the
   * score; of several there, the first in part and measure order.
   */
  lemma TimeSignatureIsEarliest(s: Score)
    ensures OfKind(ScoreMarks(s.parts), TimeSigKind) == [] ==> ScoreInfoOf(s).timeSignature == "4/4"
    ensures OfKind(ScoreMarks(s.parts), TimeSigKind) != [] ==>
      exists x :: x in ScoreMarks(s.parts) && x.marker.TimeSig? &&
        ScoreInfoOf(s).timeSignature == TimeText(x.marker.numerator, x.marker.denominator) &&
        forall y :: y in ScoreMarks(s.parts) && y.marker.TimeSig? ==> x.offset <= y.offset
  {
    var ts := OfKind(ScoreMarks(s.parts), TimeSigKind);
    if ts != [] {
      var x := ts[EarliestIndex(ts)];
      OfKindMembers(ScoreMarks(s.parts), TimeSigKind, x);
      forall y | y in ScoreMarks(s.parts) && y.marker.TimeSig? ensures x.offset <= y.offset {
        OfKindMembers(ScoreMarks(s.parts), TimeSigKind, y);
      }
    }
  }

  /** The same for the key signature, with "C major" when there is none. */
  lemma KeySignatureIsEarliest(s: Score)
    ensures OfKind(ScoreMarks(s.parts), KeySigKind) == [] ==> ScoreInfoOf(s).keySignature == "C major"
    ensures OfKind(ScoreMarks(s.parts), KeySigKind) != [] ==>
      exists x :: x in ScoreMarks(s.parts) && x.marker.KeySig? &&
        ScoreInfoOf(s).keySignature == KeyText(x.marker.sharps) &&
        forall y :: y in ScoreMarks(s.parts) && y.marker.KeySig? ==> x.offset <= y.offset
  {
    var ks := OfKind(ScoreMarks(s.parts), KeySigKind);
    if ks != [] {
      var x := ks[EarliestIndex(ks)];
      OfKindMembers(ScoreMarks(s.parts), KeySigKind, x);
      forall y | y in ScoreMarks(s.parts) && y.marker.KeySig? ensures x.offset <= y.offset {
        OfKindMembers(ScoreMarks(s.parts), KeySigKind, y);
      }
    }
  }

  lemma NoSlashInNumber(i: int)
    ensures forall k :: 0 <= k < |IntToString(i)| ==> IntToString(i)[k] != '/' && IntToString(i)[k] != ' '
  {
    if i < 0 {
      var s := IntToString(i);
      forall k | 0 <= k < |s| ensures s[k] != '/' && s[k] != ' ' {
        if k > 0 {
          assert s[k] == NatToString(-i)[k - 1];
        }
      }
    }
  }

  /** A printed integer starts with "-" exactly when it is negative. */
  lemma SignShows(i: int)
    ensures |IntToString(i)| > 0 && (IntToString(i)[0] == '-' <==> i < 0)
  {
    if i >= 0 {
      assert '0' <= NatToString(i)[0] <= '9';
    }
  }

  lemma IntToStringInjective(a: int, b: int)
    requires IntToString(a) == IntToString(b)
    ensures a == b
  {
    SignShows(a);
    SignShows(b);
    if a < 0 {
      assert NatToString(-a) == IntToString(a)[1..] == NatToString(-b);
      NatToStringInjective(-a, -b);
    } else {
      NatToStringInjective(a, b);
    }
  }

  /** The "/" of a time-signature text sits right after the numerator. */
  lemma SlashPosition(n: int, d: int)
    ensures |IntToString(n)| < |TimeText(n, d)| && TimeText(n, d)[|IntToString(n)|] == '/'
    ensures TimeText(n, d)[..|IntToString(n)|] == IntToString(n)
    ensures TimeText(n, d)[|IntToString(n)| + 1..] == IntToString(d)
    ensures forall k :: 0 <= k < |IntToString(n)| ==> TimeText(n, d)[k] != '/'
  {
    NoSlashInNumber(n);
  }

  /** A time-signature text determines its numerator and denominator. */
  lemma TimeTextInjective(n1: int, d1: int, n2: int, d2: int)
    requires TimeText(n1, d1) == TimeText(n2, d2)
    ensures n1 == n2 && d1 == d2
  {
    var t := TimeText(n1, d1);
    SlashPosition(n1, d1);
    SlashPosition(n2, d2);
    assert |IntToString(n1)| == |IntToString(n2)|;
    IntToStringInjective(n1, n2);
    IntToStringInjective(d1, d2);
  }

  /** A key-signature text determines its number of sharps, and never reads as the default. */
  lemma KeyTextInjective(a: int, b: int)
    requires KeyText(a) == KeyText(b)
    ensures a == b
  {
    var suffix := " sharps/flats";
    assert IntToString(a) == KeyText(a)[..|KeyText(a)| - |suffix|];
    assert IntToString(b) == KeyText(b)[..|KeyText(b)| - |suffix|];
    IntToStringInjective(a, b);
  }

  lemma KeyTextNeverDefault(sharps: int)
    ensures KeyText(sharps) != "C major"
  {
  }

  /** The time default cannot be told from a real 4/4 signature. */
  lemma DefaultTimeIsFourFour()
    ensures TimeText(4, 4) == "4/4"
  {
    assert NatToString(4) == "4";
  }
}

/**
 * The in-memory score the splitter reads and writes, abstracted from music21.
 *
 * A score holds parts; a part holds measures (and, for the unmeasured parts
 * that the combined-voice split produces, loose events at absolute offsets).
 * A measure holds its number, its position in the part, context markers,
 * the notes and rests placed directly in it, and the events of its voice
 * sub-streams. Offsets and durations are exact rationals (quarter lengths).
 */
module Document {

  datatype Option<T> = None | Some(value: T)

  /** Which music21 clef class a clef is an instance of (`TrebleClef`, `BassClef` or neither). */
  datatype ClefFamily = TrebleFamily | BassFamily | OtherFamily

  /** A clef: its sign ("G", "F", "C", "percussion", ...) and its family. */
  datatype Clef = Clef(sign: string, family: ClefFamily)

  /** A musical event: silence, one pitch, or several pitches sounding together. */
  datatype Event =
    | Rest(dur: real)
    | Note(pitch: int, dur: real)
    | Chord(pitches: seq<int>, dur: real)

  /** An event at an offset within its container. */
  datatype Placed = Placed(offset: real, event: Event)

  /** Non-note elements of a measure; `OtherMark` stands for everything the splitter does not copy. */
  datatype Marker =
    | TimeSig(numerator: int, denominator: int)
    | KeySig(sharps: int)
    | ClefChange(clef: Clef)
    | OtherMark(kind: string)

  datatype Marked = Marked(offset: real, marker: Marker)

  /** music21 voice ids are numbers or strings. */
  datatype VoiceId = NumberId(n: int) | NameId(name: string)

  datatype Voice = Voice(id: VoiceId, events: seq<Placed>)

  datatype Measure = Measure(
    number: int,
    offset: real,
    markers: seq<Marked>,
    events: seq<Placed>,
    voices: seq<Voice>)

  /**
   * A part. `clefs` are the clefs placed directly in the part (what
   * `part.getElementsByClass('Clef')` returns); `instrument` is the text of
   * `str(part.getInstrument())`, `None` when there is no instrument.
   */
  datatype Part = Part(
    name: Option<string>,
    instrument: Option<string>,
    clefs: seq<Clef>,
    measures: seq<Measure>,
    loose: seq<Placed>)

  datatype Metadata = Metadata(title: Option<string>, composer: Option<string>)

  datatype Score = Score(metadata: Option<Metadata>, parts: seq<Part>)

  /** `part.partName or ""`. */
  function NameText(p: Part): string {
    if p.name.Some? then p.name.value else ""
  }

  /** An unmeasured, unnamed part holding only the events `es` at their offsets. */
  function LoosePart(es: seq<Placed>): Part {
    Part(None, None, [], [], es)
  }

  // ---------------------------------------------------------------------
  // Selecting markers by class: `getElementsByClass`

  datatype MarkerKind = TimeSigKind | KeySigKind | ClefKind

  predicate IsKind(m: Marker, k: MarkerKind) {
    match k
    case TimeSigKind => m.TimeSig?
    case KeySigKind => m.KeySig?
    case ClefKind => m.ClefChange?
  }

  /** `measure.getElementsByClass(kind)`: the markers of that kind, in measure order. */
  function OfKind(ms: seq<Marked>, k: MarkerKind): seq<Marked> {
    if ms == [] then []
    else OfKind(ms[..|ms| - 1], k) + (if IsKind(ms[|ms| - 1].marker, k) then [ms[|ms| - 1]] else [])
  }

  /** Exactly the markers of the requested kind are selected. */
  lemma {:induction false} OfKindMembers(ms: seq<Marked>, k: MarkerKind, x: Marked)
    ensures x in OfKind(ms, k) <==> x in ms && IsKind(x.marker, k)
  {
    if ms != [] {
      var init, last := ms[..|ms| - 1], ms[|ms| - 1];
      OfKindMembers(init, k, x);
      assert ms == init + [last];
    }
  }

  // ---------------------------------------------------------------------
  // Flattening: `part.flatten()`

  /** The events `es` moved by `delta` (a measure's offset within its part). */
  function Shift(es: seq<Placed>, delta: real): seq<Placed> {
    seq(|es|, i requires 0 <= i < |es| => Placed(es[i].offset + delta, es[i].event))
  }

  /** The events of all voices of a measure, voice by voice. */
  function VoicesEvents(vs: seq<Voice>): seq<Placed> {
    if vs == [] then [] else VoicesEvents(vs[..|vs| - 1]) + vs[|vs| - 1].events
  }

  /** Every note and rest of a measure, direct or inside a voice, at part-level offsets. */
  function MeasureFlat(m: Measure): seq<Placed> {
    Shift(m.events + VoicesEvents(m.voices), m.offset)
  }

  function MeasuresFlat(ms: seq<Measure>): seq<Placed> {
    if ms == [] then [] else MeasuresFlat(ms[..|ms| - 1]) + MeasureFlat(ms[|ms| - 1])
  }

  /** `part.flatten().notesAndRests`, in part order (music21 orders them by offset). */
  function Flatten(p: Part): seq<Placed> {
    p.loose + MeasuresFlat(p.measures)
  }

  /** The pitched events (notes and chords) of a sequence: `.notes`. */
  function NoteEvents(es: seq<Placed>): (r: seq<Event>)
    ensures |r| <= |es|
    ensures forall e :: e in r ==> !e.Rest?
  {
    if es == [] then []
    else NoteEvents(es[..|es| - 1]) + (if es[|es| - 1].event.Rest? then [] else [es[|es| - 1].event])
  }

  /** `part.flatten().notes`. */
  function Notes(p: Part): seq<Event> {
    NoteEvents(Flatten(p))
  }

  function ChordCount(es: seq<Event>): (n: nat)
    ensures n <= |es|
  {
    if es == [] then 0 else ChordCount(es[..|es| - 1]) + (if es[|es| - 1].Chord? then 1 else 0)
  }

  // ---------------------------------------------------------------------
  // Pitch populations

  /** The pitches an event sounds. */
  function EventPitches(e: Event): seq<int> {
    match e
    case Rest(_) => []
    case Note(p, _) => [p]
    case Chord(ps, _) => ps
  }

  /** Every pitch sounded, chord members included (the population of the median). */
  function AllPitches(es: seq<Event>): seq<int> {
    if es == [] then [] else AllPitches(es[..|es| - 1]) + EventPitches(es[|es| - 1])
  }

  /** Pitches of single notes only: `[n.pitch.midi for n in notes if hasattr(n, 'pitch')]`. */
  function SinglePitches(es: seq<Event>): seq<int> {
    if es == [] then []
    else SinglePitches(es[..|es| - 1]) + (if es[|es| - 1].Note? then [es[|es| - 1].pitch] else [])
  }

  /** Every pitch sounded by a sequence of placed events. */
  function PlacedPitches(es: seq<Placed>): seq<int> {
    if es == [] then [] else PlacedPitches(es[..|es| - 1]) + EventPitches(es[|es| - 1].event)
  }

  /** The rests of a sequence of placed events, with their offsets. */
  function Rests(es: seq<Placed>): seq<Placed> {
    if es == [] then []
    else Rests(es[..|es| - 1]) + (if es[|es| - 1].event.Rest? then [es[|es| - 1]] else [])
  }

  /** The events placed directly in the measures, measure after measure. */
  function DirectEvents(ms: seq<Measure>): seq<Placed> {
    if ms == [] then [] else DirectEvents(ms[..|ms| - 1]) + ms[|ms| - 1].events
  }

  lemma {:induction false} PlacedPitchesAppend(a: seq<Placed>, b: seq<Placed>)
    ensures PlacedPitches(a + b) == PlacedPitches(a) + PlacedPitches(b)
    decreases |b|
  {
    if b != [] {
      assert (a + b)[..|a + b| - 1] == a + b[..|b| - 1];
      PlacedPitchesAppend(a, b[..|b| - 1]);
    } else {
      assert a + b == a;
    }
  }

  lemma {:induction false} RestsAppend(a: seq<Placed>, b: seq<Placed>)
    ensures Rests(a + b) == Rests(a) + Rests(b)
    decreases |b|
  {
    if b != [] {
      assert (a + b)[..|a + b| - 1] == a + b[..|b| - 1];
      RestsAppend(a, b[..|b| - 1]);
    } else {
      assert a + b == a;
    }
  }
}

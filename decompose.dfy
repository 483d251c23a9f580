/**
 * The pitch-threshold decomposer shared by `split_grand_staff` and
 * `split_combined_voices`: an event is divided into an upper side (pitches
 * at or above the threshold) and a lower side (pitches below it). A rest
 * goes to both sides; a side left with one pitch becomes a note, a side
 * left with none emits nothing.
 */
module Decompose {
  import opened Document

  /** `[p for p in ps if p >= t]`: the pitches that go to the upper side. */
  function Above(ps: seq<int>, t: int): (r: seq<int>)
    ensures forall p :: p in r ==> p >= t && p in ps
  {
    if ps == [] then []
    else Above(ps[..|ps| - 1], t) + (if ps[|ps| - 1] >= t then [ps[|ps| - 1]] else [])
  }

  /** `[p for p in ps if p < t]`: the pitches that go to the lower side. */
  function Below(ps: seq<int>, t: int): (r: seq<int>)
    ensures forall p :: p in r ==> p < t && p in ps
  {
    if ps == [] then []
    else Below(ps[..|ps| - 1], t) + (if ps[|ps| - 1] < t then [ps[|ps| - 1]] else [])
  }

  /** Every pitch lands on exactly one side: the two sides together are the original pitches. */
  lemma {:induction false} AboveBelowPartition(ps: seq<int>, t: int)
    ensures multiset(Above(ps, t)) + multiset(Below(ps, t)) == multiset(ps)
  {
    if ps != [] {
      var init, last := ps[..|ps| - 1], ps[|ps| - 1];
      AboveBelowPartition(init, t);
      assert ps == init + [last];
    }
  }

  /**
   * The loop over `elem.notes` in `split_grand_staff`: each pitch of a chord
   * is appended to the upper or the lower list.
   */
  method PartitionPitches(ps: seq<int>, t: int) returns (upper: seq<int>, lower: seq<int>)
    ensures upper == Above(ps, t) && lower == Below(ps, t)
  {
    upper, lower := [], [];
    var i := 0;
    while i < |ps|
      invariant 0 <= i <= |ps|
      invariant upper == Above(ps[..i], t) && lower == Below(ps[..i], t)
    {
      assert ps[..i + 1][..i] == ps[..i];
      if ps[i] >= t {
        upper := upper + [ps[i]];
      } else {
        lower := lower + [ps[i]];
      }
      i := i + 1;
    }
    assert ps[..i] == ps;
  }

  /**
   * What one side of a split chord emits: nothing for no pitches, a note for
   * one pitch, a chord for two or more; the chord's duration is kept.
   */
  function Side(ps: seq<int>, dur: real): (r: Option<Event>)
    ensures r.None? <==> ps == []
    ensures r.Some? ==> !r.value.Rest? && EventPitches(r.value) == ps && r.value.dur == dur
    ensures r.Some? ==> (r.value.Note? <==> |ps| == 1)
  {
    if ps == [] then None
    else if |ps| == 1 then Some(Note(ps[0], dur))
    else Some(Chord(ps, dur))
  }

  /** The pitches a side emits (none when it emits nothing). */
  function SidePitches(o: Option<Event>): seq<int> {
    if o.Some? then EventPitches(o.value) else []
  }

  /**
   * The split of one event at threshold `t`, as `(upper, lower)`. A rest is
   * duplicated on both sides; a note goes whole to the side its pitch
   * selects; a chord's pitches are partitioned, every pitch going to exactly
   * one side, and no side ever holds a one-pitch chord.
   */
  function SplitEvent(e: Event, t: int): (r: (Option<Event>, Option<Event>))
    ensures e.Rest? ==> r.0 == Some(e) && r.1 == Some(e)
    ensures e.Note? ==> (if e.pitch >= t then r == (Some(e), None) else r == (None, Some(e)))
    ensures multiset(SidePitches(r.0)) + multiset(SidePitches(r.1)) == multiset(EventPitches(e))
    ensures forall p :: p in SidePitches(r.0) ==> p >= t
    ensures forall p :: p in SidePitches(r.1) ==> p < t
    ensures r.0.Some? ==> r.0.value.dur == e.dur && (r.0.value.Chord? ==> |r.0.value.pitches| >= 2)
    ensures r.1.Some? ==> r.1.value.dur == e.dur && (r.1.value.Chord? ==> |r.1.value.pitches| >= 2)
  {
    match e
    case Rest(_) => (Some(e), Some(e))
    case Note(p, _) => if p >= t then (Some(e), None) else (None, Some(e))
    case Chord(ps, d) =>
      AboveBelowPartition(ps, t);
      (Side(Above(ps, t), d), Side(Below(ps, t), d))
  }

  /**
   * A chord leaves a side empty exactly when none of its pitches falls on
   * that side of `t`; otherwise that side gets a note or a chord.
   */
  lemma ChordSideEmptyIff(e: Event, t: int)
    requires e.Chord?
    ensures SplitEvent(e, t).0.None? <==> Above(e.pitches, t) == []
    ensures SplitEvent(e, t).1.None? <==> Below(e.pitches, t) == []
  {
  }

  /** What a side contributes at offset `off`. */
  function Emit(off: real, o: Option<Event>): seq<Placed> {
    if o.Some? then [Placed(off, o.value)] else []
  }

  /** The upper side of a sequence of events, each split at `t` and kept at its offset. */
  function UpperEvents(es: seq<Placed>, t: int): seq<Placed> {
    if es == [] then []
    else UpperEvents(es[..|es| - 1], t) + Emit(es[|es| - 1].offset, SplitEvent(es[|es| - 1].event, t).0)
  }

  /** The lower side of a sequence of events, each split at `t` and kept at its offset. */
  function LowerEvents(es: seq<Placed>, t: int): seq<Placed> {
    if es == [] then []
    else LowerEvents(es[..|es| - 1], t) + Emit(es[|es| - 1].offset, SplitEvent(es[|es| - 1].event, t).1)
  }

  lemma {:induction false} UpperEventsAppend(a: seq<Placed>, b: seq<Placed>, t: int)
    ensures UpperEvents(a + b, t) == UpperEvents(a, t) + UpperEvents(b, t)
    decreases |b|
  {
    if b != [] {
      assert (a + b)[..|a + b| - 1] == a + b[..|b| - 1];
      UpperEventsAppend(a, b[..|b| - 1], t);
    } else {
      assert a + b == a;
    }
  }

  lemma {:induction false} LowerEventsAppend(a: seq<Placed>, b: seq<Placed>, t: int)
    ensures LowerEvents(a + b, t) == LowerEvents(a, t) + LowerEvents(b, t)
    decreases |b|
  {
    if b != [] {
      assert (a + b)[..|a + b| - 1] == a + b[..|b| - 1];
      LowerEventsAppend(a, b[..|b| - 1], t);
    } else {
      assert a + b == a;
    }
  }

  /**
   * The loop over events shared by `split_grand_staff` (one measure's events)
   * and `split_combined_voices` (the flattened part): each event is split at
   * `t` and its sides appended to the upper and lower lists.
   */
  method SplitEvents(es: seq<Placed>, t: int) returns (upper: seq<Placed>, lower: seq<Placed>)
    ensures upper == UpperEvents(es, t) && lower == LowerEvents(es, t)
  {
    upper, lower := [], [];
    var i := 0;
    while i < |es|
      invariant 0 <= i <= |es|
      invariant upper == UpperEvents(es[..i], t) && lower == LowerEvents(es[..i], t)
    {
      var x := es[i];
      assert es[..i + 1][..i] == es[..i];
      match x.event {
        case Rest(_) =>
          upper := upper + [x];
          lower := lower + [x];
        case Note(p, _) =>
          if p >= t {
            upper := upper + [x];
          } else {
            lower := lower + [x];
          }
        case Chord(ps, d) =>
          var high, low := PartitionPitches(ps, t);
          upper := upper + Emit(x.offset, Side(high, d));
          lower := lower + Emit(x.offset, Side(low, d));
      }
      i := i + 1;
    }
    assert es[..i] == es;
  }

  /**
   * Pitch conservation: the pitches of the two sides together are exactly
   * the pitches of the input, none lost and none duplicated.
   */
  lemma {:induction false} SplitConservesPitches(es: seq<Placed>, t: int)
    ensures multiset(PlacedPitches(UpperEvents(es, t))) + multiset(PlacedPitches(LowerEvents(es, t)))
         == multiset(PlacedPitches(es))
  {
    if es != [] {
      var init, last := es[..|es| - 1], es[|es| - 1];
      var r := SplitEvent(last.event, t);
      SplitConservesPitches(init, t);
      PlacedPitchesAppend(UpperEvents(init, t), Emit(last.offset, r.0));
      PlacedPitchesAppend(LowerEvents(init, t), Emit(last.offset, r.1));
      assert PlacedPitches(Emit(last.offset, r.0)) == SidePitches(r.0);
      assert PlacedPitches(Emit(last.offset, r.1)) == SidePitches(r.1);
    }
  }

  /** Every pitch on the upper side is at or above `t`; every pitch on the lower side is below it. */
  lemma {:induction false} SplitSeparatesPitches(es: seq<Placed>, t: int)
    ensures forall p :: p in PlacedPitches(UpperEvents(es, t)) ==> p >= t
    ensures forall p :: p in PlacedPitches(LowerEvents(es, t)) ==> p < t
  {
    if es != [] {
      var init, last := es[..|es| - 1], es[|es| - 1];
      var r := SplitEvent(last.event, t);
      var u, eu := UpperEvents(init, t), Emit(last.offset, r.0);
      var l, el := LowerEvents(init, t), Emit(last.offset, r.1);
      SplitSeparatesPitches(init, t);
      assert UpperEvents(es, t) == u + eu;
      assert LowerEvents(es, t) == l + el;
      PlacedPitchesAppend(u, eu);
      PlacedPitchesAppend(l, el);
      assert PlacedPitches(eu) == SidePitches(r.0);
      assert PlacedPitches(el) == SidePitches(r.1);
    }
  }

  lemma RestsOfEmit(x: Placed, o: Option<Event>)
    requires o == Some(x.event) || o.None? || (o.Some? && !o.value.Rest? && !x.event.Rest?)
    ensures Rests(Emit(x.offset, o)) == if x.event.Rest? && o.Some? then [x] else []
  {
    var em := Emit(x.offset, o);
    if o.Some? {
      assert em == [] + [Placed(x.offset, o.value)];
    }
  }

  /** Rest alignment: both sides carry exactly the input's rests, at the same offsets and durations. */
  lemma {:induction false} SplitKeepsRests(es: seq<Placed>, t: int)
    ensures Rests(UpperEvents(es, t)) == Rests(es)
    ensures Rests(LowerEvents(es, t)) == Rests(es)
  {
    if es != [] {
      var init, last := es[..|es| - 1], es[|es| - 1];
      var r := SplitEvent(last.event, t);
      var u, eu := UpperEvents(init, t), Emit(last.offset, r.0);
      var l, el := LowerEvents(init, t), Emit(last.offset, r.1);
      SplitKeepsRests(init, t);
      assert UpperEvents(es, t) == u + eu;
      assert LowerEvents(es, t) == l + el;
      RestsAppend(u, eu);
      RestsAppend(l, el);
      RestsOfEmit(last, r.0);
      RestsOfEmit(last, r.1);
    }
  }

  /** Timing is kept: whatever a side emits sits at the offset, and has the duration, of an input event. */
  lemma {:induction false} SplitKeepsTiming(es: seq<Placed>, t: int)
    ensures forall x :: x in UpperEvents(es, t) ==> exists y :: y in es && y.offset == x.offset && y.event.dur == x.event.dur
    ensures forall x :: x in LowerEvents(es, t) ==> exists y :: y in es && y.offset == x.offset && y.event.dur == x.event.dur
  {
    if es != [] {
      var init, last := es[..|es| - 1], es[|es| - 1];
      SplitKeepsTiming(init, t);
      assert forall y :: y in init ==> y in es;
      assert last in es;
    }
  }
}

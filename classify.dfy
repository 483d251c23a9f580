/**
 * `VoiceType` and `detect_voice_type`: a part's voice type is read from its
 * name first (keywords in a fixed order, first match wins), then from its
 * first clef and its position among the score's parts.
 */
module Classify {
  import opened Document
  import opened Text

  datatype VoiceType = Soprano | Alto | Tenor | Bass | Piano | Violin | Other

  /** The enum's value: the lower-case label of the voice type. */
  function Value(v: VoiceType): string {
    match v
    case Soprano => "soprano"
    case Alto => "alto"
    case Tenor => "tenor"
    case Bass => "bass"
    case Piano => "piano"
    case Violin => "violin"
    case Other => "other"
  }

  /**
   * The enum lookup by value, `VoiceType(s)`: the member whose value is `s`,
   * `None` where Python raises `ValueError`. It inverts `Value`.
   */
  function FromValue(s: string): (r: Option<VoiceType>)
    ensures r.Some? ==> Value(r.value) == s
    ensures forall v :: Value(v) == s ==> r == Some(v)
  {
    if s == "soprano" then Some(Soprano)
    else if s == "alto" then Some(Alto)
    else if s == "tenor" then Some(Tenor)
    else if s == "bass" then Some(Bass)
    else if s == "piano" then Some(Piano)
    else if s == "violin" then Some(Violin)
    else if s == "other" then Some(Other)
    else None
  }

  /** The display name an extracted part receives: `voice_type.value.capitalize()`. */
  function DisplayName(v: VoiceType): string {
    Capitalize(Value(v))
  }

  /** The keyword rules on the lower-cased part name, in the order they are tried. */
  function KeywordType(name: string): (r: Option<VoiceType>)
    ensures r.Some? ==> r.value != Other
  {
    if Contains(name, "soprano") || Contains(name, "sop") then Some(Soprano)
    else if Contains(name, "alto") then Some(Alto)
    else if Contains(name, "tenor") || Contains(name, "ten") then Some(Tenor)
    else if Contains(name, "bass") || Contains(name, "bas") then Some(Bass)
    else if Contains(name, "piano") then Some(Piano)
    else if Contains(name, "violin") || Contains(name, "vln") then Some(Violin)
    else None
  }

  /** The clef rules: a treble clef gives a high voice, a bass clef a low one, anything else `Other`. */
  function ClefType(clefs: seq<Clef>, index: int, total: int): VoiceType {
    if clefs == [] then Other
    else match clefs[0].family
      case TrebleFamily => if total == 4 then (if index < 2 then Soprano else Alto) else Soprano
      case BassFamily => if total == 4 then (if index < 3 then Tenor else Bass) else Bass
      case OtherFamily => Other
  }

  /**
   * `detect_voice_type(part, part_index, total_parts)`. A name keyword decides
   * whatever the clefs say; only without one do the first clef and the
   * position decide. Piano and violin come from names only, and `Other` is
   * returned exactly when neither a keyword nor a treble or bass clef applies.
   */
  function DetectVoiceType(p: Part, index: int, total: int): (r: VoiceType)
    ensures KeywordType(Lower(NameText(p))).Some? ==> r == KeywordType(Lower(NameText(p))).value
    ensures (r == Piano || r == Violin) ==> KeywordType(Lower(NameText(p))).Some?
    ensures r == Other <==>
      KeywordType(Lower(NameText(p))).None? && (p.clefs == [] || p.clefs[0].family == OtherFamily)
  {
    var k := KeywordType(Lower(NameText(p)));
    if k.Some? then k.value else ClefType(p.clefs, index, total)
  }

  /**
   * The long keywords add nothing: "soprano", "tenor" and "bass" contain
   * "sop", "ten" and "bas", so the rules are decided by the short ones.
   */
  lemma ShortKeywordsDecide(name: string)
    ensures KeywordType(name) ==
      if Contains(name, "sop") then Some(Soprano)
      else if Contains(name, "alto") then Some(Alto)
      else if Contains(name, "ten") then Some(Tenor)
      else if Contains(name, "bas") then Some(Bass)
      else if Contains(name, "piano") then Some(Piano)
      else if Contains(name, "violin") || Contains(name, "vln") then Some(Violin)
      else None
  {
    if Contains(name, "soprano") {
      ContainsPrefix(name, "soprano", "sop");
    }
    if Contains(name, "tenor") {
      ContainsPrefix(name, "tenor", "ten");
    }
    if Contains(name, "bass") {
      ContainsPrefix(name, "bass", "bas");
    }
  }

  /** Keyword priority: a part whose name holds "sop" is a soprano, whatever its clef and position. */
  lemma SopranoKeywordWins(p: Part, index: int, total: int)
    requires Contains(Lower(NameText(p)), "sop")
    ensures DetectVoiceType(p, index, total) == Soprano
  {
  }

  /** "Soprano 1" with a bass clef, last of four parts, is still a soprano. */
  lemma SopranoOneIsSoprano(measures: seq<Measure>)
    ensures DetectVoiceType(Part(Some("Soprano 1"), None, [Clef("F", BassFamily)], measures, []), 3, 4) == Soprano
  {
    var lowered := Lower("Soprano 1");
    assert lowered[..3] == "sop";
    assert OccursAt(lowered, "sop", 0);
    ContainsAt(lowered, "sop");
  }

  /**
   * The clef fallback: a treble clef gives a soprano (an alto from the third
   * of four parts on), a bass clef a bass (a tenor before the last of four).
   */
  lemma ClefFallback(p: Part, index: int, total: int)
    requires KeywordType(Lower(NameText(p))).None? && p.clefs != []
    ensures p.clefs[0].family == TrebleFamily ==>
      DetectVoiceType(p, index, total) == (if total == 4 && index >= 2 then Alto else Soprano)
    ensures p.clefs[0].family == BassFamily ==>
      DetectVoiceType(p, index, total) == (if total == 4 && index < 3 then Tenor else Bass)
  {
  }

  /** An unnamed part with a bass clef, at index 3 of four parts, is the bass. */
  lemma UnnamedBassClefLastIsBass(measures: seq<Measure>)
    ensures DetectVoiceType(Part(None, None, [Clef("F", BassFamily)], measures, []), 3, 4) == Bass
  {
    assert !Contains("", "sop");
  }
}

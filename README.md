# Voice separation for choral scores: a verified model

This project models in Dafny the part of the sheet-music converter that splits a
choral score into one score per voice, together with the score summary that the
converter prints before it splits. A score is a value: it holds parts, each part
holds measures, and each measure holds markers (time signatures, key signatures,
clefs), notes, rests and chords, and voice sub-streams. The model covers these
routines:

- **`detect_voice_type`** guesses the voice of a part from keywords in its name,
  and otherwise from its first clef and its position in the score.
- **`extract_voice`** copies a part measure by measure. It keeps the context
  markers, and either the notes and rests placed directly in the measure or those
  of the chosen voice. Without a voice id, notes inside voice streams are not copied.
- **`split_grand_staff`** and **`split_combined_voices`** split a two-voice staff
  at a pitch. Each side gets the chord's members on its side of the split pitch:
  nothing, a note, or a chord. A rest goes to both sides. The grand-staff split
  reads only the notes and rests placed directly in each measure.
- **`split_parts`** writes one output per part, keyed by voice type. A later part
  of the same type overwrites an earlier one.
- **`split_satb`** picks a strategy by the number of parts:
  - four parts map directly to soprano, alto, tenor and bass;
  - two grand staves are each split at middle C;
  - any other count uses a heuristic. It drops parts with fewer than 50 notes and
    sets piano parts aside. Two chord-heavy parts are split at their medians;
    three or more voice parts are ranked by their mean pitch; otherwise the voice
    parts are numbered. A single piano is named `piano`, and several are named
    `piano_1`, `piano_2` and so on.
- **`get_score_info`** returns one entry per part, plus the first time signature
  and key signature of the flattened score and the longest measure count.

Modules:

- `Text`: lower-casing, capitalising, substring search, integer printing.
- `Document`: the score datatypes, selecting markers by class, and `flatten`.
- `Decompose`: splitting events at a pitch.
- `Sorting`: Python's stable `list.sort`, with and without `reverse`.
- `Statistics`: the chord ratio, the mean and the upper median.
- `Classify`: `VoiceType` and `detect_voice_type`.
- `Assemble`: `extract_voice`, `split_grand_staff`, `split_combined_voices`.
- `Results`: a dictionary filled by a loop, where the last write wins.
- `Splitter`: `split_parts` and `split_satb`.
- `Introspect`: `PartInfo`, `ScoreInfo`, `get_score_info`.

Each routine with a loop is a method proved equal to a specification function.
The lemmas prove the properties of those functions:
- pitches are conserved, and each side of a split is bounded by the split pitch;
- rests and timing are kept;
- the median is an upper median;
- the range ranking is a descending permutation;
- each strategy produces the keys and entries stated below;
- the voice and piano names never collide;
- the summary's fields mean what the code intends.

## Model

| member | source | states |
|---|---|---|
| Classify.FromValue | src/converter/part_splitter.py:9-17 | the enum lookup by value inverts `Value`: it returns `Some(v)` exactly when `Value(v)` is the string |
| Classify.KeywordType | src/converter/part_splitter.py:44-58 | the name rules never yield `Other` |
| Classify.DetectVoiceType | src/converter/part_splitter.py:32-75 | a name keyword decides the type regardless of clefs; piano and violin come only from keywords; `Other` is returned iff there is no keyword and no treble or bass first clef |
| Classify.ShortKeywordsDecide | src/converter/part_splitter.py:47-54 | "soprano", "tenor" and "bass" are subsumed by "sop", "ten" and "bas": the rules are equivalent to the short keywords alone |
| Classify.SopranoKeywordWins | src/converter/part_splitter.py:47-48 | a part whose lower-cased name contains "sop" is a soprano, whatever its clef and position |
| Classify.SopranoOneIsSoprano | src/converter/part_splitter.py:44-48 | "Soprano 1" with a bass clef, last of four parts, is a soprano |
| Classify.ClefFallback | src/converter/part_splitter.py:60-73 | with no keyword, a treble first clef gives soprano, or alto from index 2 on when there are four parts; a bass first clef gives bass, or tenor below index 3 when there are four parts |
| Classify.UnnamedBassClefLastIsBass | src/converter/part_splitter.py:69-73 | an unnamed bass-clef part at index 3 of 4 is the bass |
| Text.NatToString | src/converter/part_splitter.py:511-513 | `str(n)` has at least one character, all decimal digits, and one digit exactly when n < 10 |
| Text.NatToStringInjective | src/converter/part_splitter.py:511-513 | different numbers print differently |
| Text.NumberedLabelInjective | src/converter/part_splitter.py:523 | `prefix + str(a) == prefix + str(b)` only when a = b, so numbered output names never collide |
| Text.ContainsPrefix | src/converter/part_splitter.py:47 | a string containing a keyword contains every prefix of it |
| Decompose.Above | src/converter/part_splitter.py:276 | the kept pitches are members of the chord at or above the split pitch |
| Decompose.Below | src/converter/part_splitter.py:277 | the kept pitches are members of the chord below the split pitch |
| Decompose.AboveBelowPartition | src/converter/part_splitter.py:164-168 | the high and low members of a chord together are exactly its pitches (multiset) |
| Decompose.PartitionPitches | src/converter/part_splitter.py:164-168 | the loop over chord members computes `Above` and `Below` |
| Decompose.Side | src/converter/part_splitter.py:279-301 | no event for no pitches; one pitch gives a note; several give a chord; the chord's duration is kept |
| Decompose.SplitEvent | src/converter/part_splitter.py:273-319 | a rest goes to both sides; a note goes to the side its pitch selects; the pitches are conserved and separated at the split pitch; durations are kept; a chord on one side has at least two members |
| Decompose.ChordSideEmptyIff | src/converter/part_splitter.py:274-300 | a chord leaves a side empty exactly when none of its pitches falls on that side of the split pitch |
| Decompose.SplitEvents | src/converter/part_splitter.py:273-319 | the event loop builds exactly `UpperEvents` and `LowerEvents` |
| Decompose.UpperEventsAppend | src/converter/part_splitter.py:273 | the upper side of a concatenation is the concatenation of the upper sides |
| Decompose.LowerEventsAppend | src/converter/part_splitter.py:273 | the lower side of a concatenation is the concatenation of the lower sides |
| Decompose.SplitConservesPitches | src/converter/part_splitter.py:273-319 | the two sides together hold exactly the input's pitches (multiset) |
| Decompose.SplitSeparatesPitches | src/converter/part_splitter.py:276-277 | every upper pitch is at least the split pitch; every lower pitch is below it |
| Decompose.SplitKeepsRests | src/converter/part_splitter.py:312-319 | each side holds exactly the input's rests, in order, at their offsets |
| Decompose.SplitKeepsTiming | src/converter/part_splitter.py:281-306 | every output event has the offset and duration of an input event |
| Sorting.SortByOrderedPermutation | src/converter/part_splitter.py:486 | the sort result is ordered (descending when `reverse`) and a permutation of its input |
| Sorting.SortByStable | src/converter/part_splitter.py:486 | elements with equal keys keep their input order |
| Sorting.SortByKeepsMembers | src/converter/part_splitter.py:486 | sorting loses no element |
| Sorting.InsertByPermutes | src/converter/part_splitter.py:486 | one insertion step adds exactly the inserted element |
| Sorting.InsertByOrdered | src/converter/part_splitter.py:486 | one insertion step keeps the sequence ordered |
| Sorting.InsertByStable | src/converter/part_splitter.py:486 | one insertion step places the element after its equal-keyed predecessors |
| Sorting.StableSort | src/converter/part_splitter.py:486 | the insertion loop computes `SortBy` |
| Statistics.ChordRatio | src/converter/part_splitter.py:402-407 | the ratio lies in [0, 1] and is 0 for a part without notes |
| Statistics.CombinedIffCrossMultiplied | src/converter/part_splitter.py:410 | ratio > 0.3 iff 10·chords > 3·notes |
| Statistics.MeanWithinRange | src/converter/part_splitter.py:483 | the mean pitch lies between the lowest and highest pitch, so the ranking key is a pitch the part actually spans |
| Statistics.MeanGreaterIffCrossMultiplied | src/converter/part_splitter.py:427 | one mean exceeds another iff the cross-multiplied sums do |
| Statistics.UpperMedianIsMedian | src/converter/part_splitter.py:441-443 | `sorted(ps)[len//2]` is a member, with at most len//2 pitches below it and more than len//2 at or below it |
| Statistics.UpperMedianUnique | src/converter/part_splitter.py:441-443 | that characterisation fixes the value |
| Statistics.CountBelowPermutation | src/converter/part_splitter.py:442 | counting pitches below a bound does not depend on order |
| Statistics.SortedRank | src/converter/part_splitter.py:442-443 | in a sorted list, the element at index k has at most k smaller elements and at least k+1 at or below it |
| Statistics.GetMedianPitch | src/converter/part_splitter.py:433-444 | returns 60 without pitches, otherwise the upper median of all note and chord pitches |
| Document.OfKindMembers | src/converter/part_splitter.py:106-111 | the markers selected are exactly those of the requested class, in order; `extract_voice`, `split_grand_staff` and `get_score_info` all select this way |
| Assemble.CopyMarkers | src/converter/part_splitter.py:106-111 | the copy loop computes `OfKind` |
| Assemble.MatchingEventsMembers | src/converter/part_splitter.py:116-119 | an event is copied iff it belongs to a voice whose id equals the requested id or prints the same |
| Assemble.MatchingEventsSound | src/converter/part_splitter.py:116-119 | every selected event belongs to a voice whose id matches |
| Assemble.MatchingEventsComplete | src/converter/part_splitter.py:116-119 | every event of a matching voice is selected |
| Assemble.ExtractMeasures | src/converter/part_splitter.py:102-125 | one output measure per input measure |
| Assemble.ExtractMeasuresAt | src/converter/part_splitter.py:102-125 | output measure k is the extraction of input measure k |
| Assemble.CopyMatching | src/converter/part_splitter.py:116-119 | the voice loop collects exactly the events of the matching voices, voice after voice |
| Assemble.CopyMeasure | src/converter/part_splitter.py:102-125 | one pass of the measure loop builds `ExtractMeasure`: same number and offset, the copied markers, the selected notes and rests, no voices |
| Assemble.ExtractVoice | src/converter/part_splitter.py:78-127 | the loop builds `Extracted`: the name is the capitalised type value, measures are copied one by one, and no loose events or voices are kept |
| Assemble.ExtractedMeasures | src/converter/part_splitter.py:102-123 | each output measure keeps number and offset, holds exactly the time, key and clef markers, and has the selected events and no voices |
| Assemble.ExtractedVoiceEvents | src/converter/part_splitter.py:114-119 | with a voice id and a measure that has voices, an event is kept iff a matching voice holds it |
| Assemble.ExtractedKeepsDirectEvents | src/converter/part_splitter.py:120-123 | without a voice id, the measures' direct notes and rests are copied unchanged |
| Assemble.UpperMeasures | src/converter/part_splitter.py:149-194 | one upper measure per input measure |
| Assemble.LowerMeasures | src/converter/part_splitter.py:149-195 | one lower measure per input measure |
| Assemble.SplitGrandStaff | src/converter/part_splitter.py:130-197 | the loop builds the "Upper" and "Lower" parts of `GrandStaffSplit` |
| Assemble.UpperMeasuresAt | src/converter/part_splitter.py:149-195 | upper and lower measure k are the split of input measure k |
| Assemble.MeasureSplitIsEventSplit | src/converter/part_splitter.py:158-192 | splitting measure by measure equals splitting the concatenated direct events at middle C |
| Assemble.GrandStaffConservesPitches | src/converter/part_splitter.py:158-192 | the two staves together hold the part's direct pitches; upper ≥ 60 and lower < 60 |
| Assemble.GrandStaffKeepsMeasures | src/converter/part_splitter.py:149-195 | both halves keep each measure's number, offset, time signatures and rests |
| Assemble.VoiceNotesNotCopied | src/converter/part_splitter.py:120-123 | a measure whose only note sits in a voice stream comes out of `extract_voice` without a voice id, and out of both halves of `split_grand_staff`, with no notes, though the part sounds that note |
| Assemble.SplitCombinedVoices | src/converter/part_splitter.py:250-328 | the loop builds `CombinedSplit` over the flattened part |
| Assemble.CombinedSplitProperties | src/converter/part_splitter.py:267-326 | pitches of the flattened part are conserved and separated at the split pitch; rests go to both sides; timing is kept |
| Results.Keyed | src/converter/part_splitter.py:243 | the keys of the filled dictionary are exactly the keys written |
| Results.LastIndex | src/converter/part_splitter.py:243 | finds the last position of a key, with none after it |
| Results.KeyedLastWins | src/converter/part_splitter.py:243 | a key is present iff it was written, and it holds the value of its last write |
| Results.KeyedDistinctAt | src/converter/part_splitter.py:364 | with distinct keys every key holds its own value |
| Splitter.ChosenTypesAt | src/converter/part_splitter.py:224-227 | entry i of the type list is the override for i if there is one, else the detected type |
| Splitter.SplitParts | src/converter/part_splitter.py:200-247 | the loop leaves exactly `PartsLayout`, a dictionary keyed by type |
| Splitter.SplitPartsLastWins | src/converter/part_splitter.py:219-243 | a type is a key iff some part has it, and it maps to the output of the last such part |
| Splitter.PartOutputIsExtraction | src/converter/part_splitter.py:229-243 | each output is named `<type>.musicxml`, copies the metadata, holds the extracted part with its direct notes and rests (notes inside voice streams are not copied), and honours the override |
| Splitter.AssignAt | src/converter/part_splitter.py:357-364 | with distinct names the keys are the names and each name maps to its own part |
| Splitter.AssignSatb | src/converter/part_splitter.py:372-380 | the four voice names map to the four parts in order |
| Splitter.NumberedLabelsAt | src/converter/part_splitter.py:511-513 | name i is prefix followed by i+1 |
| Splitter.NumberedLabelsDistinct | src/converter/part_splitter.py:511-513 | numbered names are pairwise distinct |
| Splitter.DirectLayoutMapsInOrder | src/converter/part_splitter.py:354-365 | with four parts the keys are soprano, alto, tenor, bass; part i is extracted as voice type i and keeps its direct notes and rests (notes inside voice streams are not copied) |
| Splitter.GrandStaffLayoutDividesStaves | src/converter/part_splitter.py:367-381 | with two parts the upper and lower halves of each become S/A and T/B, renamed; pitches are conserved per staff and divided at middle C |
| Splitter.VoicePartsMembers | src/converter/part_splitter.py:389-399 | the voice parts are exactly the parts with at least 50 notes that are not piano |
| Splitter.PianoPartsMembers | src/converter/part_splitter.py:389-397 | the piano parts are exactly the parts with at least 50 notes whose instrument or name says piano |
| Splitter.SelectParts | src/converter/part_splitter.py:386-399 | the selection loop computes both lists in score order |
| Splitter.CombinedPartsMembers | src/converter/part_splitter.py:410 | the combined parts are exactly the voice parts with chord ratio above 0.3 |
| Splitter.PairOrder | src/converter/part_splitter.py:418-430 | the first of the pair has the higher single-note mean; on a tie the second part comes first |
| Splitter.CombinedPairDividesAtMedian | src/converter/part_splitter.py:416-474 | keys are S/A/T/B; the higher-mean part gives S/A, each part is split at its own upper median (60 without pitches); pitches are conserved per part; soprano ≥ S/A median > alto and tenor ≥ T/B median > bass |
| Splitter.CombinedPairKeys | src/converter/part_splitter.py:461-473 | the combined-pair strategy writes exactly the four voice names |
| Splitter.RangesMembers | src/converter/part_splitter.py:479-484 | each ranked entry is a voice part with single-note pitches and its mean |
| Splitter.RangesComplete | src/converter/part_splitter.py:480-484 | every voice part with a single-note pitch is ranked, with its mean |
| Splitter.RangedMembers | src/converter/part_splitter.py:480-484 | the ranged parts are exactly the voice parts with a single-note pitch |
| Splitter.RangesListRangedParts | src/converter/part_splitter.py:479-484 | `parts_with_range` lists the ranged parts in score order, each with its mean |
| Splitter.RangedPartIsRanked | src/converter/part_splitter.py:479-486 | every voice part with a single-note pitch appears in the sorted ranking |
| Splitter.RankByRange | src/converter/part_splitter.py:479-486 | the loop and sort compute the stable descending sort of the ranges |
| Splitter.RangeRankingDescends | src/converter/part_splitter.py:479-486 | the ranking is a permutation of the ranged voice parts, in non-increasing mean |
| Splitter.RangeLayoutKeys | src/converter/part_splitter.py:488-502 | the keys are the first min(4, ranked) voice names |
| Splitter.RangeLayoutNamesTopFour | src/converter/part_splitter.py:489-502 | the i-th voice name maps to the i-th highest-mean part, renamed |
| Splitter.LabelledAt | src/converter/part_splitter.py:489-495 | part i is renamed to voice name i |
| Splitter.PositionalNames | src/converter/part_splitter.py:505-514 | with fewer than 3 voice parts, `voice_<i+1>` maps to voice part i |
| Splitter.PianoLabelAt | src/converter/part_splitter.py:523 | piano i of n is named "piano" when n = 1, otherwise `piano_<i+1>` |
| Splitter.PianoNames | src/converter/part_splitter.py:516-527 | one piano is written as "piano", several as `piano_<i+1>` |
| Splitter.NumberedLabelsStart | src/converter/part_splitter.py:511-523 | every numbered name starts with its prefix's first letter |
| Splitter.VoiceNamesAvoidP | src/converter/part_splitter.py:416-514 | no voice strategy writes a name starting with 'p' |
| Splitter.PianosKeepVoiceResults | src/converter/part_splitter.py:416-529 | the heuristic result contains every voice entry and every piano entry unchanged |
| Splitter.NoisyScoreWritesNothing | src/converter/part_splitter.py:383-529 | with neither 2 nor 4 parts, and every part under 50 notes, nothing is written |
| Splitter.SaveAll | src/converter/part_splitter.py:357-364 | the save loop adds the name-to-part assignment to the results |
| Splitter.SplitFourParts | src/converter/part_splitter.py:354-365 | computes the four-part layout |
| Splitter.SplitTwoStaves | src/converter/part_splitter.py:367-381 | computes the grand-staff layout |
| Splitter.SplitCombinedPair | src/converter/part_splitter.py:416-474 | computes the combined-pair layout |
| Splitter.SplitByRange | src/converter/part_splitter.py:476-503 | computes the range layout |
| Splitter.SplitPositional | src/converter/part_splitter.py:505-514 | computes the numbered voice layout |
| Splitter.SavePianos | src/converter/part_splitter.py:516-529 | adds the piano layout to the results |
| Splitter.SplitVoices | src/converter/part_splitter.py:416-514 | dispatches on combined count and voice count to the voice layout |
| Splitter.SplitHeuristic | src/converter/part_splitter.py:383-529 | voice layout, then pianos, as `HeuristicLayout` |
| Splitter.SplitSatb | src/converter/part_splitter.py:331-531 | dispatches on part count and returns exactly `SatbLayout` |
| Introspect.MeasureVoiceIdsMembers | src/converter/musicxml_parser.py:72-73 | an id is collected from a measure iff one of its voices has it |
| Introspect.VoiceIdsMembers | src/converter/musicxml_parser.py:70-73 | an id is in the set iff some voice of some measure has it |
| Introspect.VoiceCountBounds | src/converter/musicxml_parser.py:74 | the voice count is at least 1 and at most the number of voice streams (or 1) |
| Introspect.NoVoicesCountOne | src/converter/musicxml_parser.py:74 | a part without voices counts one voice |
| Introspect.CountVoices | src/converter/musicxml_parser.py:70-74 | the nested loops compute the distinct-id count, or 1 |
| Introspect.PartName | src/converter/musicxml_parser.py:82 | a non-empty part name is kept, otherwise `Part <i+1>`; never empty |
| Introspect.PartInfos | src/converter/musicxml_parser.py:67-88 | entry i describes part i |
| Introspect.MaxMeasures | src/converter/musicxml_parser.py:99 | 0 without parts, otherwise the largest measure count, attained by some part |
| Introspect.OfKindShift | src/converter/musicxml_parser.py:91-95 | moving markers to score offsets and picking the time or key signatures commute |
| Introspect.EarliestIndex | src/converter/musicxml_parser.py:91-92 | picks the smallest offset, the first of those tied |
| Introspect.GetScoreInfo | src/converter/musicxml_parser.py:49-108 | the loop over parts and the remaining fields produce `ScoreInfoOf` |
| Introspect.PartEntries | src/converter/musicxml_parser.py:67-88 | one entry per part: index i, measure count, non-empty name, at least one voice; the clef is the first clef's sign when there is one, and "Unknown" iff there is none (or its sign is "Unknown") |
| Introspect.MetadataFields | src/converter/musicxml_parser.py:60-64 | title and composer are absent without metadata and are the metadata's fields otherwise |
| Introspect.TotalIsLongestPart | src/converter/musicxml_parser.py:99 | total is 0 without parts, otherwise at least every part's measure count and equal to one |
| Introspect.TimeSignatureIsEarliest | src/converter/musicxml_parser.py:90-92 | "4/4" without time signatures, otherwise the text of one at the earliest score offset |
| Introspect.KeySignatureIsEarliest | src/converter/musicxml_parser.py:94-96 | "C major" without key signatures, otherwise the text of one at the earliest score offset |
| Introspect.IntToStringInjective | src/converter/musicxml_parser.py:92 | `str` on integers is injective |
| Introspect.SlashPosition | src/converter/musicxml_parser.py:92 | the slash in `n/d` is exactly after the numerator's digits, which is what lets the printed time signature be read back (used by `TimeTextInjective`) |
| Introspect.TimeTextInjective | src/converter/musicxml_parser.py:92 | the time-signature text determines numerator and denominator |
| Introspect.KeyTextInjective | src/converter/musicxml_parser.py:96 | the key-signature text determines the number of sharps |
| Introspect.KeyTextNeverDefault | src/converter/musicxml_parser.py:96 | no key signature prints as the "C major" default, so a score without key signature can be told from one with |
| Introspect.DefaultTimeIsFourFour | src/converter/musicxml_parser.py:92 | the "4/4" default is the same text as a real 4/4 signature, so a score without time signature cannot be told from one in 4/4 |

## Left out

- File writing, the output directory, `print` and the `try`/`except` around saving pianos are not modelled. A result maps a key to the file name it would be written to and the score it would hold.
- The `Instrument` inserted with a MIDI program (`VOICE_INSTRUMENTS`, `midiProgram = 52`) is not modelled. Output parts carry no instrument.
- The output scores of `split_satb` carry no metadata. Only `split_parts` copies it, as the code does.
- Floating-point division is modelled by exact reals. Rounding in the chord ratio and the mean pitch is not captured.
- `str.lower()` and `str.capitalize()` are modelled on ASCII letters only.
- `str(part.getInstrument())` is modelled as the instrument's text, with "" (in `split_satb`) or "Unknown" (in `get_score_info`) when the part has none.
- music21 sorts a stream by offset on insertion. The model keeps traversal order:
  - `flatten` lists loose events, then measure by measure;
  - the markers copied into a measure are kept as time, key, then clef signatures.
- The first time signature and key signature of `score.flatten()` are taken at the smallest score offset, with ties broken by part and measure order. music21's class sort order within one offset is not modelled.
- Measure offsets are kept from the input rather than recomputed by `Part.append`.
- The members of a chord are assumed to last as long as the chord, so a chord member moved to one side keeps the chord's duration.
- Splitter.SplitByRange: the code renames the input part object and inserts an instrument into it in place. The model returns a renamed copy, and the input score is unchanged.
- The name `voice_{i+1}` inside the range strategy can never be chosen, because only the first four ranked parts are written. The model writes only the four voice names.
- `melody_parts` only feeds a `print` and is not modelled.
- The code returns an empty dictionary for a score without audible parts (under 50 notes each, neither 2 nor 4 parts), which the model keeps. Extra parts beyond the four ranked ones are dropped silently, as in the code.
- `parse_musicxml` (file reading) and `print_score_info` are I/O and are not modelled.
- Notes inside a measure's voice streams are dropped where the code reads `measure.notesAndRests`: by `extract_voice` without a voice id (so by `split_parts` and the four-part strategy) and by `split_grand_staff`. The code comment at src/converter/part_splitter.py:120 says all notes are copied, but `notesAndRests` lists only a measure's direct elements. The model keeps the code's behaviour, and `Assemble.VoiceNotesNotCopied` shows an instance.
- Only the clefs placed directly in a part are considered, as `getElementsByClass('Clef')` on a part does; clefs inside measures are not.

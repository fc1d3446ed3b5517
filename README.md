# A verified model of the sheet-music component's note logic

The repository is a React component. It draws a tune written in ABC
notation and plays it back, reporting each note as it sounds. The notation
is parsed, drawn and timed by the `abcjs` library. The component itself
adds three pieces of logic:

- **the pitch mapper** (`computeNoteAndOctave`). A diatonic step number
  becomes a note letter and an octave: 0 is C in octave 2, 7 is the next C
  up, and negative numbers go down.
- **the note-index builder** (`parseJSON`). It walks the parsed tune:
  lines, then the staves of each line, then the first voice of each staff.
  Every pitched note element is stored in a dictionary under the key
  `s<startChar>e<endChar>`, as a list of note descriptors with one
  descriptor per pitch. A descriptor is a name, a duration in seconds, an
  octave and a staff number. A triplet multiplier, kept across the whole
  walk, scales durations inside a triplet. A staff counter, reset on every
  line, fills the descriptor's `line` field.
- **the event enrichment** (the body of the timing engine's
  `eventCallback`). Each playback event carries parallel arrays of start and
  end characters. Each pair is looked up in the index. The hits are
  concatenated in order, the misses (rests) are dropped, and the event is
  forwarded with a `notes` field. A null event is forwarded as null.

The Dafny project has five modules:

| module | file | what it holds |
|---|---|---|
| `Wrappers` | `wrappers.dfy` | `Option`, which stands for JavaScript's `undefined` |
| `Decimal` | `decimal.dfy` | How a template literal prints an integer below 10^21 in magnitude, and a parser that reads it back |
| `PitchMapper` | `pitch_mapper.dfy` | The pitch mapper, with JavaScript's truncating `%` written out |
| `NoteIndex` | `note_index.dfy` | The parse-tree datatypes and the builder |
| `Playback` | `playback.dfy` | The event enrichment |

The builder is modelled as the code runs it. `ParseJson` and its helpers
are methods with the source's nested loops:

- `VisitLine` walks the staves of one line, with the per-line staff counter;
- `VisitVoice` walks the elements of a staff's first voice;
- `VisitElement` handles one element, with the running triplet multiplier;
- `DescribeChord` walks a chord's pitches and builds the descriptor list;
- `DescribePitch` builds one descriptor.

Each method is proved equal to a flat specification. `LinesVisits` lists
the elements in traversal order, each paired with the staff counter at that
moment. `Run` is a left fold of `Step` over that list, and `BuildIndex` is
the index that fold ends with. The properties of the index are proved as
lemmas about `Run`, `BuildIndex` and `TuneVisits`.

Where the code throws a TypeError on a malformed tree, `ParseJson` returns
`None`. The cases modelled are:

- an empty document;
- a first line or first staff that is missing where the meter is read;
- a line without staves;
- a staff without voices.

Two behaviours of the pitch mapper are easy to get wrong, and the model
keeps both as the code has them:

- below -700, JavaScript's `%` goes negative, so the table lookup gives
  `undefined` and the note name starts with the text "undefined". This
  happens at every step number that is not a multiple of 7
  (`PitchMapper.BelowOffsetMisses`);
- the octave rises by one when the step number grows by 7
  (`PitchMapper.OctaveShift`).

## Model

| member | source | states |
|---|---|---|
| PitchMapper.NoteLetters | src/SheetMusic.tsx:35-42 | Defined as the letter table: C, D, E, F, G, A, B at indices 0 to 6 |
| PitchMapper.JsRemainder7 | src/SheetMusic.tsx:46 | JavaScript's `% 7`: for a non-negative operand the remainder is in 0..6, for a negative one it is in -6..0, and it always differs from the operand by a multiple of 7 |
| PitchMapper.ComputeNoteAndOctave | src/SheetMusic.tsx:33-51 | The octave is the one whose seven-step span holds n. From -700 up, the letter is the table entry at n's place within that span. Below -700 the lookup misses (None), except on multiples of 7, where it gives C |
| PitchMapper.PitchNumberRoundTrip | src/SheetMusic.tsx:43-48 | From -700 up, mapping the step number of (letter k, octave o) gives back letter k and octave o |
| PitchMapper.NoteAndOctaveRoundTrip | src/SheetMusic.tsx:43-48 | Every step number from -700 up is the step number of the letter and octave it maps to |
| PitchMapper.LetterIsNoteLetter | src/SheetMusic.tsx:34-46 | From -700 up, the letter is always found and is one of C, D, E, F, G, A, B |
| PitchMapper.OctavePeriodicity | src/SheetMusic.tsx:43-48 | From -700 up, seven steps up gives the same letter, one octave higher |
| PitchMapper.OctaveShift | src/SheetMusic.tsx:48 | For every integer, seven steps up gives an octave one higher |
| PitchMapper.ReferencePoints | src/SheetMusic.tsx:34-48 | 0 maps to C2, 6 to B2, 7 to C3 and -1 to B1 |
| PitchMapper.BelowOffsetMisses | src/SheetMusic.tsx:43-46 | Below -700, off the multiples of 7, the letter lookup misses |
| Decimal.NatText | src/SheetMusic.tsx:74 | A number prints as a non-empty digit string, with no leading zero except for 0 itself |
| Decimal.NatTextRoundTrip | src/SheetMusic.tsx:74 | Reading a printed number's digits gives the number back |
| Decimal.IntTextRoundTrip | src/SheetMusic.tsx:88 | A printed octave, minus sign included, parses back to the same integer |
| Decimal.IntText | src/SheetMusic.tsx:88 | Defined as the octave's text: a minus sign before the digits of a negative number |
| Decimal.SplitAtSeparator | src/SheetMusic.tsx:74 | When digit strings are each followed by the same non-digit separator, equal texts split at the same place |
| NoteIndex.RangeKey | src/SheetMusic.tsx:74 | Defined as the key template: "s", the start character's digits, "e", the end character's digits |
| NoteIndex.RangeKeyInjective | src/SheetMusic.tsx:74 | Two character ranges have the same key only when their start and end characters are both equal |
| NoteIndex.AccidentalSymbol | src/SheetMusic.tsx:77-83 | The symbol is "#" exactly for "sharp", "b" exactly for "flat", and empty exactly for every other value or none |
| NoteIndex.LetterText | src/SheetMusic.tsx:85-88 | Defined as how the template prints the letter: the letter itself, or "undefined" when the lookup missed |
| NoteIndex.NoteName | src/SheetMusic.tsx:84-88 | Defined as the name template: letter text, accidental symbol, octave text |
| NoteIndex.Describe | src/SheetMusic.tsx:87-92 | Defined as the descriptor literal: name, the chord's duration, the mapper's octave, the staff number as line |
| NoteIndex.Chord | src/SheetMusic.tsx:75-94 | Defined as the pushed list: one descriptor per pitch, in pitch order |
| NoteIndex.IsPitchedNote | src/SheetMusic.tsx:71 | Defined as the guard: the element has a pitch list (an empty one counts) and its type is "note" |
| NoteIndex.EffectiveMultiplier | src/SheetMusic.tsx:68-70 | Defined as the multiplier in force for an element: its own declared multiplier on a triplet start, otherwise the running one |
| NoteIndex.NoteDuration | src/SheetMusic.tsx:72-73 | Defined as raw duration × multiplier × (60/bpm) × beats per bar |
| NoteIndex.Step | src/SheetMusic.tsx:67-99 | Defined as one pass of the element loop: set the multiplier on a triplet start, store a pitched note's chord under its key, then reset the multiplier to 1 on a triplet end |
| NoteIndex.FirstVoice | src/SheetMusic.tsx:66 | Defined as `staff.voices[0]`: the staff's first voice, empty where it has none (the builder checks for that case first) |
| NoteIndex.StavesOf | src/SheetMusic.tsx:64 | Defined as `Object.values(line.staff)`: the line's staves in order, empty where it has none (the builder checks for that case first) |
| NoteIndex.AllVoiced | src/SheetMusic.tsx:66-67 | Defined as every staff of a line having a first voice: the condition under which `voices[0]` can be iterated |
| NoteIndex.LineTraversable | src/SheetMusic.tsx:64-67 | Defined as the line having a staff list, every staff of which has a voice: the condition under which the line raises no TypeError |
| NoteIndex.Traversable | src/SheetMusic.tsx:61-67 | Defined as every line of the tune being traversable |
| NoteIndex.HasFirstStaff | src/SheetMusic.tsx:57-58 | Defined as the tune having a first line with a first staff, which the meter path `data.lines[0].staff[0]` dereferences |
| NoteIndex.Walkable | src/SheetMusic.tsx:57-67 | Defined as the document having a first song that has a first staff and is traversable: exactly when the builder raises no TypeError |
| NoteIndex.VoiceVisits | src/SheetMusic.tsx:66-67 | Defined as the first voice's elements, in order, each paired with the current staff number |
| NoteIndex.StavesVisits | src/SheetMusic.tsx:63-65 | Defined as the visits of a line's staves in order, staff j's with staff number j |
| NoteIndex.LinesVisits | src/SheetMusic.tsx:61-62 | Defined as the visits of the lines in order |
| NoteIndex.Run | src/SheetMusic.tsx:60-103 | Defined as the loops' effect: `Step` applied to each visit in traversal order, the state running on from one visit to the next |
| NoteIndex.BuildIndex | src/SheetMusic.tsx:59-104 | Defined as the index the walk ends with, starting from an empty index and multiplier 1 |
| NoteIndex.NoteNameRoundTrip | src/SheetMusic.tsx:84-88 | From -700 up, a descriptor's name splits into the mapper's letter, the accidental symbol and the mapper's octave |
| NoteIndex.ParseJson | src/SheetMusic.tsx:53-105 | On a walkable document the builder returns the index of `BuildIndex` for the first song. On an empty document, a missing first staff, a line without staves or a staff without voices it returns None (the TypeError) |
| NoteIndex.VisitLine | src/SheetMusic.tsx:63-102 | Succeeds exactly when every staff has a voice. The new multiplier and index are those of `Run` over the line's visits, with the staff counter starting at 0 and counting one per staff |
| NoteIndex.VisitVoice | src/SheetMusic.tsx:66-100 | The new multiplier and index are those of `Run` over the first voice's elements, in order, all with the current staff number |
| NoteIndex.VisitElement | src/SheetMusic.tsx:67-100 | One element does what `Step` does: set the multiplier on a triplet start, store a pitched note's chord under its key, and reset to 1 after a triplet end |
| NoteIndex.DescribeChord | src/SheetMusic.tsx:75-94 | The pushed list is `Chord`: one descriptor per pitch, in pitch order |
| NoteIndex.DescribePitch | src/SheetMusic.tsx:77-93 | One pitch's descriptor: name from letter, accidental and octave, then the given duration, the mapper's octave and the staff number |
| NoteIndex.ChordEntries | src/SheetMusic.tsx:75-94 | A chord's list has one descriptor per pitch. Descriptor q has pitch q's name and octave, and all share the one duration and line |
| NoteIndex.RunKeys | src/SheetMusic.tsx:71-95 | A key is in the index exactly when it was there before or some visited pitched note element has that key |
| NoteIndex.RunUntouched | src/SheetMusic.tsx:95 | An entry that no later element writes keeps its value |
| NoteIndex.RunLastWriter | src/SheetMusic.tsx:95 | The last element to write a key decides its entry: the chord built with the multiplier in force just before that element. Earlier writes are overwritten |
| NoteIndex.IndexHasRange | src/SheetMusic.tsx:71-74 | The built index has a key for a character range exactly when the walk meets a pitched note element with that range. Rests and other element types add no key |
| NoteIndex.IndexEntry | src/SheetMusic.tsx:72-93 | The entry a key's last writer leaves has one descriptor per pitch. Each has that pitch's name and mapper octave, the duration `NoteDuration` (raw × multiplier in effect × (60/bpm) × beats per bar), and that element's staff number as line |
| NoteIndex.StoredEntry | src/SheetMusic.tsx:72-95 | The entry a key's last writer leaves is exactly the chord that element builds, with the multiplier in effect for it |
| NoteIndex.ChordDescriptors | src/SheetMusic.tsx:72-93 | Descriptor q of a stored chord has pitch q's name and mapper octave, the duration raw × multiplier × (60/bpm) × beats per bar, and the chord's line |
| NoteIndex.RunLastWriterOf | src/SheetMusic.tsx:95 | A key the walk added has a last writer: a visited pitched note element with that key that no later element overwrites |
| NoteIndex.IndexLastWriter | src/SheetMusic.tsx:71-95 | Every key of a built index has a last writer in the walk, so `IndexEntry` describes every entry |
| NoteIndex.IndexEntryShared | src/SheetMusic.tsx:72-93 | All descriptors stored under one key have the same duration and the same line |
| NoteIndex.RunWithoutTriplets | src/SheetMusic.tsx:60-70 | Without triplet starts the multiplier stays 1 |
| NoteIndex.PlainDurations | src/SheetMusic.tsx:72-73 | In a tune without triplets, every stored duration is raw × (60/bpm) × beats per bar, never a scaled value |
| NoteIndex.InsideTriplet | src/SheetMusic.tsx:68-70 | Inside an open triplet group the multiplier is the one the group's opening element declared |
| NoteIndex.TripletGroup | src/SheetMusic.tsx:68-99 | Every member of a triplet group, the closing element included, is scaled by the declared multiplier. After the group the multiplier is 1 again |
| NoteIndex.StateCarriesAcrossLines | src/SheetMusic.tsx:60-62 | The walk's state, the triplet multiplier included, runs on from one line into the next without a reset |
| NoteIndex.StateCarriesAcrossStaves | src/SheetMusic.tsx:63-65 | The state runs on from one staff into the next within a line, and the next staff is visited with the next staff number |
| NoteIndex.StavesVisitsMembers | src/SheetMusic.tsx:63-66 | Within a line the walk meets exactly the elements of each staff's first voice, recording the staff's zero-based position as its staff number |
| NoteIndex.LinesVisitsMembers | src/SheetMusic.tsx:61-62 | The walk of a tune meets exactly the visits of each of its lines |
| NoteIndex.TuneVisitsMembers | src/SheetMusic.tsx:61-101 | The walk meets exactly the first-voice elements of every staff of every line, each with its staff's zero-based position within its line |
| Playback.MissingEndKey | src/SheetMusic.tsx:140-142 | Defined as the key built when the end character is missing: its end prints as "undefined" |
| Playback.LookupKey | src/SheetMusic.tsx:140-142 | Defined as the key looked up for pair i: the range key when there is an end character, otherwise the missing-end key |
| Playback.Lookup | src/SheetMusic.tsx:142 | Defined as an index lookup: the entry, or None where the source reads `undefined` |
| Playback.AllNotes | src/SheetMusic.tsx:139-143 | There is one lookup per start character, in order |
| Playback.Spread | src/SheetMusic.tsx:145-146 | Defined as `[].concat(...xs)`: an entry found adds its descriptors, a miss adds one `undefined` |
| Playback.DropMissing | src/SheetMusic.tsx:147 | Defined as `.filter(Boolean)`: every `undefined` goes, every descriptor stays |
| Playback.EventNotes | src/SheetMusic.tsx:139-147 | Defined as the lookups, spread into one list and then filtered, as the source computes them |
| Playback.SpreadThenDrop | src/SheetMusic.tsx:145-147 | Spreading the lookups into one array and filtering out the misses is concatenating the hits in order |
| Playback.EventNotesAreHits | src/SheetMusic.tsx:139-147 | The event's notes are the entries found for its character pairs, concatenated in order; a miss contributes nothing |
| Playback.EventNotesLength | src/SheetMusic.tsx:139-147 | The number of notes is the sum of the lengths of the entries found |
| Playback.EventNotesMembers | src/SheetMusic.tsx:139-147 | A descriptor is among the event's notes exactly when the lookup of some pair finds an entry holding it |
| Playback.OnlyMissesGiveNoNotes | src/SheetMusic.tsx:144-147 | An event whose ranges all miss (rests only) carries an empty list, not a list of nulls |
| Playback.MissingEndIsNoRangeKey | src/SheetMusic.tsx:140-142 | A key built with a missing end character, printed "undefined", is never the key of a character range |
| Playback.BuiltKeysAreRangeKeys | src/SheetMusic.tsx:74-95 | Every key of a built index is the key of some visited pitched note element |
| Playback.LookupOnBuiltIndex | src/SheetMusic.tsx:139-143 | Against a built index, pair i finds an entry exactly when it has an end character and the walk met a pitched note element with that start and end |
| Playback.EventCallback | src/SheetMusic.tsx:131-159 | Without a handler nothing is forwarded. With one, exactly one call is made: null for a null event, and otherwise the event itself with `notes` set to the in-order concatenation of the hits |

## Left out

- `abcjs.parseOnly`, `abcjs.renderAbc` and `abcjs.TimingCallbacks` (src/SheetMusic.tsx:109-118) are foreign library code. The parse tree is an input datatype, and events are inputs to `Playback.EventCallback`.
- The React lifecycle is UI plumbing and is left out. This covers `useEffect`, its dependency list, the `useRef` timer, and the JSX and CSS rendering (src/SheetMusic.tsx:107-224).
- The `isPlaying` effect (src/SheetMusic.tsx:190-198) is left out. It only calls start or stop on the external timer object.
- The beat and line-end callbacks (src/SheetMusic.tsx:121-130) are left out. They forward their arguments unchanged to optional handlers.
- The final `return null` of the event callback is left out, because nothing reads it.
- `console.log` (src/SheetMusic.tsx:111) is left out, and so is the commented-out DOM class toggling (src/SheetMusic.tsx:166-179).
- Beats per bar is a parameter of `NoteIndex.ParseJson`. The meter read at src/SheetMusic.tsx:58 is not modelled beyond the existence of the first line's first staff. A missing `meter` or `value[0]` throws in the source but not in the model.
- Other malformed trees are assumed away by the datatypes. Examples are a `voices[0]` that is not iterable, or a `pitches` value that is truthy but not iterable.
- Durations, multipliers, tempo and beats per bar are exact reals, not IEEE doubles. There is no rounding, no NaN and no Infinity.
- NoteIndex.ParseJson requires bpm != 0. In JavaScript, a zero or missing tempo gives Infinity or NaN durations instead.
- Pitch numbers and character offsets are integers. JavaScript numbers that are not integers, and their printed form, are not modelled.
- `startTriplet`, `endTriplet` and `accidental` are reduced to what the code tests. The triplet flags are booleans standing for their truthiness. An accidental is an optional string compared with "sharp" and "flat".
- Playback.EventCallback: the object spread `{...event, notes}` is modelled as a pair of the original event and the notes. The model does not capture a `notes` field already present in the event being overwritten.
- Only the first song and only the first voice of each staff are read, as in the source. Other songs and voices are not part of the model because the code never looks at them.
- Decimal.NatText: numbers of magnitude 10^21 and above, which JavaScript prints in exponent form, are not modelled. Character offsets and octaves stay far below that.

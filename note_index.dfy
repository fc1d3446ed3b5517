/**
 * The note-index builder. It walks an already-parsed tune: lines, then the
 * staves of each line, then the first voice of each staff. Every pitched
 * note element is stored under the key "s<startChar>e<endChar>" as one
 * note descriptor per pitch. A triplet multiplier scales durations inside a
 * triplet. A staff counter, reset on each line, gives the descriptors'
 * `line` field.
 */
module NoteIndex {

  import opened Wrappers
  import opened Decimal
  import opened PitchMapper

  // ---------------------------------------------------------------- parse tree

  /** One pitch of a note element; `accidental` is absent for a natural note. */
  datatype Pitch = Pitch(pitch: int, accidental: Option<string>)

  /**
   * One element of a voice. `startTriplet` and `endTriplet` stand for the
   * truthiness of those fields; `pitches` is None when the element has none
   * (a rest, a bar line), and an empty list still counts as present.
   */
  datatype Element = Element(
    startTriplet: bool,
    tripletMultiplier: real,
    endTriplet: bool,
    pitches: Option<seq<Pitch>>,
    el_type: string,
    duration: real,
    startChar: nat,
    endChar: nat)

  datatype Staff = Staff(voices: seq<seq<Element>>)

  /** A line of the tune; `staff` is None on a line without staves. */
  datatype Line = Line(staff: Option<seq<Staff>>)

  /** The first (and only traversed) song of a parsed document. */
  datatype Tune = Tune(lines: seq<Line>)

  // ---------------------------------------------------------------- the index

  /** A note descriptor: name (letter, accidental, octave), duration in seconds, octave, staff number. */
  datatype Note = Note(name: string, duration: real, octave: int, line: nat)

  type Index = map<string, seq<Note>>

  /** The key of a character range: "s" + start + "e" + end. */
  function RangeKey(startChar: nat, endChar: nat): string {
    "s" + NatText(startChar) + "e" + NatText(endChar)
  }

  /** Distinct character ranges never share a key. */
  lemma RangeKeyInjective(a: nat, b: nat, c: nat, d: nat)
    ensures RangeKey(a, b) == RangeKey(c, d) ==> a == c && b == d
  {
    var x, y, u, v := NatText(a), NatText(b), NatText(c), NatText(d);
    assert RangeKey(a, b) == ['s'] + (x + ['e'] + y);
    assert RangeKey(c, d) == ['s'] + (u + ['e'] + v);
    if RangeKey(a, b) == RangeKey(c, d) {
      assert x + ['e'] + y == RangeKey(a, b)[1..] == u + ['e'] + v;
      SplitAtSeparator(x, y, u, v, 'e');
      NatTextInjective(a, c);
      NatTextInjective(b, d);
    }
  }

  /** The accidental symbol: "#" for sharp, "b" for flat, nothing otherwise. */
  function AccidentalSymbol(accidental: Option<string>): (s: string)
    ensures s == "#" <==> accidental == Some("sharp")
    ensures s == "b" <==> accidental == Some("flat")
    ensures s == "" <==> accidental != Some("sharp") && accidental != Some("flat")
  {
    if accidental == Some("sharp") then "#"
    else if accidental == Some("flat") then "b"
    else ""
  }

  /** How a template literal writes the letter; a missed lookup prints "undefined". */
  function LetterText(note: Option<char>): string {
    match note
    case Some(c) => [c]
    case None => "undefined"
  }

  function NoteName(p: Pitch): string {
    var no := ComputeNoteAndOctave(p.pitch);
    LetterText(no.note) + AccidentalSymbol(p.accidental) + IntText(no.octave)
  }

  /** Splits a note name into letter, accidental and octave. */
  function ParseNoteName(name: string): Option<(char, string, int)> {
    if |name| < 2 then None
    else
      var accidental := if name[1] == '#' || name[1] == 'b' then name[1..2] else "";
      match ParseInt(name[1 + |accidental|..])
      case Some(octave) => Some((name[0], accidental, octave))
      case None => None
  }

  /** A descriptor's name spells out its letter, accidental symbol and octave. */
  lemma NoteNameRoundTrip(p: Pitch)
    requires p.pitch >= -700
    ensures var no := ComputeNoteAndOctave(p.pitch);
            ParseNoteName(NoteName(p)) == Some((no.note.value, AccidentalSymbol(p.accidental), no.octave))
  {
    var no := ComputeNoteAndOctave(p.pitch);
    var acc := AccidentalSymbol(p.accidental);
    var name := NoteName(p);
    assert name == [no.note.value] + acc + IntText(no.octave);
    IntTextRoundTrip(no.octave);
    var t := IntText(no.octave);
    assert t[0] == '-' || IsDigit(t[0]);
    assert name[1 + |acc|..] == t;
  }

  function Describe(p: Pitch, duration: real, line: nat): Note {
    Note(NoteName(p), duration, ComputeNoteAndOctave(p.pitch).octave, line)
  }

  /** The descriptors of a chord, one per pitch, in pitch order. */
  function Chord(pitches: seq<Pitch>, duration: real, line: nat): (c: seq<Note>) {
    seq(|pitches|, i requires 0 <= i < |pitches| => Describe(pitches[i], duration, line))
  }

  predicate IsPitchedNote(e: Element) {
    e.pitches.Some? && e.el_type == "note"
  }

  function ElementKey(e: Element): string {
    RangeKey(e.startChar, e.endChar)
  }

  /** Element `e` stores an entry under key `k`. */
  predicate Writes(e: Element, k: string) {
    IsPitchedNote(e) && ElementKey(e) == k
  }

  /** The multiplier in effect for `e`: it is set before the element's duration is computed. */
  function EffectiveMultiplier(multiplier: real, e: Element): real {
    if e.startTriplet then e.tripletMultiplier else multiplier
  }

  /** A descriptor's duration in seconds: raw duration × multiplier × (60 / bpm) × beats per bar. */
  function NoteDuration(e: Element, multiplier: real, bpm: real, beatsPerBar: real): real
    requires bpm != 0.0
  {
    e.duration * multiplier * (60.0 / bpm) * beatsPerBar
  }

  // ---------------------------------------------------------------- the traversal

  /** One element as the traversal meets it, with the staff counter at that moment. */
  datatype Visit = Visit(staffNum: nat, element: Element)

  function FirstVoice(s: Staff): seq<Element> {
    if |s.voices| > 0 then s.voices[0] else []
  }

  function StavesOf(l: Line): seq<Staff> {
    match l.staff
    case Some(staves) => staves
    case None => []
  }

  /** The tree has the parts the traversal dereferences: a staff list on each line, a first voice on each staff. */
  predicate LineTraversable(l: Line) {
    l.staff.Some? && AllVoiced(l.staff.value)
  }

  predicate AllVoiced(staves: seq<Staff>) {
    forall j :: 0 <= j < |staves| ==> |staves[j].voices| > 0
  }

  predicate Traversable(t: Tune) {
    forall i :: 0 <= i < |t.lines| ==> LineTraversable(t.lines[i])
  }

  function VoiceVisits(staffNum: nat, voice: seq<Element>): seq<Visit> {
    seq(|voice|, k requires 0 <= k < |voice| => Visit(staffNum, voice[k]))
  }

  /** The visits of one line: staff number j for the j-th staff. */
  function StavesVisits(staves: seq<Staff>): seq<Visit>
    decreases |staves|
  {
    if staves == [] then []
    else
      var j := |staves| - 1;
      StavesVisits(staves[..j]) + VoiceVisits(j, FirstVoice(staves[j]))
  }

  function LinesVisits(lines: seq<Line>): seq<Visit>
    decreases |lines|
  {
    if lines == [] then []
    else
      var i := |lines| - 1;
      LinesVisits(lines[..i]) + StavesVisits(StavesOf(lines[i]))
  }

  /** The traversal state: the triplet multiplier and the index built so far. */
  datatype State = State(multiplier: real, notes: Index)

  const Initial: State := State(1.0, map[])

  /** One element: set the multiplier, store the chord, then reset after a triplet end. */
  function Step(st: State, v: Visit, bpm: real, beatsPerBar: real): State
    requires bpm != 0.0
  {
    var e := v.element;
    var m := EffectiveMultiplier(st.multiplier, e);
    var notes :=
      if IsPitchedNote(e) then
        st.notes[ElementKey(e) := Chord(e.pitches.value, NoteDuration(e, m, bpm, beatsPerBar), v.staffNum)]
      else st.notes;
    State(if e.endTriplet then 1.0 else m, notes)
  }

  function Run(st: State, visits: seq<Visit>, bpm: real, beatsPerBar: real): State
    requires bpm != 0.0
    decreases |visits|
  {
    if visits == [] then st
    else
      var n := |visits| - 1;
      Step(Run(st, visits[..n], bpm, beatsPerBar), visits[n], bpm, beatsPerBar)
  }

  /** The index the builder returns for a traversable tune. */
  function BuildIndex(t: Tune, bpm: real, beatsPerBar: real): Index
    requires bpm != 0.0
  {
    Run(Initial, LinesVisits(t.lines), bpm, beatsPerBar).notes
  }

  // ---------------------------------------------------------------- the builder

  /**
   * Where the source reads the meter: the first staff of the first line must
   * exist (its meter itself is not modelled; beats per bar is a parameter).
   */
  predicate HasFirstStaff(t: Tune) {
    |t.lines| > 0 && t.lines[0].staff.Some? && |t.lines[0].staff.value| > 0
  }

  /** The parsed document the builder can walk without a TypeError. */
  predicate Walkable(json: seq<Tune>) {
    |json| > 0 && HasFirstStaff(json[0]) && Traversable(json[0])
  }

  /**
   * The builder as the source runs it on the parsed document (only its first
   * song is read): three nested loops over lines, staves and the first
   * voice's elements, an inner loop over a chord's pitches, a running triplet
   * multiplier and a per-line staff counter. None stands for the TypeError
   * thrown on an empty document, a missing first staff, a line without
   * staves or a staff without voices.
   */
  method ParseJson(json: seq<Tune>, bpm: real, beatsPerBar: real) returns (r: Option<Index>)
    requires bpm != 0.0
    ensures r == if Walkable(json) then Some(BuildIndex(json[0], bpm, beatsPerBar)) else None
  {
    if |json| == 0 {
      return None;
    }
    var data := json[0];
    if !HasFirstStaff(data) {
      return None;
    }
    var notes: Index := map[];
    var tripletMultiplier := 1.0;
    ghost var visited: seq<Visit> := [];
    var lines := data.lines;
    var i := 0;
    while i < |lines|
      invariant 0 <= i <= |lines|
      invariant Traversable(Tune(lines[..i]))
      invariant visited == LinesVisits(lines[..i])
      invariant State(tripletMultiplier, notes) == Run(Initial, visited, bpm, beatsPerBar)
    {
      var line := lines[i];
      if line.staff.None? {
        TraversableStopsAt(data, i);
        return None;
      }
      var staves := line.staff.value;
      var ok;
      ok, tripletMultiplier, notes := VisitLine(tripletMultiplier, notes, staves, bpm, beatsPerBar);
      if !ok {
        TraversableStopsAt(data, i);
        return None;
      }
      TraversableSnoc(lines, i);
      RunAppend(Initial, visited, StavesVisits(staves), bpm, beatsPerBar);
      visited := visited + StavesVisits(staves);
      LinesVisitsSnoc(lines, i);
      i := i + 1;
    }
    assert lines[..|lines|] == lines;
    return Some(notes);
  }

  lemma TraversableStopsAt(t: Tune, i: nat)
    requires i < |t.lines| && !LineTraversable(t.lines[i])
    ensures !Traversable(t)
  {
  }

  lemma TraversableSnoc(lines: seq<Line>, i: nat)
    requires i < |lines| && Traversable(Tune(lines[..i])) && LineTraversable(lines[i])
    ensures Traversable(Tune(lines[..i + 1]))
  {
    assert forall l :: 0 <= l < i ==> lines[..i + 1][l] == lines[..i][l];
  }

  /**
   * The loop over the staves of one line. The staff counter starts at 0 on
   * every line and counts one per staff. `ok` is false where a staff has no
   * voice: the source then throws.
   */
  method VisitLine(multiplier: real, notes: Index, staves: seq<Staff>, bpm: real, beatsPerBar: real)
    returns (ok: bool, multiplier': real, notes': Index)
    requires bpm != 0.0
    ensures ok <==> AllVoiced(staves)
    ensures ok ==> State(multiplier', notes') == Run(State(multiplier, notes), StavesVisits(staves), bpm, beatsPerBar)
  {
    multiplier', notes' := multiplier, notes;
    var staffNum := 0;
    var s := 0;
    while s < |staves|
      invariant 0 <= s <= |staves| && staffNum == s
      invariant AllVoiced(staves[..s])
      invariant State(multiplier', notes') == Run(State(multiplier, notes), StavesVisits(staves[..s]), bpm, beatsPerBar)
    {
      var staff := staves[s];
      if |staff.voices| == 0 {
        AllVoicedStopsAt(staves, s);
        return false, multiplier', notes';
      }
      var voice := staff.voices[0];
      multiplier', notes' := VisitVoice(multiplier', notes', voice, staffNum, bpm, beatsPerBar);
      StateCarriesAcrossStaves(State(multiplier, notes), staves, s, bpm, beatsPerBar);
      AllVoicedSnoc(staves, s);
      staffNum := staffNum + 1;
      s := s + 1;
    }
    assert staves[..|staves|] == staves;
    return true, multiplier', notes';
  }

  lemma AllVoicedStopsAt(staves: seq<Staff>, s: nat)
    requires s < |staves| && |staves[s].voices| == 0
    ensures !AllVoiced(staves)
  {
  }

  lemma AllVoicedSnoc(staves: seq<Staff>, s: nat)
    requires s < |staves| && AllVoiced(staves[..s]) && |staves[s].voices| > 0
    ensures AllVoiced(staves[..s + 1])
  {
    assert forall j :: 0 <= j < s ==> staves[..s + 1][j] == staves[..s][j];
  }

  /** The loop over the elements of a staff's first voice. */
  method VisitVoice(multiplier: real, notes: Index, voice: seq<Element>, staffNum: nat, bpm: real, beatsPerBar: real)
    returns (multiplier': real, notes': Index)
    requires bpm != 0.0
    ensures State(multiplier', notes') == Run(State(multiplier, notes), VoiceVisits(staffNum, voice), bpm, beatsPerBar)
  {
    multiplier', notes' := multiplier, notes;
    var k := 0;
    while k < |voice|
      invariant 0 <= k <= |voice|
      invariant State(multiplier', notes') == Run(State(multiplier, notes), VoiceVisits(staffNum, voice[..k]), bpm, beatsPerBar)
    {
      var note := voice[k];
      multiplier', notes' := VisitElement(multiplier', notes', note, staffNum, bpm, beatsPerBar);
      VoiceVisitsSnoc(staffNum, voice, k);
      RunSnoc(State(multiplier, notes), VoiceVisits(staffNum, voice[..k]), Visit(staffNum, note), bpm, beatsPerBar);
      k := k + 1;
    }
    assert voice[..|voice|] == voice;
  }

  /** Running over two stretches of visits is running over the second from where the first ended. */
  lemma {:induction false} RunAppend(st: State, a: seq<Visit>, b: seq<Visit>, bpm: real, beatsPerBar: real)
    requires bpm != 0.0
    ensures Run(st, a + b, bpm, beatsPerBar) == Run(Run(st, a, bpm, beatsPerBar), b, bpm, beatsPerBar)
    decreases |b|
  {
    if b == [] {
      assert a + b == a;
    } else {
      var n := |b| - 1;
      assert (a + b)[..|a| + n] == a + b[..n];
      RunAppend(st, a, b[..n], bpm, beatsPerBar);
    }
  }

  /**
   * The body of the innermost loop: one element of a voice. The multiplier is
   * taken from a triplet start before the duration is computed, and reset
   * only after the triplet's closing element has been stored.
   */
  method VisitElement(multiplier: real, notes: Index, note: Element, staffNum: nat, bpm: real, beatsPerBar: real)
    returns (multiplier': real, notes': Index)
    requires bpm != 0.0
    ensures State(multiplier', notes') == Step(State(multiplier, notes), Visit(staffNum, note), bpm, beatsPerBar)
  {
    var tripletMultiplier := multiplier;
    notes' := notes;
    if note.startTriplet {
      tripletMultiplier := note.tripletMultiplier;
    }
    if note.pitches.Some? && note.el_type == "note" {
      var duration := note.duration * tripletMultiplier * (60.0 / bpm) * beatsPerBar;
      var index := "s" + NatText(note.startChar) + "e" + NatText(note.endChar);
      var reactronicaNotes := DescribeChord(note.pitches.value, duration, staffNum);
      notes' := notes'[index := reactronicaNotes];
      assert index == ElementKey(note);
      assert duration == NoteDuration(note, EffectiveMultiplier(multiplier, note), bpm, beatsPerBar);
    }
    assert notes' == Step(State(multiplier, notes), Visit(staffNum, note), bpm, beatsPerBar).notes;
    if note.endTriplet {
      tripletMultiplier := 1.0;
    }
    multiplier' := tripletMultiplier;
  }

  /** The inner loop over a chord's pitches, pushing one descriptor per pitch. */
  method DescribeChord(pitches: seq<Pitch>, duration: real, staffNum: nat) returns (reactronicaNotes: seq<Note>)
    ensures reactronicaNotes == Chord(pitches, duration, staffNum)
  {
    reactronicaNotes := [];
    var p := 0;
    while p < |pitches|
      invariant 0 <= p <= |pitches|
      invariant reactronicaNotes == Chord(pitches[..p], duration, staffNum)
    {
      var noteBlob := DescribePitch(pitches[p], duration, staffNum);
      ChordSnoc(pitches, p, duration, staffNum);
      reactronicaNotes := reactronicaNotes + [noteBlob];
      p := p + 1;
    }
    assert pitches[..|pitches|] == pitches;
  }

  lemma ChordSnoc(pitches: seq<Pitch>, p: nat, duration: real, line: nat)
    requires p < |pitches|
    ensures Chord(pitches[..p + 1], duration, line) == Chord(pitches[..p], duration, line) + [Describe(pitches[p], duration, line)]
  {
    var longer, shorter := Chord(pitches[..p + 1], duration, line), Chord(pitches[..p], duration, line);
    var appended := shorter + [Describe(pitches[p], duration, line)];
    assert |longer| == |appended| == p + 1;
    forall q | 0 <= q < p + 1 ensures longer[q] == appended[q] {
      assert pitches[..p + 1][q] == pitches[q];
      if q < p {
        assert pitches[..p][q] == pitches[q];
      }
    }
  }

  /** One descriptor: the accidental chosen by two independent tests, then name, octave and line. */
  method DescribePitch(pitch: Pitch, duration: real, staffNum: nat) returns (noteBlob: Note)
    ensures noteBlob == Describe(pitch, duration, staffNum)
  {
    var accidental := "";
    if pitch.accidental == Some("sharp") {
      accidental := "#";
    }
    if pitch.accidental == Some("flat") {
      accidental := "b";
    }
    var no := ComputeNoteAndOctave(pitch.pitch);
    noteBlob := Note(LetterText(no.note) + accidental + IntText(no.octave), duration, no.octave, staffNum);
  }

  lemma RunSnoc(st: State, visits: seq<Visit>, v: Visit, bpm: real, beatsPerBar: real)
    requires bpm != 0.0
    ensures Run(st, visits + [v], bpm, beatsPerBar) == Step(Run(st, visits, bpm, beatsPerBar), v, bpm, beatsPerBar)
  {
    assert (visits + [v])[..|visits|] == visits;
  }

  lemma VoiceVisitsSnoc(staffNum: nat, voice: seq<Element>, k: nat)
    requires k < |voice|
    ensures VoiceVisits(staffNum, voice[..k + 1]) == VoiceVisits(staffNum, voice[..k]) + [Visit(staffNum, voice[k])]
  {
  }

  lemma StavesVisitsSnoc(staves: seq<Staff>, s: nat)
    requires s < |staves|
    ensures StavesVisits(staves[..s + 1]) == StavesVisits(staves[..s]) + VoiceVisits(s, FirstVoice(staves[s]))
  {
    assert staves[..s + 1][..s] == staves[..s];
  }

  lemma LinesVisitsSnoc(lines: seq<Line>, i: nat)
    requires i < |lines|
    ensures LinesVisits(lines[..i + 1]) == LinesVisits(lines[..i]) + StavesVisits(StavesOf(lines[i]))
  {
    assert lines[..i + 1][..i] == lines[..i];
  }

  // ---------------------------------------------------------------- what the index holds

  /** A key is present exactly when it was there before or some visited pitched note has it. */
  lemma {:induction false} RunKeys(st: State, visits: seq<Visit>, k: string, bpm: real, beatsPerBar: real)
    requires bpm != 0.0
    ensures k in Run(st, visits, bpm, beatsPerBar).notes
            <==> k in st.notes || exists i :: 0 <= i < |visits| && Writes(visits[i].element, k)
    decreases |visits|
  {
    if visits != [] {
      var n := |visits| - 1;
      var front := visits[..n];
      RunKeys(st, front, k, bpm, beatsPerBar);
      assert forall i :: 0 <= i < n ==> front[i] == visits[i];
      if exists i :: 0 <= i < |visits| && Writes(visits[i].element, k) {
        var i :| 0 <= i < |visits| && Writes(visits[i].element, k);
        if i < n {
          assert Writes(front[i].element, k);
        }
      }
    }
  }

  /** An entry no visit writes keeps its earlier value. */
  lemma {:induction false} RunUntouched(st: State, visits: seq<Visit>, k: string, bpm: real, beatsPerBar: real)
    requires bpm != 0.0
    requires k in st.notes
    requires forall i :: 0 <= i < |visits| ==> !Writes(visits[i].element, k)
    ensures k in Run(st, visits, bpm, beatsPerBar).notes
    ensures Run(st, visits, bpm, beatsPerBar).notes[k] == st.notes[k]
    decreases |visits|
  {
    if visits != [] {
      var n := |visits| - 1;
      RunUntouched(st, visits[..n], k, bpm, beatsPerBar);
    }
  }

  /** The chord visit `v` stores, when the multiplier before it is `multiplier`. */
  function StoredChord(multiplier: real, v: Visit, bpm: real, beatsPerBar: real): seq<Note>
    requires bpm != 0.0 && IsPitchedNote(v.element)
  {
    var e := v.element;
    Chord(e.pitches.value, NoteDuration(e, EffectiveMultiplier(multiplier, e), bpm, beatsPerBar), v.staffNum)
  }

  /** The last visit that writes a key decides its entry: later writes overwrite earlier ones. */
  lemma {:induction false} RunLastWriter(st: State, visits: seq<Visit>, i: nat, bpm: real, beatsPerBar: real)
    requires bpm != 0.0
    requires i < |visits| && IsPitchedNote(visits[i].element)
    requires forall j :: i < j < |visits| ==> !Writes(visits[j].element, ElementKey(visits[i].element))
    ensures ElementKey(visits[i].element) in Run(st, visits, bpm, beatsPerBar).notes
    ensures Run(st, visits, bpm, beatsPerBar).notes[ElementKey(visits[i].element)]
            == StoredChord(Run(st, visits[..i], bpm, beatsPerBar).multiplier, visits[i], bpm, beatsPerBar)
    decreases |visits|
  {
    var n := |visits| - 1;
    if i < n {
      assert visits[..n][..i] == visits[..i];
      RunLastWriter(st, visits[..n], i, bpm, beatsPerBar);
    }
  }

  /** The visits of a tune, in traversal order. */
  function TuneVisits(t: Tune): seq<Visit> {
    LinesVisits(t.lines)
  }

  /** The multiplier in force when the traversal reaches visit `i`, before that element is looked at. */
  function MultiplierBefore(t: Tune, i: nat, bpm: real, beatsPerBar: real): real
    requires bpm != 0.0 && i <= |TuneVisits(t)|
  {
    Run(Initial, TuneVisits(t)[..i], bpm, beatsPerBar).multiplier
  }

  /**
   * The index has an entry for a character range exactly when the traversal
   * meets a pitched note element with that range; rests (no pitches) and
   * other element types add nothing.
   */
  lemma IndexHasRange(t: Tune, a: nat, b: nat, bpm: real, beatsPerBar: real)
    requires bpm != 0.0
    ensures RangeKey(a, b) in BuildIndex(t, bpm, beatsPerBar)
            <==> exists v :: v in TuneVisits(t) && IsPitchedNote(v.element)
                             && v.element.startChar == a && v.element.endChar == b
  {
    var vs := TuneVisits(t);
    RunKeys(Initial, vs, RangeKey(a, b), bpm, beatsPerBar);
    forall v | v in vs
      ensures Writes(v.element, RangeKey(a, b)) <==> IsPitchedNote(v.element) && v.element.startChar == a && v.element.endChar == b
    {
      RangeKeyInjective(v.element.startChar, v.element.endChar, a, b);
    }
    if RangeKey(a, b) in BuildIndex(t, bpm, beatsPerBar) {
      var i :| 0 <= i < |vs| && Writes(vs[i].element, RangeKey(a, b));
      assert vs[i] in vs;
    } else {
      forall v | v in vs ensures !Writes(v.element, RangeKey(a, b)) {
        var i :| 0 <= i < |vs| && vs[i] == v;
      }
    }
  }

  /**
   * The entry stored by the last visit with a given key: one descriptor per
   * pitch, in pitch order, all with the same duration (NoteDuration: raw
   * duration times the multiplier in effect times 60/bpm times beats per
   * bar) and the same line (the staff number of that visit); each name is
   * the pitch's name and each octave the pitch mapper's octave.
   */
  lemma IndexEntry(t: Tune, i: nat, bpm: real, beatsPerBar: real)
    requires bpm != 0.0
    requires i < |TuneVisits(t)| && IsPitchedNote(TuneVisits(t)[i].element)
    requires forall j :: i < j < |TuneVisits(t)| ==> !Writes(TuneVisits(t)[j].element, ElementKey(TuneVisits(t)[i].element))
    ensures var v := TuneVisits(t)[i];
            var e := v.element;
            var m := EffectiveMultiplier(MultiplierBefore(t, i, bpm, beatsPerBar), e);
            && ElementKey(e) in BuildIndex(t, bpm, beatsPerBar)
            && |BuildIndex(t, bpm, beatsPerBar)[ElementKey(e)]| == |e.pitches.value|
            && forall q :: 0 <= q < |e.pitches.value| ==>
                 var d := BuildIndex(t, bpm, beatsPerBar)[ElementKey(e)][q];
                 && d.name == NoteName(e.pitches.value[q])
                 && d.octave == ComputeNoteAndOctave(e.pitches.value[q].pitch).octave
                 && d.duration == NoteDuration(e, m, bpm, beatsPerBar)
                 && d.line == v.staffNum
  {
    var v := TuneVisits(t)[i];
    var m := EffectiveMultiplier(MultiplierBefore(t, i, bpm, beatsPerBar), v.element);
    StoredEntry(t, i, bpm, beatsPerBar);
    ChordDescriptors(BuildIndex(t, bpm, beatsPerBar)[ElementKey(v.element)], v.element, m, v.staffNum, bpm, beatsPerBar);
  }

  /** The entry a key's last writer leaves is the chord that element builds. */
  lemma StoredEntry(t: Tune, i: nat, bpm: real, beatsPerBar: real)
    requires bpm != 0.0
    requires i < |TuneVisits(t)| && IsPitchedNote(TuneVisits(t)[i].element)
    requires forall j :: i < j < |TuneVisits(t)| ==> !Writes(TuneVisits(t)[j].element, ElementKey(TuneVisits(t)[i].element))
    ensures var v := TuneVisits(t)[i];
            var m := EffectiveMultiplier(MultiplierBefore(t, i, bpm, beatsPerBar), v.element);
            && ElementKey(v.element) in BuildIndex(t, bpm, beatsPerBar)
            && BuildIndex(t, bpm, beatsPerBar)[ElementKey(v.element)]
               == Chord(v.element.pitches.value, NoteDuration(v.element, m, bpm, beatsPerBar), v.staffNum)
  {
    RunLastWriter(Initial, TuneVisits(t), i, bpm, beatsPerBar);
  }

  /** The descriptors of the chord an element builds, one by one, with the duration written out. */
  lemma ChordDescriptors(entry: seq<Note>, e: Element, m: real, line: nat, bpm: real, beatsPerBar: real)
    requires bpm != 0.0 && e.pitches.Some?
    requires entry == Chord(e.pitches.value, NoteDuration(e, m, bpm, beatsPerBar), line)
    ensures |entry| == |e.pitches.value|
    ensures forall q :: 0 <= q < |e.pitches.value| ==>
              && entry[q].name == NoteName(e.pitches.value[q])
              && entry[q].octave == ComputeNoteAndOctave(e.pitches.value[q].pitch).octave
              && entry[q].duration == e.duration * m * (60.0 / bpm) * beatsPerBar
              && entry[q].line == line
  {
    var dur := NoteDuration(e, m, bpm, beatsPerBar);
    ChordEntries(e.pitches.value, dur, line);
  }

  /** A chord's descriptors, one by one. */
  lemma ChordEntries(pitches: seq<Pitch>, duration: real, line: nat)
    ensures |Chord(pitches, duration, line)| == |pitches|
    ensures forall q :: 0 <= q < |pitches| ==>
              && Chord(pitches, duration, line)[q].name == NoteName(pitches[q])
              && Chord(pitches, duration, line)[q].octave == ComputeNoteAndOctave(pitches[q].pitch).octave
              && Chord(pitches, duration, line)[q].duration == duration
              && Chord(pitches, duration, line)[q].line == line
  {
  }

  /** A key the run added has a last writer: a visit that stores it, with no later visit storing it again. */
  lemma {:induction false} RunLastWriterOf(st: State, visits: seq<Visit>, k: string, bpm: real, beatsPerBar: real)
    returns (i: nat)
    requires bpm != 0.0
    requires k in Run(st, visits, bpm, beatsPerBar).notes && k !in st.notes
    ensures i < |visits| && Writes(visits[i].element, k)
    ensures forall j :: i < j < |visits| ==> !Writes(visits[j].element, k)
    decreases |visits|
  {
    assert visits != [];
    var n := |visits| - 1;
    if Writes(visits[n].element, k) {
      i := n;
    } else {
      assert k in Run(st, visits[..n], bpm, beatsPerBar).notes;
      i := RunLastWriterOf(st, visits[..n], k, bpm, beatsPerBar);
      assert visits[..n][i] == visits[i];
      forall j | i < j < |visits| ensures !Writes(visits[j].element, k) {
        if j < n {
          assert visits[..n][j] == visits[j];
        }
      }
    }
  }

  /**
   * Every key of a built index has a last writer in the walk, so IndexEntry
   * describes every entry of the index.
   */
  lemma IndexLastWriter(t: Tune, k: string, bpm: real, beatsPerBar: real) returns (i: nat)
    requires bpm != 0.0 && k in BuildIndex(t, bpm, beatsPerBar)
    ensures i < |TuneVisits(t)| && Writes(TuneVisits(t)[i].element, k)
    ensures forall j :: i < j < |TuneVisits(t)| ==> !Writes(TuneVisits(t)[j].element, k)
  {
    i := RunLastWriterOf(Initial, TuneVisits(t), k, bpm, beatsPerBar);
  }

  /** All descriptors stored under one key share one duration and one line. */
  lemma IndexEntryShared(t: Tune, k: string, bpm: real, beatsPerBar: real)
    requires bpm != 0.0 && k in BuildIndex(t, bpm, beatsPerBar)
    ensures var entry := BuildIndex(t, bpm, beatsPerBar)[k];
            forall a, b :: 0 <= a < |entry| && 0 <= b < |entry| ==>
              entry[a].duration == entry[b].duration && entry[a].line == entry[b].line
  {
    var i := IndexLastWriter(t, k, bpm, beatsPerBar);
    IndexEntry(t, i, bpm, beatsPerBar);
  }

  // ---------------------------------------------------------------- triplets

  /** Without triplet starts the multiplier stays at 1 throughout. */
  lemma {:induction false} RunWithoutTriplets(st: State, visits: seq<Visit>, bpm: real, beatsPerBar: real)
    requires bpm != 0.0 && st.multiplier == 1.0
    requires forall i :: 0 <= i < |visits| ==> !visits[i].element.startTriplet
    ensures Run(st, visits, bpm, beatsPerBar).multiplier == 1.0
    decreases |visits|
  {
    if visits != [] {
      RunWithoutTriplets(st, visits[..|visits| - 1], bpm, beatsPerBar);
    }
  }

  /**
   * A tune without triplets: every stored descriptor's duration is the raw
   * duration times 60/bpm times beats per bar, never a scaled value.
   */
  lemma PlainDurations(t: Tune, i: nat, bpm: real, beatsPerBar: real)
    requires bpm != 0.0
    requires forall j :: 0 <= j < |TuneVisits(t)| ==> !TuneVisits(t)[j].element.startTriplet
    requires i < |TuneVisits(t)| && IsPitchedNote(TuneVisits(t)[i].element)
    requires forall j :: i < j < |TuneVisits(t)| ==> !Writes(TuneVisits(t)[j].element, ElementKey(TuneVisits(t)[i].element))
    ensures var e := TuneVisits(t)[i].element;
            && ElementKey(e) in BuildIndex(t, bpm, beatsPerBar)
            && forall d :: d in BuildIndex(t, bpm, beatsPerBar)[ElementKey(e)] ==>
                 d.duration == e.duration * (60.0 / bpm) * beatsPerBar
  {
    var vs := TuneVisits(t);
    var e := vs[i].element;
    RunWithoutTriplets(Initial, vs[..i], bpm, beatsPerBar);
    RunLastWriter(Initial, vs, i, bpm, beatsPerBar);
    var dur := NoteDuration(e, 1.0, bpm, beatsPerBar);
    assert dur == e.duration * (60.0 / bpm) * beatsPerBar;
    assert BuildIndex(t, bpm, beatsPerBar)[ElementKey(e)] == Chord(e.pitches.value, dur, vs[i].staffNum);
  }

  /** Inside a triplet group (opened at g[0], not yet closed) the multiplier is the group's. */
  lemma {:induction false} InsideTriplet(st: State, g: seq<Visit>, n: nat, bpm: real, beatsPerBar: real)
    requires bpm != 0.0
    requires 1 <= n < |g| && g[0].element.startTriplet
    requires forall i :: 0 < i < |g| ==> !g[i].element.startTriplet
    requires forall i :: 0 <= i < |g| - 1 ==> !g[i].element.endTriplet
    ensures Run(st, g[..n], bpm, beatsPerBar).multiplier == g[0].element.tripletMultiplier
  {
    if n == 1 {
      assert g[..1][..0] == [];
    } else {
      assert g[..n][..n - 1] == g[..n - 1];
      InsideTriplet(st, g, n - 1, bpm, beatsPerBar);
    }
  }

  /**
   * A triplet group: g[0] opens it, only the last element closes it. Every
   * member, the closing one included, is scaled by g[0]'s multiplier; after
   * the group the multiplier is back to 1.
   */
  lemma TripletGroup(st: State, g: seq<Visit>, bpm: real, beatsPerBar: real)
    requires bpm != 0.0
    requires |g| >= 1 && g[0].element.startTriplet && g[|g| - 1].element.endTriplet
    requires forall i :: 0 < i < |g| ==> !g[i].element.startTriplet
    requires forall i :: 0 <= i < |g| - 1 ==> !g[i].element.endTriplet
    ensures forall i :: 0 <= i < |g| ==>
              EffectiveMultiplier(Run(st, g[..i], bpm, beatsPerBar).multiplier, g[i].element)
              == g[0].element.tripletMultiplier
    ensures Run(st, g, bpm, beatsPerBar).multiplier == 1.0
  {
    forall i | 0 < i < |g|
      ensures Run(st, g[..i], bpm, beatsPerBar).multiplier == g[0].element.tripletMultiplier
    {
      InsideTriplet(st, g, i, bpm, beatsPerBar);
    }
    assert g[..|g|] == g;
  }

  // ---------------------------------------------------------------- traversal order

  /**
   * The traversal state, the triplet multiplier included, runs on from the
   * end of one line into the next: nothing is reset at a line boundary.
   */
  lemma StateCarriesAcrossLines(lines: seq<Line>, i: nat, bpm: real, beatsPerBar: real)
    requires bpm != 0.0 && i < |lines|
    ensures Run(Initial, LinesVisits(lines[..i + 1]), bpm, beatsPerBar)
            == Run(Run(Initial, LinesVisits(lines[..i]), bpm, beatsPerBar), StavesVisits(StavesOf(lines[i])), bpm, beatsPerBar)
  {
    LinesVisitsSnoc(lines, i);
    RunAppend(Initial, LinesVisits(lines[..i]), StavesVisits(StavesOf(lines[i])), bpm, beatsPerBar);
  }

  /** Likewise from one staff into the next within a line. */
  lemma StateCarriesAcrossStaves(st: State, staves: seq<Staff>, s: nat, bpm: real, beatsPerBar: real)
    requires bpm != 0.0 && s < |staves|
    ensures Run(st, StavesVisits(staves[..s + 1]), bpm, beatsPerBar)
            == Run(Run(st, StavesVisits(staves[..s]), bpm, beatsPerBar), VoiceVisits(s, FirstVoice(staves[s])), bpm, beatsPerBar)
  {
    StavesVisitsSnoc(staves, s);
    RunAppend(st, StavesVisits(staves[..s]), VoiceVisits(s, FirstVoice(staves[s])), bpm, beatsPerBar);
  }

  /** The visits of one line: element e of staff j's first voice, with staff number j. */
  lemma {:induction false} StavesVisitsMembers(staves: seq<Staff>, v: Visit)
    ensures v in StavesVisits(staves)
            <==> exists j :: 0 <= j < |staves| && v.staffNum == j && v.element in FirstVoice(staves[j])
    decreases |staves|
  {
    if staves != [] {
      var n := |staves| - 1;
      StavesVisitsMembers(staves[..n], v);
      assert forall j :: 0 <= j < n ==> staves[..n][j] == staves[j];
      assert v in VoiceVisits(n, FirstVoice(staves[n])) <==> v.staffNum == n && v.element in FirstVoice(staves[n]) by {
        var voice := FirstVoice(staves[n]);
        if v.staffNum == n && v.element in voice {
          var k :| 0 <= k < |voice| && voice[k] == v.element;
          assert VoiceVisits(n, voice)[k] == v;
        }
      }
    }
  }

  lemma LinesVisitsMembers(lines: seq<Line>, v: Visit)
    ensures v in LinesVisits(lines)
            <==> exists l :: 0 <= l < |lines| && v in StavesVisits(StavesOf(lines[l]))
  {
    if v in LinesVisits(lines) {
      var l := LinesVisitsSource(lines, v);
    }
    forall l | 0 <= l < |lines| && v in StavesVisits(StavesOf(lines[l])) {
      LinesVisitsReach(lines, l, v);
    }
  }

  /** A visit of the traversal comes from some line. */
  lemma {:induction false} LinesVisitsSource(lines: seq<Line>, v: Visit) returns (l: nat)
    requires v in LinesVisits(lines)
    ensures l < |lines| && v in StavesVisits(StavesOf(lines[l]))
    decreases |lines|
  {
    var n := |lines| - 1;
    assert LinesVisits(lines) == LinesVisits(lines[..n]) + StavesVisits(StavesOf(lines[n]));
    if v in StavesVisits(StavesOf(lines[n])) {
      l := n;
    } else {
      l := LinesVisitsSource(lines[..n], v);
      assert lines[..n][l] == lines[l];
    }
  }

  /** Every visit of every line is a visit of the traversal. */
  lemma {:induction false} LinesVisitsReach(lines: seq<Line>, l: nat, v: Visit)
    requires l < |lines| && v in StavesVisits(StavesOf(lines[l]))
    ensures v in LinesVisits(lines)
    decreases |lines|
  {
    var n := |lines| - 1;
    assert LinesVisits(lines) == LinesVisits(lines[..n]) + StavesVisits(StavesOf(lines[n]));
    if l < n {
      assert lines[..n][l] == lines[l];
      LinesVisitsReach(lines[..n], l, v);
    }
  }

  /**
   * The traversal meets exactly the elements of each staff's first voice;
   * the staff number it records is the staff's zero-based position within
   * its own line.
   */
  lemma TuneVisitsMembers(t: Tune, v: Visit)
    ensures v in TuneVisits(t)
            <==> exists l, j :: 0 <= l < |t.lines| && 0 <= j < |StavesOf(t.lines[l])|
                               && v.staffNum == j && v.element in FirstVoice(StavesOf(t.lines[l])[j])
  {
    LinesVisitsMembers(t.lines, v);
    forall l | 0 <= l < |t.lines| {
      StavesVisitsMembers(StavesOf(t.lines[l]), v);
    }
  }
}

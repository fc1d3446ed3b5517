/**
 * The pitch mapper: a diatonic step number (0 is C, 1 is D, ..., 6 is B,
 * 7 is the C one octave up; negative numbers go down) becomes a note letter
 * and an octave number, with note 0 in octave 2.
 */
module PitchMapper {

  import opened Wrappers

  /** The note-letter table, indexed 0 to 6. */
  const NoteLetters: seq<char> := ['C', 'D', 'E', 'F', 'G', 'A', 'B']

  /**
   * JavaScript's `x % 7`: the remainder of division truncated toward zero, so
   * it takes the sign of the dividend (Dafny's own `%` never goes negative).
   */
  function JsRemainder7(x: int): (r: int)
    ensures x >= 0 ==> 0 <= r < 7
    ensures x < 0 ==> -7 < r <= 0
    ensures (x - r) % 7 == 0
  {
    if x >= 0 then x % 7 else -((-x) % 7)
  }

  /**
   * The letter is None where the table lookup misses (`undefined` in the
   * source): a negative remainder has no entry in the table.
   */
  datatype NoteAndOctave = NoteAndOctave(note: Option<char>, octave: int)

  /**
   * The letter is looked up at `(n + 700) % 7` with JavaScript's remainder;
   * the octave is `floor(n / 7) + 2` (Dafny's `/` by a positive divisor is
   * the floor).
   */
  function ComputeNoteAndOctave(n: int): (r: NoteAndOctave)
    ensures 7 * (r.octave - 2) <= n < 7 * (r.octave - 2) + 7
    ensures n >= -700 ==> r.note == Some(NoteLetters[n - 7 * (r.octave - 2)])
    ensures n < -700 ==> r.note == (if n % 7 == 0 then Some('C') else None)
  {
    var rem := JsRemainder7(n + 700);
    var note := if rem >= 0 then Some(NoteLetters[rem]) else None;
    NoteAndOctave(note, n / 7 + 2)
  }

  /** The step number of the letter at `letterIndex` in `octave`. */
  function PitchNumber(letterIndex: nat, octave: int): int
    requires letterIndex < 7
  {
    7 * (octave - 2) + letterIndex
  }

  /** From (letter, octave) to a step number and back. */
  lemma PitchNumberRoundTrip(letterIndex: nat, octave: int)
    requires letterIndex < 7 && PitchNumber(letterIndex, octave) >= -700
    ensures ComputeNoteAndOctave(PitchNumber(letterIndex, octave))
            == NoteAndOctave(Some(NoteLetters[letterIndex]), octave)
  {
    var n := PitchNumber(letterIndex, octave);
    var r := ComputeNoteAndOctave(n);
    assert r.octave == octave by {
      assert 7 * (r.octave - 2) <= 7 * (octave - 2) + letterIndex < 7 * (r.octave - 2) + 7;
    }
  }

  /** From a step number to (letter, octave) and back. */
  lemma NoteAndOctaveRoundTrip(n: int)
    requires n >= -700
    ensures var r := ComputeNoteAndOctave(n);
            exists k: nat :: k < 7 && r.note == Some(NoteLetters[k]) && PitchNumber(k, r.octave) == n
  {
    var r := ComputeNoteAndOctave(n);
    var k := n - 7 * (r.octave - 2);
    assert r.note == Some(NoteLetters[k]) && PitchNumber(k, r.octave) == n;
  }

  /** Every pitch from -700 up has one of the seven letters. */
  lemma LetterIsNoteLetter(n: int)
    requires n >= -700
    ensures ComputeNoteAndOctave(n).note.Some?
    ensures ComputeNoteAndOctave(n).note.value in "CDEFGAB"
  {
  }

  /** Seven steps up: the same letter, one octave higher. */
  lemma OctavePeriodicity(n: int)
    requires n >= -700
    ensures ComputeNoteAndOctave(n + 7).note == ComputeNoteAndOctave(n).note
    ensures ComputeNoteAndOctave(n + 7).octave == ComputeNoteAndOctave(n).octave + 1
  {
  }

  /** The octave shifts by one every seven steps, for every pitch. */
  lemma OctaveShift(n: int)
    ensures ComputeNoteAndOctave(n + 7).octave == ComputeNoteAndOctave(n).octave + 1
  {
  }

  /** The reference points: 0 is C2, 6 is B2, 7 is C3 and -1 is B1. */
  lemma ReferencePoints()
    ensures ComputeNoteAndOctave(0) == NoteAndOctave(Some('C'), 2)
    ensures ComputeNoteAndOctave(6) == NoteAndOctave(Some('B'), 2)
    ensures ComputeNoteAndOctave(7) == NoteAndOctave(Some('C'), 3)
    ensures ComputeNoteAndOctave(-1) == NoteAndOctave(Some('B'), 1)
  {
  }

  /** Below -700 the offset no longer suffices: the lookup misses off the multiples of 7. */
  lemma BelowOffsetMisses(n: int)
    requires n < -700 && n % 7 != 0
    ensures ComputeNoteAndOctave(n).note == None
  {
  }
}

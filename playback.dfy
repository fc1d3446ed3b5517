/**
 * The playback bridge's event translation. The timing engine reports the
 * character ranges sounding now as two parallel arrays; each pair is looked
 * up in the note index, the hits are concatenated in order and the misses
 * (rests) dropped, and the event goes on with the resulting notes. A null
 * event (playback ended or reset) goes on as null.
 */
module Playback {

  import opened Wrappers
  import opened Decimal
  import opened NoteIndex

  /** A timing-engine event; `fields` stands for everything else it carries. */
  datatype Event<X> = Event(startCharArray: seq<nat>, endCharArray: seq<nat>, fields: X)

  /** The event as handed on: its own fields plus `notes`. */
  datatype EnrichedEvent<X> = EnrichedEvent(event: Event<X>, notes: seq<Note>)

  /** The key for a start character whose end character is missing: the end prints as "undefined". */
  function MissingEndKey(startChar: nat): string {
    "s" + NatText(startChar) + "e" + "undefined"
  }

  /** The key looked up for the i-th pair. */
  function LookupKey(starts: seq<nat>, ends: seq<nat>, i: nat): string
    requires i < |starts|
  {
    if i < |ends| then RangeKey(starts[i], ends[i]) else MissingEndKey(starts[i])
  }

  /** An index lookup: None where the source reads `undefined`. */
  function Lookup(index: Index, key: string): Option<seq<Note>> {
    if key in index then Some(index[key]) else None
  }

  /** The `map` over the start characters: one lookup per pair, in order. */
  function AllNotes(index: Index, starts: seq<nat>, ends: seq<nat>): (r: seq<Option<seq<Note>>>)
    ensures |r| == |starts|
  {
    seq(|starts|, i requires 0 <= i < |starts| => Lookup(index, LookupKey(starts, ends, i)))
  }

  /** `[].concat(...xs)`: an array argument adds its elements, `undefined` adds itself. */
  function Spread(xs: seq<Option<seq<Note>>>): seq<Option<Note>> {
    if xs == [] then []
    else
      var head := match xs[0]
        case Some(a) => seq(|a|, k requires 0 <= k < |a| => Some(a[k]))
        case None => [None];
      head + Spread(xs[1..])
  }

  /** `.filter(Boolean)`: `undefined` goes, a descriptor (an object, always truthy) stays. */
  function DropMissing(ys: seq<Option<Note>>): seq<Note> {
    if ys == [] then []
    else
      var head := match ys[0]
        case Some(n) => [n]
        case None => [];
      head + DropMissing(ys[1..])
  }

  /** The `notes` of an enriched event, computed as the source does. */
  function EventNotes(index: Index, starts: seq<nat>, ends: seq<nat>): seq<Note> {
    DropMissing(Spread(AllNotes(index, starts, ends)))
  }

  /** Reference definition: the found entries, concatenated in order; a miss contributes nothing. */
  function Hits(xs: seq<Option<seq<Note>>>): seq<Note> {
    if xs == [] then []
    else
      var head := match xs[0]
        case Some(a) => a
        case None => [];
      head + Hits(xs[1..])
  }

  /** The sum of the lengths of the found entries. */
  function FoundLength(xs: seq<Option<seq<Note>>>): nat {
    if xs == [] then 0
    else (if xs[0].Some? then |xs[0].value| else 0) + FoundLength(xs[1..])
  }

  lemma {:induction false} DropMissingAppend(a: seq<Option<Note>>, b: seq<Option<Note>>)
    ensures DropMissing(a + b) == DropMissing(a) + DropMissing(b)
    decreases |a|
  {
    if a == [] {
      assert a + b == b;
    } else {
      assert (a + b)[0] == a[0];
      assert (a + b)[1..] == a[1..] + b;
      DropMissingAppend(a[1..], b);
    }
  }

  lemma {:induction false} DropMissingKeepsAll(a: seq<Note>)
    ensures DropMissing(seq(|a|, k requires 0 <= k < |a| => Some(a[k]))) == a
    decreases |a|
  {
    if a != [] {
      var wrapped := seq(|a|, k requires 0 <= k < |a| => Some(a[k]));
      assert wrapped[1..] == seq(|a[1..]|, k requires 0 <= k < |a[1..]| => Some(a[1..][k]));
      DropMissingKeepsAll(a[1..]);
      assert a == [a[0]] + a[1..];
    }
  }

  /** Spreading and then filtering is concatenating the hits. */
  lemma {:induction false} SpreadThenDrop(xs: seq<Option<seq<Note>>>)
    ensures DropMissing(Spread(xs)) == Hits(xs)
    decreases |xs|
  {
    if xs != [] {
      var head := match xs[0]
        case Some(a) => seq(|a|, k requires 0 <= k < |a| => Some(a[k]))
        case None => [None];
      DropMissingAppend(head, Spread(xs[1..]));
      SpreadThenDrop(xs[1..]);
      match xs[0]
      case Some(a) => DropMissingKeepsAll(a);
      case None =>
    }
  }

  /** The event's notes are the in-order concatenation of the entries found, misses contributing nothing. */
  lemma EventNotesAreHits(index: Index, starts: seq<nat>, ends: seq<nat>)
    ensures EventNotes(index, starts, ends) == Hits(AllNotes(index, starts, ends))
  {
    SpreadThenDrop(AllNotes(index, starts, ends));
  }

  lemma {:induction false} HitsLength(xs: seq<Option<seq<Note>>>)
    ensures |Hits(xs)| == FoundLength(xs)
    decreases |xs|
  {
    if xs != [] {
      HitsLength(xs[1..]);
    }
  }

  /** The number of notes is the sum of the lengths of the entries found. */
  lemma EventNotesLength(index: Index, starts: seq<nat>, ends: seq<nat>)
    ensures |EventNotes(index, starts, ends)| == FoundLength(AllNotes(index, starts, ends))
  {
    EventNotesAreHits(index, starts, ends);
    HitsLength(AllNotes(index, starts, ends));
  }

  lemma {:induction false} HitsMembers(xs: seq<Option<seq<Note>>>, n: Note)
    ensures n in Hits(xs) <==> exists i :: 0 <= i < |xs| && xs[i].Some? && n in xs[i].value
    decreases |xs|
  {
    if xs != [] {
      HitsMembers(xs[1..], n);
      assert forall i :: 1 <= i < |xs| ==> xs[1..][i - 1] == xs[i];
      if exists i :: 0 <= i < |xs| && xs[i].Some? && n in xs[i].value {
        var i :| 0 <= i < |xs| && xs[i].Some? && n in xs[i].value;
        if i > 0 {
          assert xs[1..][i - 1] == xs[i];
        }
      }
    }
  }

  /** A note is in the event's list exactly when some pair's lookup finds an entry holding it. */
  lemma EventNotesMembers(index: Index, starts: seq<nat>, ends: seq<nat>, n: Note)
    ensures n in EventNotes(index, starts, ends)
            <==> exists i :: 0 <= i < |starts| && LookupKey(starts, ends, i) in index
                             && n in index[LookupKey(starts, ends, i)]
  {
    var xs := AllNotes(index, starts, ends);
    EventNotesAreHits(index, starts, ends);
    HitsMembers(xs, n);
    assert forall i :: 0 <= i < |starts| ==> xs[i] == Lookup(index, LookupKey(starts, ends, i));
  }

  /** An event whose ranges all miss (rests only) carries no notes at all, not a list of nulls. */
  lemma OnlyMissesGiveNoNotes(index: Index, starts: seq<nat>, ends: seq<nat>)
    requires forall i :: 0 <= i < |starts| ==> LookupKey(starts, ends, i) !in index
    ensures EventNotes(index, starts, ends) == []
  {
    var xs := AllNotes(index, starts, ends);
    EventNotesAreHits(index, starts, ends);
    HitsLength(xs);
    NoneFound(xs);
  }

  lemma {:induction false} NoneFound(xs: seq<Option<seq<Note>>>)
    requires forall i :: 0 <= i < |xs| ==> xs[i].None?
    ensures FoundLength(xs) == 0
    decreases |xs|
  {
    if xs != [] {
      assert forall i :: 1 <= i < |xs| ==> xs[1..][i - 1] == xs[i];
      NoneFound(xs[1..]);
    }
  }

  /** A key with an "undefined" end is never a character-range key. */
  lemma MissingEndIsNoRangeKey(a: nat, c: nat, d: nat)
    ensures MissingEndKey(a) != RangeKey(c, d)
  {
    var x, u, v := NatText(a), NatText(c), NatText(d);
    var s1 := x + ['e'] + "undefined";
    var s2 := u + ['e'] + v;
    assert MissingEndKey(a) == ['s'] + s1;
    assert RangeKey(c, d) == ['s'] + s2;
    DigitsThenSeparator(s1, x, 'e', "undefined");
    DigitsThenSeparator(s2, u, 'e', v);
    assert s1[|x| + 1] == 'u';
    assert IsDigit(s2[|u| + 1]);
    assert |x| < |u| ==> IsDigit(s2[|x|]);
    assert |u| < |x| ==> IsDigit(s1[|u|]);
    assert s1 != s2;
    assert MissingEndKey(a)[1..] == s1 && RangeKey(c, d)[1..] == s2;
  }

  /** Every key of a built index is the key of some visited pitched element. */
  lemma BuiltKeysAreRangeKeys(t: Tune, k: string, bpm: real, beatsPerBar: real)
    requires bpm != 0.0 && k in BuildIndex(t, bpm, beatsPerBar)
    ensures exists v :: v in TuneVisits(t) && IsPitchedNote(v.element) && k == ElementKey(v.element)
  {
    var vs := TuneVisits(t);
    RunKeys(Initial, vs, k, bpm, beatsPerBar);
    var i :| 0 <= i < |vs| && Writes(vs[i].element, k);
    assert vs[i] in vs;
  }

  /**
   * Against an index built from a tune, the i-th pair finds an entry exactly
   * when it has an end character and the traversal met a pitched note with
   * that start and end.
   */
  lemma LookupOnBuiltIndex(t: Tune, starts: seq<nat>, ends: seq<nat>, i: nat, bpm: real, beatsPerBar: real)
    requires bpm != 0.0 && i < |starts|
    ensures LookupKey(starts, ends, i) in BuildIndex(t, bpm, beatsPerBar)
            <==> i < |ends| && exists v :: v in TuneVisits(t) && IsPitchedNote(v.element)
                                         && v.element.startChar == starts[i] && v.element.endChar == ends[i]
  {
    if i < |ends| {
      IndexHasRange(t, starts[i], ends[i], bpm, beatsPerBar);
    } else if MissingEndKey(starts[i]) in BuildIndex(t, bpm, beatsPerBar) {
      BuiltKeysAreRangeKeys(t, MissingEndKey(starts[i]), bpm, beatsPerBar);
      var v :| v in TuneVisits(t) && IsPitchedNote(v.element) && MissingEndKey(starts[i]) == ElementKey(v.element);
      MissingEndIsNoRangeKey(starts[i], v.element.startChar, v.element.endChar);
    }
  }

  /**
   * The event callback: the calls it makes to the consumer's `onEvent`.
   * Without a handler nothing is called; a null event is handed on as null;
   * any other event is handed on once, with its notes.
   */
  function EventCallback<X>(onEventSupplied: bool, index: Index, event: Option<Event<X>>)
    : (calls: seq<Option<EnrichedEvent<X>>>)
    ensures |calls| == if onEventSupplied then 1 else 0
    ensures forall c :: c in calls ==> (c.None? <==> event.None?)
    ensures forall c :: c in calls && c.Some? ==>
              && c.value.event == event.value
              && c.value.notes == Hits(AllNotes(index, event.value.startCharArray, event.value.endCharArray))
  {
    if !onEventSupplied then []
    else
      match event
      case None => [None]
      case Some(ev) =>
        EventNotesAreHits(index, ev.startCharArray, ev.endCharArray);
        [Some(EnrichedEvent(ev, EventNotes(index, ev.startCharArray, ev.endCharArray)))]
  }
}

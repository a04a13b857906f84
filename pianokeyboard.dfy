/**
 * The on-screen piano: which octaves it spans, the white and black keys it
 * lays out, each key's name and state, and the filter that forwards only
 * pool pitches to the session.
 */
module PianoKeyboard {
  import opened Prelude
  import opened Game

  const WhiteKeyPattern: seq<string> := ["C", "D", "E", "F", "G", "A", "B"]

  /** The black key after each white key of an octave; there is none after E and after B. */
  const BlackKeyPattern: seq<Option<string>> := [Some("C#"), Some("D#"), None, Some("F#"), Some("G#"), Some("A#"), None]

  /** `note.slice(0, -1)`: the name without its last character. */
  function NoteName(note: string): (name: string)
    ensures |note| > 0 ==> note == name + [note[|note| - 1]]
    ensures |note| == 0 ==> name == ""
  {
    if |note| == 0 then "" else note[..|note| - 1]
  }

  /** `note.slice(-1)`: the last character. */
  function OctaveText(note: string): (text: string)
    ensures |text| == if |note| == 0 then 0 else 1
    ensures |note| > 0 ==> note == note[..|note| - 1] + text
  {
    if |note| == 0 then "" else [note[|note| - 1]]
  }

  /** The two slices put back together give the note again. */
  lemma SplitRecombines(note: string)
    ensures NoteName(note) + OctaveText(note) == note
    ensures |OctaveText(note)| <= 1
  {
    if |note| > 0 {
      assert note == note[..|note| - 1] + [note[|note| - 1]];
    }
  }

  /** `parseInt(note.slice(-1))`: the octave digit, or None for NaN. */
  function OctaveOf(note: string): (o: Option<nat>)
    ensures o.Some? ==> o.value < 10
    ensures o.Some? <==> |note| > 0 && '0' <= note[|note| - 1] <= '9'
    ensures o.Some? ==> DigitChar(o.value) == note[|note| - 1]
  {
    if |note| == 0 then None else ParseDigit(note[|note| - 1])
  }

  /**
   * `Math.min` and `Math.max` over the notes' octaves. None when the list is
   * empty (the bounds are then infinite) or an octave is NaN: in both cases
   * the key-building loop runs zero times.
   */
  function OctaveRange(notes: seq<string>): (r: Option<(nat, nat)>)
    ensures r.Some? <==> |notes| > 0 && forall i :: 0 <= i < |notes| ==> OctaveOf(notes[i]).Some?
    ensures r.Some? ==> r.value.0 <= r.value.1 < 10
    ensures r.Some? ==> forall i :: 0 <= i < |notes| ==> r.value.0 <= OctaveOf(notes[i]).value <= r.value.1
    ensures r.Some? ==> exists i :: 0 <= i < |notes| && OctaveOf(notes[i]).value == r.value.0
    ensures r.Some? ==> exists i :: 0 <= i < |notes| && OctaveOf(notes[i]).value == r.value.1
  {
    if |notes| == 0 then None
    else match OctaveOf(notes[0])
      case None => None
      case Some(o) =>
        if |notes| == 1 then Some((o, o))
        else match OctaveRange(notes[1..])
          case None => None
          case Some(bounds) =>
            var lo := if o <= bounds.0 then o else bounds.0;
            var hi := if o >= bounds.1 then o else bounds.1;
            assert forall i :: 1 <= i < |notes| ==> notes[i] == notes[1..][i - 1];
            assert exists i :: 0 <= i < |notes| && OctaveOf(notes[i]).value == lo by {
              if o > bounds.0 {
                var j :| 0 <= j < |notes[1..]| && OctaveOf(notes[1..][j]).value == bounds.0;
                assert notes[j + 1] == notes[1..][j];
              }
            }
            assert exists i :: 0 <= i < |notes| && OctaveOf(notes[i]).value == hi by {
              if o < bounds.1 {
                var j :| 0 <= j < |notes[1..]| && OctaveOf(notes[1..][j]).value == bounds.1;
                assert notes[j + 1] == notes[1..][j];
              }
            }
            Some((lo, hi))
  }

  /** How many black keys the last octave gets: those before the last note's letter in C..B. */
  function LastOctaveBlackKeys(notes: seq<string>): (k: nat)
    requires |notes| > 0
    ensures k < 7
  {
    Max(IndexOf(WhiteKeyPattern, NoteName(notes[|notes| - 1])), 0)
  }

  /** The keys laid out for the range; `range` is None when no key is built. */
  datatype Layout = Layout(range: Option<(nat, nat)>, whiteKeys: seq<string>, blackKeys: seq<Option<string>>)

  /** The first `n` slots of a seven-slot pattern repeated end to end. */
  function PatternRun<T>(pattern: seq<T>, n: nat): (run: seq<T>)
    requires |pattern| == 7
    ensures |run| == n && forall i :: 0 <= i < n ==> run[i] == pattern[i % 7]
  {
    seq(n, i requires 0 <= i => pattern[i % 7])
  }

  /** The layout for `available`: seven white keys per octave, black keys up to the last note's letter. */
  function Keyboard(available: seq<string>): (layout: Layout)
    ensures layout.range == OctaveRange(available)
  {
    match OctaveRange(available)
    case None => Layout(None, [], [])
    case Some(bounds) =>
      var octaves := bounds.1 - bounds.0 + 1;
      Layout(
        Some(bounds),
        PatternRun(WhiteKeyPattern, 7 * octaves),
        PatternRun(BlackKeyPattern, 7 * (octaves - 1) + LastOctaveBlackKeys(available)))
  }

  /** Seven white keys per octave cycling C..B; black keys follow the pattern, seven per full octave. */
  lemma KeyboardShape(available: seq<string>)
    ensures var layout := Keyboard(available);
      && (layout.range.None? ==> layout.whiteKeys == [] && layout.blackKeys == [])
      && (layout.range.Some? ==>
            var octaves := layout.range.value.1 - layout.range.value.0 + 1;
            && |layout.whiteKeys| == 7 * octaves
            && |available| > 0
            && 7 * (octaves - 1) <= |layout.blackKeys| < 7 * octaves)
      && (forall i :: 0 <= i < |layout.whiteKeys| ==> layout.whiteKeys[i] == WhiteKeyPattern[i % 7])
      && (forall i :: 0 <= i < |layout.blackKeys| ==> layout.blackKeys[i] == BlackKeyPattern[i % 7])
  {
  }

  lemma ModSeven(m: nat, j: nat)
    requires j < 7
    ensures (7 * m + j) % 7 == j && (7 * m + j) / 7 == m
  {
  }

  /** A run of whole octaves followed by `c` more slots is that run plus the pattern's first `c` slots. */
  lemma PatternRunExtend<T>(pattern: seq<T>, m: nat, c: nat)
    requires |pattern| == 7 && c <= 7
    ensures PatternRun(pattern, 7 * m + c) == PatternRun(pattern, 7 * m) + pattern[..c]
  {
    var longer, shorter := PatternRun(pattern, 7 * m + c), PatternRun(pattern, 7 * m);
    forall j | 0 <= j < c
      ensures longer[7 * m + j] == pattern[j]
    {
      ModSeven(m, j);
    }
    assert longer == shorter + pattern[..c];
  }

  /**
   * One pass of the `forEach` over the seven pattern slots: every white key
   * is pushed, and the slot's black-key entry when the octave is not the
   * last or the slot comes before `lastIndex`.
   */
  method PushOctave(whiteKeys: seq<string>, blackKeys: seq<Option<string>>, isLast: bool, lastIndex: int)
    returns (white: seq<string>, black: seq<Option<string>>)
    requires lastIndex < 7
    ensures white == whiteKeys + WhiteKeyPattern
    ensures black == blackKeys + BlackKeyPattern[..if isLast then Max(lastIndex, 0) else 7]
  {
    white, black := whiteKeys, blackKeys;
    var blackCount := if isLast then Max(lastIndex, 0) else 7;
    var index := 0;
    while index < 7
      invariant 0 <= index <= 7
      invariant white == whiteKeys + WhiteKeyPattern[..index]
      invariant black == blackKeys + BlackKeyPattern[..if index <= blackCount then index else blackCount]
    {
      assert WhiteKeyPattern[..index + 1] == WhiteKeyPattern[..index] + [WhiteKeyPattern[index]];
      white := white + [WhiteKeyPattern[index]];
      if !isLast || index < lastIndex {
        assert BlackKeyPattern[..index + 1] == BlackKeyPattern[..index] + [BlackKeyPattern[index]];
        black := black + [BlackKeyPattern[index]];
      }
      index := index + 1;
    }
    assert WhiteKeyPattern[..7] == WhiteKeyPattern;
  }

  /** The source's loop over the octaves from the lowest to the highest, one `PushOctave` each. */
  method BuildKeys(available: seq<string>) returns (layout: Layout)
    ensures layout == Keyboard(available)
  {
    var range := OctaveRange(available);
    var whiteKeys: seq<string> := [];
    var blackKeys: seq<Option<string>> := [];
    if range.Some? {
      var minOctave, maxOctave := range.value.0, range.value.1;
      var lastIndex := IndexOf(WhiteKeyPattern, NoteName(available[|available| - 1]));
      ghost var k := LastOctaveBlackKeys(available);
      var octave := minOctave;
      while octave <= maxOctave
        invariant minOctave <= octave <= maxOctave + 1
        invariant whiteKeys == PatternRun(WhiteKeyPattern, 7 * (octave - minOctave))
        invariant octave <= maxOctave ==> blackKeys == PatternRun(BlackKeyPattern, 7 * (octave - minOctave))
        invariant octave > maxOctave ==> blackKeys == PatternRun(BlackKeyPattern, 7 * (maxOctave - minOctave) + k)
      {
        whiteKeys, blackKeys := PushOctave(whiteKeys, blackKeys, octave == maxOctave, lastIndex);
        PatternRunExtend(WhiteKeyPattern, octave - minOctave, 7);
        PatternRunExtend(BlackKeyPattern, octave - minOctave, if octave == maxOctave then k else 7);
        octave := octave + 1;
      }
    }
    layout := Layout(range, whiteKeys, blackKeys);
  }

  /** `isNoteAvailable`: the joined name is one of the available notes. */
  predicate IsNoteAvailable(available: seq<string>, note: string, octave: string)
    ensures IsNoteAvailable(available, note, octave) <==> exists i :: 0 <= i < |available| && available[i] == note + octave
  {
    note + octave in available
  }

  /** `getNoteName`: the letter and the octave of its position, `minOctave + floor(index / 7)`. */
  function GetNoteName(note: string, index: nat, minOctave: int): (name: string)
    ensures |name| > |note| && name[..|note|] == note
    ensures 0 <= minOctave + index / 7 < 10 ==> name == note + [DigitChar(minOctave + index / 7)]
  {
    note + IntToString(minOctave + index / 7)
  }

  /** What a key button shows and does. */
  datatype KeyView = KeyView(name: string, caption: string, enabled: bool, highlighted: bool)

  /** The white key at `index`: named by its letter and octave, enabled iff that name is available. */
  function WhiteKeyView(available: seq<string>, highlightedNote: Option<string>, layout: Layout, index: nat): (key: KeyView)
    requires layout.range.Some? && index < |layout.whiteKeys|
    ensures key.name == GetNoteName(layout.whiteKeys[index], index, layout.range.value.0)
    ensures key.caption == key.name
    ensures key.enabled <==> key.name in available
    ensures key.highlighted <==> highlightedNote == Some(key.name)
  {
    var note := layout.whiteKeys[index];
    var fullNote := GetNoteName(note, index, layout.range.value.0);
    var octave := IntToString(index / 7 + layout.range.value.0);
    KeyView(fullNote, note + octave, IsNoteAvailable(available, note, octave), highlightedNote == Some(fullNote))
  }

  /** The black key drawn beside white key `index`, if its pattern slot has one; labelled without the octave. */
  function BlackKeyView(available: seq<string>, highlightedNote: Option<string>, layout: Layout, index: nat): (key: Option<KeyView>)
    requires layout.range.Some?
    ensures key.Some? <==> BlackKeyPattern[index % 7].Some?
    ensures key.Some? ==> key.value.name == BlackKeyPattern[index % 7].value + IntToString(index / 7 + layout.range.value.0)
    ensures key.Some? ==> key.value.caption == BlackKeyPattern[index % 7].value
    ensures key.Some? ==> (key.value.enabled <==> key.value.name in available)
    ensures key.Some? ==> (key.value.highlighted <==> highlightedNote == Some(key.value.name))
  {
    match BlackKeyPattern[index % 7]
    case None => None
    case Some(sharp) =>
      var octave := IntToString(index / 7 + layout.range.value.0);
      Some(KeyView(sharp + octave, sharp, IsNoteAvailable(available, sharp, octave),
                   highlightedNote == Some(sharp + octave)))
  }

  /** Five black keys per octave, at C, D, F, G and A, each the sharp of its white key. */
  lemma BlackKeySlots()
    ensures forall i :: 0 <= i < 7 ==> (BlackKeyPattern[i].Some? <==> i != 2 && i != 6)
    ensures forall i :: 0 <= i < 7 && BlackKeyPattern[i].Some? ==> BlackKeyPattern[i].value == WhiteKeyPattern[i] + "#"
    ensures |set i | 0 <= i < 7 && BlackKeyPattern[i].Some?| == 5
  {
    assert (set i | 0 <= i < 7 && BlackKeyPattern[i].Some?) == {0, 1, 3, 4, 5};
  }

  /** `handleKeyPress`: the note goes on to `onNoteSelect` (the result) only when it is available. */
  function HandleKeyPress(available: seq<string>, note: string): (forwarded: Option<string>)
    ensures forwarded.Some? <==> note in available
    ensures forwarded.Some? ==> forwarded.value == note
  {
    SplitRecombines(note);
    if IsNoteAvailable(available, NoteName(note), OctaveText(note)) then Some(note) else None
  }

  /** Pressing an enabled key forwards exactly its name; a disabled one forwards nothing. */
  lemma PressForwardsKeyName(available: seq<string>, highlightedNote: Option<string>, layout: Layout, index: nat)
    requires layout.range.Some? && index < |layout.whiteKeys|
    ensures var key := WhiteKeyView(available, highlightedNote, layout, index);
      HandleKeyPress(available, key.name) == if key.enabled then Some(key.name) else None
  {
  }

  /** A single digit prints as that digit. */
  lemma SingleDigitText(d: nat)
    requires d < 10
    ensures IntToString(d) == [DigitChar(d)]
  {
  }

  /** The letters C..B are found in the white-key pattern. */
  lemma LetterInPattern(c: char)
    requires c in "CDEFGAB"
    ensures [c] in WhiteKeyPattern
  {
    if c == 'C' { assert WhiteKeyPattern[0] == [c]; }
    else if c == 'D' { assert WhiteKeyPattern[1] == [c]; }
    else if c == 'E' { assert WhiteKeyPattern[2] == [c]; }
    else if c == 'F' { assert WhiteKeyPattern[3] == [c]; }
    else if c == 'G' { assert WhiteKeyPattern[4] == [c]; }
    else if c == 'A' { assert WhiteKeyPattern[5] == [c]; }
    else { assert c == 'B' && WhiteKeyPattern[6] == [c]; }
  }

  /** A natural pitch such as "E5" is its letter followed by the text of its octave digit. */
  lemma NaturalPitchSpelling(pitch: string)
    requires |pitch| == 2 && '0' <= pitch[1] <= '9'
    ensures [pitch[0]] + IntToString(pitch[1] as int - '0' as int) == pitch
  {
    SingleDigitText(pitch[1] as int - '0' as int);
    assert pitch == [pitch[0]] + [pitch[1]];
  }

  /** The key at `index` is named `pitch` when it shows the pitch's letter in the pitch's octave. */
  lemma KeyOfPitch(pitch: string, index: nat, minOctave: nat)
    requires |pitch| == 2 && '0' <= pitch[1] <= '9'
    requires minOctave + index / 7 == pitch[1] as int - '0' as int
    ensures GetNoteName([pitch[0]], index, minOctave) == pitch
  {
    NaturalPitchSpelling(pitch);
  }

  /** The white-key index of a natural pitch such as "E5" on a keyboard starting at octave `minOctave`. */
  function WhiteKeyIndexFor(pitch: string, minOctave: nat): (index: nat)
    requires |pitch| == 2 && pitch[0] in "CDEFGAB" && '0' <= pitch[1] <= '9'
    requires minOctave <= pitch[1] as int - '0' as int
    ensures index / 7 == pitch[1] as int - '0' as int - minOctave
    ensures WhiteKeyPattern[index % 7] == [pitch[0]]
    ensures GetNoteName(WhiteKeyPattern[index % 7], index, minOctave) == pitch
  {
    var octave: nat := pitch[1] as int - '0' as int;
    LetterInPattern(pitch[0]);
    var letter := IndexOf(WhiteKeyPattern, [pitch[0]]);
    var index := 7 * (octave - minOctave) + letter;
    ModSeven(octave - minOctave, letter);
    KeyOfPitch(pitch, index, minOctave);
    index
  }

  /** Every pool pitch is in octave 4 or 5. */
  lemma PoolPitchOctave(l: nat, p: string)
    requires l < |NotesPerLevel| && p in NotesPerLevel[l]
    ensures OctaveOf(p) == Some(4) || OctaveOf(p) == Some(5)
  {
    PoolPitchShape(l, p);
  }

  /** When every octave lies in lo..hi and both ends occur, the range is exactly (lo, hi). */
  lemma OctaveRangeFromBounds(notes: seq<string>, lo: nat, hi: nat, iLo: nat, iHi: nat)
    requires iLo < |notes| && iHi < |notes|
    requires forall i :: 0 <= i < |notes| ==> OctaveOf(notes[i]).Some? && lo <= OctaveOf(notes[i]).value <= hi
    requires OctaveOf(notes[iLo]) == Some(lo) && OctaveOf(notes[iHi]) == Some(hi)
    ensures OctaveRange(notes) == Some((lo, hi))
  {
    var r := OctaveRange(notes);
    assert r.Some?;
    var j :| 0 <= j < |notes| && OctaveOf(notes[j]).value == r.value.0;
    var k :| 0 <= k < |notes| && OctaveOf(notes[k]).value == r.value.1;
    assert r.value.0 <= lo && r.value.1 >= hi;
    assert r.value.0 == lo && r.value.1 == hi;
    assert r.value == (lo, hi);
  }

  /** The octaves of a pool run from 4 to 5. */
  lemma CatalogOctaveRange(l: nat)
    requires l < |NotesPerLevel|
    ensures OctaveRange(NotesPerLevel[l]) == Some((4, 5))
  {
    var pool := NotesPerLevel[l];
    PoolsWellFormed();
    forall i | 0 <= i < |pool|
      ensures OctaveOf(pool[i]).Some? && 4 <= OctaveOf(pool[i]).value <= 5
    {
      PoolPitchOctave(l, pool[i]);
    }
    assert OctaveOf(pool[0]) == Some(4) by { assert pool[0] == "C4"; }
    assert OctaveOf(pool[10]) == Some(5) by { assert pool[10] == "F5"; }
    OctaveRangeFromBounds(pool, 4, 5, 0, 10);
  }

  /** A pool ends with F5, and F is the fourth letter, so the top octave gets the three black keys C#, D# and its empty E slot. */
  lemma CatalogLastOctaveBlackKeys(l: nat)
    requires l < |NotesPerLevel|
    ensures LastOctaveBlackKeys(NotesPerLevel[l]) == 3
  {
    var pool := NotesPerLevel[l];
    PoolsWellFormed();
    assert pool[|pool| - 1] == "F5";
    assert NoteName("F5") == "F";
    assert WhiteKeyPattern[..3] == ["C", "D", "E"];
    assert IndexOf(WhiteKeyPattern, "F") == 3;
  }

  /** For the catalogue's pools the keyboard spans octaves 4 and 5: fourteen white keys and ten black ones. */
  lemma KeyboardOfCatalogPool(l: nat)
    requires l < |NotesPerLevel|
    ensures Keyboard(NotesPerLevel[l]).range == Some((4, 5))
    ensures |Keyboard(NotesPerLevel[l]).whiteKeys| == 14
    ensures |Keyboard(NotesPerLevel[l]).blackKeys| == 10
  {
    CatalogOctaveRange(l);
    CatalogLastOctaveBlackKeys(l);
  }
}

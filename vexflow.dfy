/**
 * The VexFlow rendering of the current note: the key string handed to the
 * engraver, whether a sharp accidental is attached, the hint colouring, and
 * the hint caption under the staff.
 */
module VexFlowNoteDisplay {
  import opened Prelude
  import opened Game

  /** The note handed to VexFlow: its key such as "c/4", a sharp accidental or not, and the pink hint style or not. */
  datatype StaveNoteSpec = StaveNoteSpec(key: string, sharp: bool, hintStyle: bool)

  /** The two replaces turn a name followed by the digit 4 or 5 into the lower-cased name, "/", and the digit. */
  lemma SlashBeforeOctave(name: string, digit: char)
    requires '4' !in name && '5' !in name && (digit == '4' || digit == '5')
    ensures ReplaceFirst(ReplaceFirst(ToLower(name + [digit]), '4', "/4"), '5', "/5") == ToLower(name) + ['/', digit]
  {
    var lower := ToLower(name);
    ToLowerKeepsNonLetters(name, '4');
    ToLowerKeepsNonLetters(name, '5');
    ToLowerAppend(name, [digit]);
    assert ToLower([digit]) == [digit];
    assert ToLower(name + [digit]) == lower + [digit];
    ReplaceFirstAtEnd(lower, digit, '4', "/4");
    var afterFour := lower + (if digit == '4' then "/4" else [digit]);
    assert ReplaceFirst(lower + [digit], '4', "/4") == afterFour;
    if digit == '4' {
      assert afterFour == (lower + ['/']) + [digit];
      assert '5' !in lower + ['/'];
      ReplaceFirstAtEnd(lower + ['/'], digit, '5', "/5");
    } else {
      ReplaceFirstAtEnd(lower, digit, '5', "/5");
      assert lower + "/5" == lower + ['/', digit];
    }
  }

  /**
   * The VexFlow key for a pitch: lower-cased, then "/" inserted before the
   * first '4' and the first '5'. The source has a branch for pitches with
   * '#' and one without, and both compute this same string.
   */
  function VexKey(pitch: string): (key: string)
    ensures |key| == |pitch| + (if '4' in pitch then 1 else 0) + (if '5' in pitch then 1 else 0)
    ensures '4' !in pitch && '5' !in pitch ==> key == ToLower(pitch)
    ensures EndsInOctaveDigit(pitch) ==> key == ToLower(pitch[..|pitch| - 1]) + ['/', pitch[|pitch| - 1]]
  {
    ToLowerKeepsNonLetters(pitch, '4');
    ToLowerKeepsNonLetters(pitch, '5');
    ReplaceFirstKeepsOthers(ToLower(pitch), '4', "/4", '5');
    var key := ReplaceFirst(ReplaceFirst(ToLower(pitch), '4', "/4"), '5', "/5");
    if EndsInOctaveDigit(pitch) then
      assert pitch == pitch[..|pitch| - 1] + [pitch[|pitch| - 1]];
      SlashBeforeOctave(pitch[..|pitch| - 1], pitch[|pitch| - 1]);
      key
    else
      key
  }

  /** A name followed by the octave digit 4 or 5 becomes the lower-cased name, "/", and the digit. */
  lemma VexKeyOfNameAndOctave(name: string, digit: char)
    requires '4' !in name && '5' !in name && (digit == '4' || digit == '5')
    ensures VexKey(name + [digit]) == ToLower(name) + ['/', digit]
  {
    var pitch := name + [digit];
    assert pitch[..|pitch| - 1] == name && pitch[|pitch| - 1] == digit;
    assert EndsInOctaveDigit(pitch);
  }

  /** The examples the source's comments give: C4 becomes c/4 and C#4 becomes c#/4. */
  lemma VexKeyExamples()
    ensures VexKey("C4") == "c/4"
    ensures VexKey("C#4") == "c#/4"
  {
    assert "C4" == "C" + ['4'] && "C#4" == "C#" + ['4'];
    VexKeyOfNameAndOctave("C", '4');
    VexKeyOfNameAndOctave("C#", '4');
    assert ToLower("C") == "c" && ToLower("C#") == "c#";
  }

  /** A pitch without the digits 4 and 5 only loses its capitals: no "/" is inserted. */
  lemma VexKeyWithoutOctaveDigit(pitch: string)
    requires '4' !in pitch && '5' !in pitch
    ensures VexKey(pitch) == ToLower(pitch)
  {
    var lower := ToLower(pitch);
    forall i | 0 <= i < |lower|
      ensures lower[i] != '4' && lower[i] != '5'
    {
      assert lower[i] == LowerChar(pitch[i]);
    }
  }

  /** A pool pitch such as "E5" is engraved at "e/5". */
  lemma PoolVexKey(l: nat, p: string)
    requires l < |NotesPerLevel| && p in NotesPerLevel[l]
    ensures |p| == 2 && 'A' <= p[0] <= 'Z'
    ensures VexKey(p) == [LowerChar(p[0]), '/', p[1]]
  {
    PoolPitchShape(l, p);
    assert p == [p[0]] + [p[1]];
    VexKeyOfNameAndOctave([p[0]], p[1]);
    assert ToLower([p[0]]) == [LowerChar(p[0])];
  }

  /** Two capital letters that lower-case alike are the same letter. */
  lemma LowerCharInjective(c: char, d: char)
    requires 'A' <= c <= 'Z' && 'A' <= d <= 'Z' && LowerChar(c) == LowerChar(d)
    ensures c == d
  {
  }

  /** Keys of the form "x/d" tell their pitches apart when the pitches are a capital letter and a digit. */
  lemma LetterDigitKeysDistinct(p: string, q: string)
    requires |p| == 2 && |q| == 2 && 'A' <= p[0] <= 'Z' && 'A' <= q[0] <= 'Z'
    requires [LowerChar(p[0]), '/', p[1]] == [LowerChar(q[0]), '/', q[1]]
    ensures p == q
  {
    LowerCharInjective(p[0], q[0]);
    assert p == [p[0], p[1]] && q == [q[0], q[1]];
  }

  /** Distinct pool pitches get distinct VexFlow keys, so the engraver shows the note that was asked. */
  lemma PoolVexKeysDistinct(l: nat, p: string, q: string)
    requires l < |NotesPerLevel| && p in NotesPerLevel[l] && q in NotesPerLevel[l]
    ensures VexKey(p) == VexKey(q) <==> p == q
  {
    PoolVexKey(l, p);
    PoolVexKey(l, q);
    if VexKey(p) == VexKey(q) {
      LetterDigitKeysDistinct(p, q);
    }
  }

  /** The stave note for the current note, None when there is none to draw. */
  function StaveNoteFor(note: Option<Note>, showHint: bool): (spec: Option<StaveNoteSpec>)
    ensures spec.Some? <==> note.Some?
    ensures note.Some? ==> spec.value.key == VexKey(note.value.pitch)
    ensures note.Some? ==> (spec.value.sharp <==> '#' in note.value.pitch)
    ensures note.Some? ==> (spec.value.hintStyle <==> showHint)
  {
    match note
    case None => None
    case Some(n) => Some(StaveNoteSpec(VexKey(n.pitch), '#' in n.pitch, showHint))
  }

  /** Turning the hint on or off changes only the colouring, never the key or the accidental. */
  lemma HintChangesOnlyStyle(note: Note, a: bool, b: bool)
    ensures StaveNoteFor(Some(note), a).value.key == StaveNoteFor(Some(note), b).value.key
    ensures StaveNoteFor(Some(note), a).value.sharp == StaveNoteFor(Some(note), b).value.sharp
    ensures StaveNoteFor(Some(note), a) == StaveNoteFor(Some(note), b) <==> a == b
  {
  }

  /** A pool note is engraved at "letter/octave" with no sharp accidental. */
  lemma PoolStaveNote(l: nat, p: string, position: int, showHint: bool)
    requires l < |NotesPerLevel| && p in NotesPerLevel[l]
    ensures |p| == 2
    ensures var spec := StaveNoteFor(Some(Note(p, position, None)), showHint).value;
      && spec.key == [LowerChar(p[0]), '/', p[1]]
      && !spec.sharp
  {
    PoolVexKey(l, p);
    NoPoolPitchIsSharp();
  }

  /** The sharp sign as the source file spells it: the UTF-8 bytes of U+266F read back as Windows-1252. */
  const MisencodedSharp: string := "\U{00E2}\U{2122}\U{00AF}"

  /** The hint caption as written: the first '#' becomes the three mis-encoded characters. */
  function HintTextAsWritten(pitch: string): (text: string)
    ensures |text| == |"Hint: This note is "| + |pitch| + (if '#' in pitch then 2 else 0)
  {
    "Hint: This note is " + ReplaceFirst(pitch, '#', MisencodedSharp)
  }

  /** The caption as written shows "Câ™¯4" for C#4, two characters longer than the pitch, with no sharp sign. */
  lemma HintTextAsWrittenShowsMojibake()
    ensures HintTextAsWritten("C#4") == "Hint: This note is C\U{00E2}\U{2122}\U{00AF}4"
    ensures |HintTextAsWritten("C#4")| == |"Hint: This note is "| + |"C#4"| + 2
    ensures '\U{266F}' !in HintTextAsWritten("C#4")
  {
    ReplaceFirstSkipsPrefix("C", "#4", '#', MisencodedSharp);
    assert FirstIndex("#4", '#') == Some(0);
    assert "C" + (MisencodedSharp + "4") == "C\U{00E2}\U{2122}\U{00AF}4";
  }

  /** The caption as evidently intended: the first '#' becomes the sharp sign U+266F. */
  function HintText(pitch: string): (text: string)
    ensures |text| == |"Hint: This note is "| + |pitch|
    ensures text[..|"Hint: This note is "|] == "Hint: This note is "
  {
    "Hint: This note is " + ReplaceFirst(pitch, '#', "\U{266F}")
  }

  /**
   * The intended caption spells the pitch glyph for glyph: the same length,
   * the first '#' shown as the sharp sign and every other character kept.
   */
  lemma HintTextSpellsPitch(pitch: string)
    ensures var prefix := "Hint: This note is ";
      var text := HintText(pitch);
      && |text| == |prefix| + |pitch|
      && text[..|prefix|] == prefix
      && forall i :: 0 <= i < |pitch| ==>
           text[|prefix| + i] == (if FirstIndex(pitch, '#') == Some(i) then '\U{266F}' else pitch[i])
  {
    var prefix := "Hint: This note is ";
    var text := HintText(pitch);
    match FirstIndex(pitch, '#')
    case None =>
    case Some(k) =>
      var replaced := pitch[..k] + "\U{266F}" + pitch[k + 1..];
      assert text == prefix + replaced;
      forall i | 0 <= i < |pitch|
        ensures text[|prefix| + i] == (if k == i then '\U{266F}' else pitch[i])
      {
        if i < k {
          assert replaced[i] == pitch[..k][i];
        } else if i > k {
          assert replaced[i] == pitch[k + 1..][i - k - 1];
        }
      }
  }

  /** The intended caption of C#4 reads "C♯4"; a pitch without '#' is shown unchanged. */
  lemma HintTextExamples(pitch: string)
    ensures HintText("C#4") == "Hint: This note is C\U{266F}4"
    ensures '#' !in pitch ==> HintText(pitch) == "Hint: This note is " + pitch
  {
    ReplaceFirstSkipsPrefix("C", "#4", '#', "\U{266F}");
    assert FirstIndex("#4", '#') == Some(0);
    assert "C" + ("\U{266F}" + "4") == "C\U{266F}4";
  }

  /** The hint caption under the staff, shown only with a note and the hint on. */
  function HintCaption(note: Option<Note>, showHint: bool): (caption: Option<string>)
    ensures caption.Some? <==> note.Some? && showHint
    ensures caption.Some? ==> caption.value == HintText(note.value.pitch)
  {
    if showHint && note.Some? then Some(HintText(note.value.pitch)) else None
  }
}

/**
 * The hand-drawn staff: five staff lines, the note head placed by its staff
 * position, a ledger line for the lowest position, the accidental glyph, and
 * the hint caption that names the note.
 */
module NoteDisplay {
  import opened Prelude
  import opened Game

  /** The note as drawn: its `top` offset in pixels, whether it is styled as a hint, the ledger line and the accidental. */
  datatype NoteView = NoteView(top: int, hinted: bool, ledgerLine: bool, accidentalGlyph: Option<char>)

  /** The whole display: how many staff lines, the drawn note if any, and the hint caption if any. */
  datatype StaffView = StaffView(staffLines: nat, note: Option<NoteView>, hint: Option<string>)

  const StaffLineCount: nat := 5

  /** `getNotePosition`: the base offset 20 plus 20 pixels per staff step, minus 20 to centre the head. */
  function NotePosition(staffPosition: int): (top: int)
    ensures top == 20 * staffPosition
  {
    20 + staffPosition * 20 - 20
  }

  /** Each staff step moves the head 20 pixels down the screen, so a higher pitch is drawn lower. */
  lemma NotePositionSteps(p: int, q: int)
    ensures NotePosition(q) - NotePosition(p) == 20 * (q - p)
    ensures p < q ==> NotePosition(p) < NotePosition(q)
    ensures NotePosition(p) == NotePosition(q) <==> p == q
  {
  }

  /** Only the lowest staff position, C4 in the table, gets a ledger line. */
  predicate HasLedgerLine(staffPosition: int)
    ensures HasLedgerLine(staffPosition) <==> "C4" in StaffPositions && staffPosition == StaffPositions["C4"]
  {
    staffPosition == 0
  }

  /** The glyph drawn after the head: a sharp sign for a sharp, a flat sign for a flat, nothing otherwise. */
  function AccidentalGlyph(accidental: Option<Accidental>): (glyph: Option<char>)
    ensures glyph.Some? <==> accidental.Some?
    ensures accidental == Some(Sharp) ==> glyph == Some('\U{266F}')
    ensures accidental == Some(Flat) ==> glyph == Some('\U{266D}')
  {
    match accidental
    case Some(Sharp) => Some('\U{266F}')
    case Some(Flat) => Some('\U{266D}')
    case None => None
  }

  /** The two accidentals get different glyphs, so the glyph tells which one the note carries. */
  lemma AccidentalGlyphInjective(a: Option<Accidental>, b: Option<Accidental>)
    ensures AccidentalGlyph(a) == AccidentalGlyph(b) <==> a == b
  {
  }

  /** The caption's note name: the first '4' and then the first '5' removed, plus " (high)" when the pitch has a '5'. */
  function HintLabel(pitch: string): (name: string)
    ensures '4' !in pitch && '5' !in pitch ==> name == pitch
    ensures |name| == |pitch| - (if '4' in pitch then 1 else 0) - (if '5' in pitch then 1 else 0) + (if '5' in pitch then 7 else 0)
    ensures EndsInOctaveDigit(pitch) ==> name == pitch[..|pitch| - 1] + (if pitch[|pitch| - 1] == '5' then " (high)" else "")
  {
    ReplaceFirstKeepsOthers(pitch, '4', "", '5');
    var name := ReplaceFirst(ReplaceFirst(pitch, '4', ""), '5', "") + (if '5' in pitch then " (high)" else "");
    if EndsInOctaveDigit(pitch) then
      assert pitch == pitch[..|pitch| - 1] + [pitch[|pitch| - 1]];
      OctaveDigitDropped(pitch[..|pitch| - 1], pitch[|pitch| - 1]);
      name
    else
      name
  }

  /** The two replaces remove the one octave digit that follows a name free of 4 and 5. */
  lemma OctaveDigitDropped(stem: string, digit: char)
    requires '4' !in stem && '5' !in stem && (digit == '4' || digit == '5')
    ensures ReplaceFirst(ReplaceFirst(stem + [digit], '4', ""), '5', "") == stem
    ensures '5' in stem + [digit] <==> digit == '5'
  {
    ReplaceFirstAtEnd(stem, digit, '4', "");
    if digit == '4' {
      assert stem + "" == stem;
      assert (stem + [digit])[|stem|] == '4';
    } else {
      ReplaceFirstAtEnd(stem, digit, '5', "");
      assert stem + "" == stem;
    }
  }

  /** A letter followed by an octave digit 4 or 5 is named by the letter, with " (high)" for octave 5. */
  lemma HintLabelOfNatural(letter: char, digit: char)
    requires letter != '4' && letter != '5' && (digit == '4' || digit == '5')
    ensures HintLabel([letter, digit]) == [letter] + (if digit == '5' then " (high)" else "")
  {
    var p := [letter, digit];
    assert p == [letter] + [digit];
    ReplaceFirstAtEnd([letter], digit, '4', "");
    if digit == '4' {
      ReplaceFirstSingle(letter, '5', "");
      assert '5' !in p;
    } else {
      ReplaceFirstAtEnd([letter], digit, '5', "");
      assert p[1] == '5';
    }
  }

  /** Every pool pitch gets a caption that is its letter, marked " (high)" exactly in octave 5. */
  lemma PoolHintLabel(l: nat, p: string)
    requires l < |NotesPerLevel| && p in NotesPerLevel[l]
    ensures HintLabel(p) == [p[0]] + (if p[1] == '5' then " (high)" else "")
  {
    PoolPitchShape(l, p);
    assert p == [p[0], p[1]];
    HintLabelOfNatural(p[0], p[1]);
  }

  /** Two pool pitches never share a caption, so the hint names the note unambiguously. */
  lemma PoolHintLabelsDistinct(l: nat, p: string, q: string)
    requires l < |NotesPerLevel| && p in NotesPerLevel[l] && q in NotesPerLevel[l]
    ensures HintLabel(p) == HintLabel(q) <==> p == q
  {
    PoolHintLabel(l, p);
    PoolHintLabel(l, q);
    PoolPitchShape(l, p);
    PoolPitchShape(l, q);
    if HintLabel(p) == HintLabel(q) {
      assert p[0] == HintLabel(p)[0] == HintLabel(q)[0] == q[0];
      assert |HintLabel(p)| == (if p[1] == '5' then 8 else 1);
      assert |HintLabel(q)| == (if q[1] == '5' then 8 else 1);
      assert p == [p[0], p[1]] && q == [q[0], q[1]];
    }
  }

  /**
   * What the component draws for `note` and `showHint`: always the five
   * staff lines; with a note, its head, ledger line and accidental; with a
   * note and the hint on, the caption.
   */
  function Render(note: Option<Note>, showHint: bool): (view: StaffView)
    ensures view.staffLines == StaffLineCount
    ensures view.note.Some? <==> note.Some?
    ensures view.hint.Some? <==> note.Some? && showHint
    ensures note.Some? ==> view.note.value.hinted == showHint
    ensures note.Some? ==> (view.note.value.ledgerLine <==> note.value.staffPosition == 0)
    ensures note.Some? ==> view.note.value.accidentalGlyph == AccidentalGlyph(note.value.accidental)
    ensures note.Some? ==> view.note.value.top == NotePosition(note.value.staffPosition)
    ensures view.hint.Some? ==> view.hint.value == "Hint: This note is " + HintLabel(note.value.pitch)
  {
    match note
    case None => StaffView(StaffLineCount, None, None)
    case Some(n) =>
      StaffView(
        StaffLineCount,
        Some(NoteView(NotePosition(n.staffPosition), showHint, HasLedgerLine(n.staffPosition), AccidentalGlyph(n.accidental))),
        if showHint then Some("Hint: This note is " + HintLabel(n.pitch)) else None)
  }

  /** For a pool note, the head lies between 0 and 200 pixels, and the ledger line is drawn exactly for C4. */
  lemma PoolNoteDrawing(l: nat, p: string, showHint: bool)
    requires l < |NotesPerLevel| && p in NotesPerLevel[l]
    ensures p in StaffPositions
    ensures var view := Render(Some(Note(p, StaffPositions[p], None)), showHint).note.value;
      && 0 <= view.top <= 200
      && (view.ledgerLine <==> p == "C4")
      && view.accidentalGlyph.None?
  {
    PoolPitchesHaveStaffPositions();
    StaffPositionsInjective();
    assert StaffPositions["C4"] == 0;
  }
}

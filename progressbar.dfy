/**
 * The level's progress bar: the fill percentage `current / total * 100`
 * (a JavaScript number, so a zero total gives NaN or Infinity), the pig shown
 * once the fill reaches 10%, and the "Progress: current / total" caption.
 */
module ProgressBar {
  import opened Prelude
  import opened Game

  /** `x * 100` on a JavaScript number: special values stay as they are. */
  function Times100(x: JsNumber): (y: JsNumber)
    ensures x.Finite? <==> y.Finite?
    ensures x.Finite? ==> y.value == x.value * 100.0
    ensures !x.Finite? ==> y == x
  {
    match x
    case Finite(v) => Finite(v * 100.0)
    case _ => x
  }

  /** The fill width in percent. */
  function Percentage(current: int, total: int): (p: JsNumber)
    ensures total != 0 ==> p.Finite? && p.value == current as real / total as real * 100.0
    ensures total == 0 ==> (p.NaN? <==> current == 0)
    ensures total == 0 && current > 0 ==> p.PositiveInfinity?
    ensures total == 0 && current < 0 ==> p.NegativeInfinity?
  {
    Times100(Divide(current, total))
  }

  /** Whether the pig rides on the bar: `percentage >= 10`, false for NaN. */
  predicate PigShown(current: int, total: int)
    ensures Percentage(current, total).Finite? ==> (PigShown(current, total) <==> Percentage(current, total).value >= 10.0)
    ensures Percentage(current, total).NaN? ==> !PigShown(current, total)
  {
    AtLeast(Percentage(current, total), 10.0)
  }

  /**
   * The pig appears once a tenth of the total is reached: for a positive
   * total exactly when 10 * current >= total, for a negative total exactly
   * when 10 * current <= total, and for a zero total exactly when current
   * is positive (the fill is then Infinity, or NaN for 0 / 0).
   */
  lemma PigThreshold(current: int, total: int)
    ensures total > 0 ==> (PigShown(current, total) <==> 10 * current >= total)
    ensures total < 0 ==> (PigShown(current, total) <==> 10 * current <= total)
    ensures total == 0 ==> (PigShown(current, total) <==> current > 0)
  {
    if total != 0 {
      var q := current as real / total as real;
      assert q * total as real == current as real;
      if total > 0 {
        assert q * 100.0 >= 10.0 <==> q * total as real * 10.0 >= total as real;
      } else {
        assert q * 100.0 >= 10.0 <==> q * total as real * 10.0 <= total as real;
      }
    }
  }

  /** The fill is a finite percentage between 0 and 100 while 0 <= current <= total and total > 0, and 100 at the end. */
  lemma PercentageBounds(current: int, total: int)
    requires 0 <= current <= total && total > 0
    ensures Percentage(current, total).Finite?
    ensures 0.0 <= Percentage(current, total).value <= 100.0
    ensures current == total ==> Percentage(current, total).value == 100.0
  {
    var q := current as real / total as real;
    assert q * total as real == current as real;
    assert 0.0 <= q <= 1.0;
  }

  /** The caption above the bar. */
  function Caption(current: int, total: int): (caption: string)
    ensures |caption| > |"Progress: "| + 3
    ensures caption[..|"Progress: "|] == "Progress: "
    ensures caption[|"Progress: "|..] == IntToString(current) + " / " + IntToString(total)
  {
    "Progress: " + IntToString(current) + " / " + IntToString(total)
  }

  /** Two space-free texts joined by " / " can be split back apart in only one way. */
  lemma SplitAtSeparator(u: string, v: string, u': string, v': string)
    requires ' ' !in u && ' ' !in u'
    requires u + " / " + v == u' + " / " + v'
    ensures u == u' && v == v'
  {
    var w := u + " / " + v;
    var w' := u' + " / " + v';
    // Both |u| and |u'| are the index of the first space in w.
    assert forall i :: 0 <= i < |u| ==> w[i] != ' ';
    assert forall i :: 0 <= i < |u'| ==> w'[i] != ' ';
    assert w[|u|] == ' ' && w'[|u'|] == ' ';
    assert |u| == |u'|;
    assert u == w[..|u|] == u';
    assert v == w[|u| + 3..] == v';
  }

  /** The caption gives both numbers back: two captions are equal only for equal progress and total. */
  lemma CaptionDeterminesNumbers(current: int, total: int, current': int, total': int)
    ensures Caption(current, total) == Caption(current', total') <==> current == current' && total == total'
  {
    if Caption(current, total) == Caption(current', total') {
      var a, b := IntToString(current), IntToString(total);
      var a', b' := IntToString(current'), IntToString(total');
      assert forall i :: 0 <= i < |a| ==> a[i] != ' ';
      assert forall i :: 0 <= i < |a'| ==> a'[i] != ' ';
      var prefix := "Progress: ";
      assert a + " / " + b == Caption(current, total)[|prefix|..];
      assert a' + " / " + b' == Caption(current', total')[|prefix|..];
      SplitAtSeparator(a, b, a', b');
      IntToStringInjective(current, current');
      IntToStringInjective(total, total');
    }
  }

  /** The session's bar: notes completed out of notes in the level. */
  function SessionPercentage(g: GameState): JsNumber
  {
    Percentage(g.notesCompleted, g.notesInLevel)
  }

  /** In a ten-note level the pig appears with the first note completed and never before it. */
  lemma PigAfterFirstNote(g: GameState)
    requires g.notesInLevel == 10
    ensures AtLeast(SessionPercentage(g), 10.0) <==> g.notesCompleted >= 1
  {
    PigThreshold(g.notesCompleted, g.notesInLevel);
  }

  /** The caption of the fifth of ten notes, and the start of a level with the pig not yet shown. */
  lemma ProgressExamples()
    ensures Caption(5, 10) == "Progress: 5 / 10"
    ensures Percentage(5, 10) == Finite(50.0)
    ensures Percentage(0, 10) == Finite(0.0) && !PigShown(0, 10)
    ensures Percentage(1, 10) == Finite(10.0) && PigShown(1, 10)
    ensures Percentage(0, 0) == NaN && !PigShown(0, 0)
  {
    assert IntToString(5) == "5";
    assert NatToString(10) == NatToString(1) + [DigitChar(0)];
    assert IntToString(10) == "10";
  }
}

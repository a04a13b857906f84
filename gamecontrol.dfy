/**
 * The note-quiz session: drawing a note from the level's pool, judging the
 * player's answer, detecting the end of the level and computing its reward
 * tier ("oinks"). The session record lives in the App object; the
 * controller keeps the hint flag, the mascot's mood, the question's start
 * time and a trace of the sound cues it fired.
 */
module GameControl {
  import opened Prelude
  import opened Game
  import opened AppRoot
  import opened PianoKeyboard

  /** The pool for `level`; an index outside the table (level 0 before any choice, say) falls back to level 1's. */
  function ActivePool(level: int): (pool: seq<string>)
    ensures |pool| == 11
    ensures pool in NotesPerLevel
    ensures 1 <= level <= |NotesPerLevel| ==> pool == NotesPerLevel[level - 1]
    ensures !(1 <= level <= |NotesPerLevel|) ==> pool == NotesPerLevel[0]
  {
    PoolsWellFormed();
    if 1 <= level <= |NotesPerLevel| then NotesPerLevel[level - 1] else NotesPerLevel[0]
  }

  /** A note as the generator builds it from a pool pitch. */
  predicate IsPoolNote(n: Note, pool: seq<string>)
  {
    && n.pitch in pool
    && n.pitch in StaffPositions
    && n.staffPosition == StaffPositions[n.pitch]
    && n.accidental == (if '#' in n.pitch then Some(Sharp) else None)
  }

  /**
   * The note drawn for `level` when the random draw lands on index `choice`
   * (the source's `Math.floor(Math.random() * pool.length)`).
   */
  function GenerateRandomNote(level: int, choice: nat): (n: Note)
    requires choice < |ActivePool(level)|
    ensures IsPoolNote(n, ActivePool(level))
    ensures n.pitch == ActivePool(level)[choice]
  {
    var pool := ActivePool(level);
    var pitch := pool[choice];
    PoolPitchesHaveStaffPositions();
    Note(pitch, StaffPositions[pitch], if '#' in pitch then Some(Sharp) else None)
  }

  /** In this revision every level draws the same eleven naturals, so a drawn note sits at 0..10 with no accidental. */
  lemma GeneratedNoteIsNatural(level: int, choice: nat)
    requires choice < |ActivePool(level)|
    ensures GenerateRandomNote(level, choice).staffPosition == choice
    ensures 0 <= GenerateRandomNote(level, choice).staffPosition <= 10
    ensures GenerateRandomNote(level, choice).accidental == None
  {
    var pool := ActivePool(level);
    var l :| 0 <= l < |NotesPerLevel| && NotesPerLevel[l] == pool;
    PoolIndexIsStaffPosition(l, choice);
    NoPoolPitchIsSharp();
  }

  /** Every pitch of the pool is drawn by exactly one index, so a uniform index is a uniform pitch. */
  lemma GeneratorCoversPoolOnce(level: int, p: string)
    requires p in ActivePool(level)
    ensures exists choice :: 0 <= choice < |ActivePool(level)| && GenerateRandomNote(level, choice).pitch == p
    ensures forall c, d :: 0 <= c < d < |ActivePool(level)| ==>
      GenerateRandomNote(level, c).pitch != GenerateRandomNote(level, d).pitch
  {
    var pool := ActivePool(level);
    var k :| 0 <= k < |pool| && pool[k] == p;
    assert GenerateRandomNote(level, k).pitch == p;
    PoolsWellFormed();
  }

  /** The answer-speed bonus `max(0, 1000 - responseTime / 10)`. */
  function SpeedBonus(responseTime: int): (b: real)
    ensures 0.0 <= b <= 1000.0 || responseTime < 0
    ensures b >= 0.0
  {
    MaxReal(0.0, 1000.0 - responseTime as real / 10.0)
  }

  datatype Outcome = Ignored | Correct | Incorrect

  /** The new session record and hint flag after an answer, and how the answer was judged. */
  datatype Judgement = Judgement(state: GameState, showHint: bool, outcome: Outcome)

  /**
   * `handleNoteSelect`: without a current note nothing happens; the right
   * pitch scores, extends the streak, clears the strikes, the note and the
   * hint; a wrong pitch adds a strike, breaks the streak, and arms the hint
   * when it is the first miss since the last right answer and hints are on.
   */
  function Judge(g: GameState, showHint: bool, selected: string, responseTime: int): (j: Judgement)
    ensures j.outcome == Ignored <==> g.currentNote.None?
    ensures j.outcome == Correct <==> g.currentNote.Some? && selected == g.currentNote.value.pitch
    ensures j.outcome == Ignored ==> j.state == g && j.showHint == showHint
    ensures j.outcome == Correct ==>
      && j.state.streak == g.streak + 1 && j.state.strikes == 0
      && j.state.pigCoins == g.pigCoins + 10 && j.state.notesCompleted == g.notesCompleted + 1
      && j.state.currentNote.None? && !j.showHint
      && j.state.score >= g.score + 100.0 + (g.streak * 50) as real
    ensures j.outcome == Incorrect ==>
      && j.state.strikes == g.strikes + 1 && j.state.streak == 0
      && j.state.currentNote == g.currentNote && j.state.notesCompleted == g.notesCompleted
      && j.state.pigCoins == g.pigCoins && j.state.score == g.score
      && (j.showHint <==> showHint || (g.strikes == 0 && g.settings.showHints))
    ensures j.state.currentLevel == g.currentLevel && j.state.settings == g.settings
    ensures j.state.notesInLevel == g.notesInLevel && j.state.unlockedItems == g.unlockedItems
    ensures j.state.achievements == g.achievements
  {
    match g.currentNote
    case None => Judgement(g, showHint, Ignored)
    case Some(note) =>
      if selected == note.pitch then
        var points := 100.0 + SpeedBonus(responseTime) + (g.streak * 50) as real;
        Judgement(
          g.(score := g.score + points, streak := g.streak + 1, strikes := 0,
             pigCoins := g.pigCoins + 10, notesCompleted := g.notesCompleted + 1, currentNote := None),
          false, Correct)
      else
        Judgement(
          g.(strikes := g.strikes + 1, streak := 0),
          showHint || (g.strikes == 0 && g.settings.showHints),
          Incorrect)
  }

  /** The hint is armed at most once per run of misses: a second miss in a row never arms it. */
  lemma SecondMissNeverArmsHint(g: GameState, showHint: bool, first: string, second: string, t1: int, t2: int)
    requires g.currentNote.Some? && first != g.currentNote.value.pitch && second != g.currentNote.value.pitch
    ensures var j1 := Judge(g, showHint, first, t1);
            Judge(j1.state, j1.showHint, second, t2).showHint == j1.showHint
  {
    var j1 := Judge(g, showHint, first, t1);
    assert j1.state.strikes > 0;
  }

  /** A hint once armed stays armed until a right answer. */
  lemma HintPersistsUntilCorrect(g: GameState, selected: string, t: int)
    ensures Judge(g, true, selected, t).showHint <==> Judge(g, true, selected, t).outcome != Correct
  {
  }

  /** `accuracy = notesCompleted / (notesCompleted + 3 * strikes) * 100`; 0/0 gives NaN. */
  function Accuracy(notesCompleted: nat, strikes: nat): (a: JsNumber)
    ensures a.NaN? <==> notesCompleted + strikes * 3 == 0
    ensures !a.NaN? ==> a.Finite? && a.value * (notesCompleted + strikes * 3) as real == 100.0 * notesCompleted as real
  {
    match Divide(notesCompleted, notesCompleted + strikes * 3)
    case Finite(q) => Finite(q * 100.0)
    case other => other
  }

  /** `calculateOinks`: 3 at 90% accuracy or better, 2 at 70% or better, else 1. */
  function CalculateOinks(notesCompleted: nat, strikes: nat): (tier: int)
    ensures 1 <= tier <= 3
  {
    var accuracy := Accuracy(notesCompleted, strikes);
    if AtLeast(accuracy, 90.0) then 3 else if AtLeast(accuracy, 70.0) then 2 else 1
  }

  /** For a positive weight d, a * d >= k * d exactly when a >= k. */
  lemma ScaledComparison(a: real, d: real, k: real)
    requires d > 0.0
    ensures a >= k <==> a * d >= k * d
  {
    if a >= k {
      assert (a - k) * d >= 0.0;
    } else {
      assert (k - a) * d > 0.0;
    }
  }

  /** `accuracy >= pct` in whole numbers: 100 * n >= pct * (n + 3 * s). */
  lemma AccuracyAtLeast(n: nat, s: nat, pct: nat)
    requires n + s * 3 > 0
    ensures AtLeast(Accuracy(n, s), pct as real) <==> 100 * n >= pct * (n + s * 3)
  {
    var d := (n + s * 3) as real;
    var a := Accuracy(n, s).value;
    ScaledComparison(a, d, pct as real);
    assert a * d == 100.0 * n as real;
    assert (pct * (n + s * 3)) as real == pct as real * d;
  }

  /** The tiers in integers, for any run with an answer or a strike: 3 iff n >= 27s, 2 iff 7s <= n < 27s, else 1. */
  lemma OinksTiers(n: nat, s: nat)
    requires n + s * 3 > 0
    ensures CalculateOinks(n, s) == 3 <==> n >= 27 * s
    ensures CalculateOinks(n, s) == 2 <==> 7 * s <= n < 27 * s
    ensures CalculateOinks(n, s) == 1 <==> n < 7 * s
  {
    AccuracyAtLeast(n, s, 90);
    AccuracyAtLeast(n, s, 70);
  }

  /** A run with nothing answered and no strikes divides 0 by 0 and gets the lowest tier. */
  lemma EmptyRunGetsOneOink()
    ensures CalculateOinks(0, 0) == 1
  {
  }

  /** 10 right with no strike earns 3, with one strike 2, with five strikes 1. */
  lemma OinksExamples()
    ensures CalculateOinks(10, 0) == 3
    ensures CalculateOinks(10, 1) == 2
    ensures CalculateOinks(10, 5) == 1
  {
    OinksTiers(10, 0);
    OinksTiers(10, 1);
    OinksTiers(10, 5);
  }

  /** Extra strikes never raise the tier. */
  lemma MoreStrikesNeverRaiseTier(n: nat, s: nat, s': nat)
    requires s <= s'
    ensures CalculateOinks(n, s') <= CalculateOinks(n, s)
  {
    if n + s * 3 > 0 {
      OinksTiers(n, s);
      OinksTiers(n, s');
    } else {
      assert n == 0 && s == 0;
      if s' > 0 { OinksTiers(n, s'); }
    }
  }

  /** Right after a right answer the strikes are zero, so a level that ends there always earns 3 oinks. */
  lemma CorrectAnswerEarnsThree(g: GameState, showHint: bool, selected: string, t: int)
    requires Judge(g, showHint, selected, t).outcome == Correct
    ensures var s := Judge(g, showHint, selected, t).state;
            s.strikes == 0 && s.notesCompleted > 0 && CalculateOinks(s.notesCompleted, s.strikes) == 3
  {
    var s := Judge(g, showHint, selected, t).state;
    OinksTiers(s.notesCompleted, 0);
  }

  /** The strikes after one judged answer, as `handleNoteSelect` sets them: a right answer clears them, a miss adds one. */
  function StrikesAfterAnswer(strikes: nat, outcome: Outcome): nat
  {
    match outcome
    case Correct => 0
    case Incorrect => strikes + 1
    case Ignored => strikes
  }

  /** `Judge` moves the strikes exactly as `StrikesAfterAnswer` says. */
  lemma JudgeStrikes(g: GameState, showHint: bool, selected: string, t: int)
    ensures var j := Judge(g, showHint, selected, t);
      j.state.strikes == StrikesAfterAnswer(g.strikes, j.outcome)
  {
  }

  /** The strikes after a run of answers in a level that starts with none, as the code counts them. */
  function StrikesAfter(run: seq<Outcome>): (strikes: nat)
    ensures strikes <= CountOf(run, Incorrect)
    ensures |run| > 0 && run[|run| - 1] == Correct ==> strikes == 0
  {
    if |run| == 0 then 0 else StrikesAfterAnswer(StrikesAfter(run[..|run| - 1]), run[|run| - 1])
  }

  /** How many answers of the run had outcome `o`. */
  function CountOf(run: seq<Outcome>, o: Outcome): (n: nat)
    ensures n <= |run|
  {
    if |run| == 0 then 0 else CountOf(run[..|run| - 1], o) + (if run[|run| - 1] == o then 1 else 0)
  }

  /** Counting over two runs played one after the other adds up. */
  lemma {:induction false} CountOfAppend(a: seq<Outcome>, b: seq<Outcome>, o: Outcome)
    ensures CountOf(a + b, o) == CountOf(a, o) + CountOf(b, o)
    decreases |b|
  {
    if |b| > 0 {
      assert (a + b)[..|a + b| - 1] == a + b[..|b| - 1];
      CountOfAppend(a, b[..|b| - 1], o);
    } else {
      assert a + b == a;
    }
  }

  /** A run of `n` equal answers counts `n` of that outcome and none of any other. */
  lemma {:induction false} CountOfRepeated(n: nat, answer: Outcome, o: Outcome)
    ensures CountOf(seq(n, _ => answer), o) == if answer == o then n else 0
  {
    if n > 0 {
      assert seq(n, _ => answer)[..n - 1] == seq(n - 1, _ => answer);
      CountOfRepeated(n - 1, answer, o);
    }
  }

  /**
   * As written, a level can end only on a right answer, which clears the
   * strikes, so the tier handed to `onLevelComplete` is always 3 whatever
   * was missed before.
   */
  lemma AsWrittenLevelAlwaysEarnsThree(run: seq<Outcome>)
    requires |run| > 0 && run[|run| - 1] == Correct
    ensures StrikesAfter(run) == 0
    ensures CalculateOinks(CountOf(run, Correct), StrikesAfter(run)) == 3
  {
    assert CountOf(run, Correct) > 0;
    OinksTiers(CountOf(run, Correct), 0);
  }

  /** Five misses and then ten right answers: the run the tier table rates 40% earns 3 oinks as written. */
  lemma AsWrittenFiveMissesEarnThree()
    ensures var run := seq(5, _ => Incorrect) + seq(10, _ => Correct);
      && CountOf(run, Correct) == 10 && CountOf(run, Incorrect) == 5
      && CalculateOinks(CountOf(run, Correct), CountOf(run, Incorrect)) == 1
      && CalculateOinks(CountOf(run, Correct), StrikesAfter(run)) == 3
  {
    var run := seq(5, _ => Incorrect) + seq(10, _ => Correct);
    CountOfAppend(seq(5, _ => Incorrect), seq(10, _ => Correct), Correct);
    CountOfAppend(seq(5, _ => Incorrect), seq(10, _ => Correct), Incorrect);
    CountOfRepeated(5, Incorrect, Correct);
    CountOfRepeated(5, Incorrect, Incorrect);
    CountOfRepeated(10, Correct, Correct);
    CountOfRepeated(10, Correct, Incorrect);
    OinksExamples();
    AsWrittenLevelAlwaysEarnsThree(run);
  }

  /** The tier as evidently intended: right answers against every miss of the level, not the strikes since the last right answer. */
  function LevelOinks(run: seq<Outcome>): (tier: int)
    ensures 1 <= tier <= 3
  {
    CalculateOinks(CountOf(run, Correct), CountOf(run, Incorrect))
  }

  /**
   * The level tally forgets no miss: a right answer leaves the count of
   * misses where it was (where it clears the strikes), and a miss never
   * raises the tier.
   */
  lemma LevelTallyKeepsMisses(run: seq<Outcome>)
    ensures CountOf(run + [Correct], Incorrect) == CountOf(run, Incorrect)
    ensures StrikesAfter(run + [Correct]) == 0
    ensures LevelOinks(run + [Incorrect]) <= LevelOinks(run)
  {
    CountOfAppend(run, [Correct], Incorrect);
    CountOfAppend(run, [Incorrect], Incorrect);
    CountOfAppend(run, [Incorrect], Correct);
    assert (run + [Correct])[..|run|] == run;
    assert CountOf([Correct], Incorrect) == 0 && CountOf([Incorrect], Correct) == 0;
    MoreStrikesNeverRaiseTier(CountOf(run, Correct), CountOf(run, Incorrect), CountOf(run, Incorrect) + 1);
  }

  /** The three tiers are all reachable with the level tally: ten right answers with no, one or five misses give 3, 2 and 1. */
  lemma LevelOinksScenarios()
    ensures LevelOinks(seq(10, _ => Correct)) == 3
    ensures LevelOinks([Incorrect] + seq(10, _ => Correct)) == 2
    ensures LevelOinks(seq(5, _ => Incorrect) + seq(10, _ => Correct)) == 1
  {
    CountOfRepeated(10, Correct, Correct);
    CountOfRepeated(10, Correct, Incorrect);
    CountOfRepeated(1, Incorrect, Correct);
    CountOfRepeated(1, Incorrect, Incorrect);
    CountOfRepeated(5, Incorrect, Correct);
    CountOfRepeated(5, Incorrect, Incorrect);
    assert [Incorrect] == seq(1, _ => Incorrect);
    CountOfAppend(seq(1, _ => Incorrect), seq(10, _ => Correct), Correct);
    CountOfAppend(seq(1, _ => Incorrect), seq(10, _ => Correct), Incorrect);
    CountOfAppend(seq(5, _ => Incorrect), seq(10, _ => Correct), Correct);
    CountOfAppend(seq(5, _ => Incorrect), seq(10, _ => Correct), Incorrect);
    OinksExamples();
  }

  /** The session's current note, when there is one, is a note of the active pool. */
  predicate NoteFromActivePool(g: GameState)
  {
    g.currentNote.Some? ==> IsPoolNote(g.currentNote.value, ActivePool(g.currentLevel))
  }

  /** Answering keeps the current note in the pool. */
  lemma JudgeKeepsPoolNote(g: GameState, showHint: bool, selected: string, t: int)
    requires NoteFromActivePool(g)
    ensures NoteFromActivePool(Judge(g, showHint, selected, t).state)
  {
  }

  /**
   * Starting another level keeps the previous note (it is not cleared), and
   * that note is still in the new pool only because all pools are equal.
   */
  lemma SelectLevelKeepsPoolNote(g: GameState, level: int)
    requires NoteFromActivePool(g)
    ensures NoteFromActivePool(SelectLevel(g, level))
  {
    PoolsWellFormed();
  }

  /** The keyboard's highlighted key: the current pitch while the hint is shown. */
  function HighlightedNote(showHint: bool, g: GameState): (h: Option<string>)
    ensures h.Some? <==> showHint && g.currentNote.Some?
    ensures h.Some? ==> h.value == g.currentNote.value.pitch
  {
    if showHint && g.currentNote.Some? then Some(g.currentNote.value.pitch) else None
  }

  /**
   * The right answer can always be given: the keyboard built for the active
   * pool has an enabled white key named after the current note, and it is
   * the highlighted one when the hint is on.
   */
  lemma AnswerKeyExists(g: GameState, showHint: bool)
    requires NoteFromActivePool(g) && g.currentNote.Some?
    ensures var pool := ActivePool(g.currentLevel);
            exists i :: 0 <= i < |Keyboard(pool).whiteKeys| &&
              var key := WhiteKeyView(pool, HighlightedNote(showHint, g), Keyboard(pool), i);
              key.name == g.currentNote.value.pitch && key.enabled && (key.highlighted <==> showHint)
  {
    var pool := ActivePool(g.currentLevel);
    var p := g.currentNote.value.pitch;
    var l :| 0 <= l < |NotesPerLevel| && NotesPerLevel[l] == pool;
    PoolPitchShape(l, p);
    KeyboardOfCatalogPool(l);
    var i := WhiteKeyIndexFor(p, 4);
    var keyboard := Keyboard(pool);
    assert 0 <= i < 14 == |keyboard.whiteKeys|;
    assert keyboard.whiteKeys == PatternRun(WhiteKeyPattern, 14);
    assert keyboard.whiteKeys[i] == WhiteKeyPattern[i % 7];
    var key := WhiteKeyView(pool, HighlightedNote(showHint, g), keyboard, i);
    assert key.name == p;
    assert key.enabled && (key.highlighted <==> showHint);
  }

  datatype Mood = Idle | Happy | Encouraging | Celebrating

  /** The sound cues the controller fires (and does not wait for). */
  datatype Cue = SuccessSound | ErrorSound | LevelCompleteSound

  /** What `onLevelComplete` receives: the tier and the score at the moment the level ended. */
  datatype Completion = Completion(oinks: int, score: real)

  class GameController {
    const app: App
    var startTime: int
    var pigMood: Mood
    var showHint: bool
    var cues: seq<Cue>

    /** Mounting the controller: idle pig, no hint, the clock read once. */
    constructor (app: App, now: int)
      ensures this.app == app && startTime == now && pigMood == Idle && !showHint && cues == []
    {
      this.app := app;
      startTime := now;
      pigMood := Idle;
      showHint := false;
      cues := [];
    }

    /** The regenerate effect: with no current note, draw one (the draw lands on `choice`) and restart the clock. */
    method RegenerateEffect(choice: nat, now: int)
      requires app.gameState.currentNote.None? ==> choice < |ActivePool(app.gameState.currentLevel)|
      modifies this`startTime, app`gameState
      ensures old(app.gameState.currentNote).Some? ==> app.gameState == old(app.gameState) && startTime == old(startTime)
      ensures old(app.gameState.currentNote).None? ==>
        app.gameState == old(app.gameState).(currentNote := Some(GenerateRandomNote(app.gameState.currentLevel, choice)))
        && startTime == now
      ensures NoteFromActivePool(old(app.gameState)) ==> NoteFromActivePool(app.gameState)
      ensures app.gameState.currentNote.Some?
    {
      if app.gameState.currentNote.None? {
        var note := GenerateRandomNote(app.gameState.currentLevel, choice);
        app.gameState := app.gameState.(currentNote := Some(note));
        startTime := now;
      }
    }

    /** `handleNoteSelect` at time `now`: judge the answer, set the mood and fire the matching cue. */
    method HandleNoteSelect(selected: string, now: int) returns (outcome: Outcome)
      modifies this`pigMood, this`showHint, this`cues, app`gameState
      ensures var j := Judge(old(app.gameState), old(showHint), selected, now - startTime);
        && outcome == j.outcome && app.gameState == j.state && showHint == j.showHint
      ensures outcome == Ignored ==> pigMood == old(pigMood) && cues == old(cues)
      ensures outcome == Correct ==> pigMood == Happy && cues == old(cues) + [SuccessSound]
      ensures outcome == Incorrect ==> pigMood == Encouraging && cues == old(cues) + [ErrorSound]
    {
      var j := Judge(app.gameState, showHint, selected, now - startTime);
      outcome := j.outcome;
      if outcome == Correct {
        pigMood := Happy;
        cues := cues + [SuccessSound];
      } else if outcome == Incorrect {
        pigMood := Encouraging;
        cues := cues + [ErrorSound];
      }
      app.gameState := j.state;
      showHint := j.showHint;
    }

    /** The level-complete effect: once the target is met, compute the tier, celebrate and report. */
    method LevelCompleteEffect() returns (completion: Option<Completion>)
      modifies this`pigMood, this`cues
      ensures completion.Some? <==> app.gameState.notesCompleted >= app.gameState.notesInLevel
      ensures completion.Some? ==>
        && completion.value == Completion(CalculateOinks(app.gameState.notesCompleted, app.gameState.strikes), app.gameState.score)
        && pigMood == Celebrating && cues == old(cues) + [LevelCompleteSound]
      ensures completion.None? ==> pigMood == old(pigMood) && cues == old(cues)
    {
      var g := app.gameState;
      if g.notesCompleted >= g.notesInLevel {
        completion := Some(Completion(CalculateOinks(g.notesCompleted, g.strikes), g.score));
        pigMood := Celebrating;
        cues := cues + [LevelCompleteSound];
      } else {
        completion := None;
      }
    }

    /**
     * One answer as the running program processes it: judge it; the complete
     * effect runs when the completed count changed (a right answer); a
     * completion is handed to the App, which merges it into the progress.
     */
    method Answer(selected: string, now: int) returns (outcome: Outcome, completion: Option<Completion>)
      modifies this`pigMood, this`showHint, this`cues, app`gameState, app`levelProgress, app`currentScreen
      ensures var j := Judge(old(app.gameState), old(showHint), selected, now - old(startTime));
        && outcome == j.outcome && app.gameState == j.state && showHint == j.showHint
      ensures completion.Some? <==> outcome == Correct && app.gameState.notesCompleted >= app.gameState.notesInLevel
      ensures completion.Some? ==> outcome == Correct && completion.value.oinks == 3
      ensures completion.Some? ==> completion.value.score == app.gameState.score
      ensures completion.Some? ==>
        app.levelProgress[..] == MergeProgress(old(app.levelProgress[..]), app.gameState.currentLevel - 1, 3, app.gameState.score)
      ensures completion.Some? ==> app.currentScreen == LevelSelection
      ensures completion.Some? && 1 <= app.gameState.currentLevel <= app.levelProgress.Length ==>
        app.levelProgress[app.gameState.currentLevel - 1].oinks >= 3 &&
        app.levelProgress[app.gameState.currentLevel - 1].completed
      ensures completion.None? ==> app.levelProgress == old(app.levelProgress)
      ensures completion.None? ==> app.currentScreen == old(app.currentScreen)
      ensures outcome == Ignored ==> pigMood == old(pigMood) && cues == old(cues)
      ensures outcome == Incorrect ==> pigMood == Encouraging && cues == old(cues) + [ErrorSound]
      ensures outcome == Correct && completion.None? ==> pigMood == Happy && cues == old(cues) + [SuccessSound]
      ensures completion.Some? ==> pigMood == Celebrating && cues == old(cues) + [SuccessSound, LevelCompleteSound]
    {
      ghost var before := app.gameState;
      ghost var hintBefore := showHint;
      ghost var t := now - startTime;
      outcome := HandleNoteSelect(selected, now);
      completion := None;
      if outcome == Correct {
        CorrectAnswerEarnsThree(before, hintBefore, selected, t);
        completion := LevelCompleteEffect();
        if completion.Some? {
          assert cues == old(cues) + [SuccessSound] + [LevelCompleteSound];
          app.HandleLevelComplete(completion.value.oinks, completion.value.score);
        }
      }
    }
  }
}

/**
 * The application root: it owns the session record and the per-level
 * progress array, starts a level, merges a finished level's reward into the
 * progress (never lowering it), and fills in defaults for saved data.
 */
module AppRoot {
  import opened Prelude
  import opened Game
  import opened LevelSelect

  /** The three screens: 'menu', 'game' and 'levelSelect'. */
  datatype Screen = Menu | Playing | LevelSelection

  const InitialSettings: GameSettings := GameSettings(0.7, true, true, true, false)

  /** Session state at start-up: no level chosen yet (level 0), ten notes per level. */
  const InitialGameState: GameState := GameState(
    currentLevel := 0, currentNote := None, score := 0.0, strikes := 0, pigCoins := 0,
    unlockedItems := [], achievements := [], settings := InitialSettings,
    streak := 0, notesCompleted := 0, notesInLevel := 10)

  /**
   * The start-up record: no level chosen and no note, every counter at
   * zero, nothing owned, ten notes per level, and the default settings with
   * volume 0.7, sound, music and hints on and high contrast off.
   */
  lemma InitialValues()
    ensures var g := InitialGameState;
      && g.currentLevel == 0 && g.currentNote.None? && g.score == 0.0
      && g.strikes == 0 && g.streak == 0 && g.pigCoins == 0 && g.notesCompleted == 0
      && g.unlockedItems == [] && g.achievements == [] && g.notesInLevel == 10
      && g.settings == InitialSettings
    ensures InitialSettings.volume == 0.7 && InitialSettings.soundEffects && InitialSettings.musicEnabled
    ensures InitialSettings.showHints && !InitialSettings.highContrast
  {
  }

  /** Progress at start-up: four levels numbered 1..4, nothing earned. */
  function InitialProgress(): (p: seq<LevelProgress>)
    ensures |p| == 4
    ensures forall i :: 0 <= i < 4 ==> p[i] == LevelProgress(i + 1, 0, 0.0, false)
  {
    [ LevelProgress(1, 0, 0.0, false), LevelProgress(2, 0, 0.0, false),
      LevelProgress(3, 0, 0.0, false), LevelProgress(4, 0, 0.0, false) ]
  }

  /** From the initial progress only level 1 can be played. */
  lemma InitiallyOnlyFirstLevelUnlocked(n: int)
    ensures IsLevelUnlocked(InitialProgress(), n) <==> n == 1
  {
    var p := InitialProgress();
    if 0 <= n - 2 < |p| {
      assert p[n - 2].oinks == 0;
    }
  }

  /**
   * Starting a level: the per-level counters are zeroed while the coins,
   * items, settings and even the previous note carry over.
   */
  function SelectLevel(g: GameState, level: int): (r: GameState)
    ensures r.currentLevel == level
    ensures r.score == 0.0 && r.strikes == 0 && r.streak == 0 && r.notesCompleted == 0
    ensures r.pigCoins == g.pigCoins && r.unlockedItems == g.unlockedItems && r.achievements == g.achievements
    ensures r.settings == g.settings && r.currentNote == g.currentNote && r.notesInLevel == g.notesInLevel
  {
    g.(currentLevel := level, score := 0.0, strikes := 0, streak := 0, notesCompleted := 0)
  }

  /** The entry after a finished attempt: best tier and best score kept, marked completed. */
  function MergeEntry(e: LevelProgress, oinks: int, score: real): (r: LevelProgress)
    ensures r.levelNumber == e.levelNumber && r.completed
    ensures r.oinks >= e.oinks && r.oinks >= oinks && (r.oinks == e.oinks || r.oinks == oinks)
    ensures r.bestScore >= e.bestScore && r.bestScore >= score && (r.bestScore == e.bestScore || r.bestScore == score)
  {
    e.(oinks := Max(oinks, e.oinks), bestScore := MaxReal(score, e.bestScore), completed := true)
  }

  /**
   * The progress after finishing the level at `levelIndex`: that entry is
   * max-merged; an index outside the array leaves the progress as it was.
   */
  function MergeProgress(p: seq<LevelProgress>, levelIndex: int, oinks: int, score: real): (r: seq<LevelProgress>)
    ensures |r| == |p|
    ensures forall i :: 0 <= i < |p| && i != levelIndex ==> r[i] == p[i]
    ensures 0 <= levelIndex < |p| ==> r[levelIndex] == MergeEntry(p[levelIndex], oinks, score)
    ensures !(0 <= levelIndex < |p|) ==> r == p
  {
    if 0 <= levelIndex < |p| then p[levelIndex := MergeEntry(p[levelIndex], oinks, score)] else p
  }

  /** No entry's oinks or best score ever goes down, and level numbers stay put. */
  lemma MergeNeverLowers(p: seq<LevelProgress>, levelIndex: int, oinks: int, score: real)
    ensures forall i :: 0 <= i < |p| ==>
      var r := MergeProgress(p, levelIndex, oinks, score);
      r[i].oinks >= p[i].oinks && r[i].bestScore >= p[i].bestScore && r[i].levelNumber == p[i].levelNumber
  {
  }

  /** Replaying a level with a lower tier leaves the stored tier where it was. */
  lemma LowerReplayKeepsOinks(p: seq<LevelProgress>, levelIndex: int, oinks: int, score: real)
    requires 0 <= levelIndex < |p| && oinks <= p[levelIndex].oinks
    ensures MergeProgress(p, levelIndex, oinks, score)[levelIndex].oinks == p[levelIndex].oinks
  {
  }

  /** Merging the same result twice is the same as merging it once. */
  lemma MergeIdempotent(p: seq<LevelProgress>, levelIndex: int, oinks: int, score: real)
    ensures MergeProgress(MergeProgress(p, levelIndex, oinks, score), levelIndex, oinks, score)
         == MergeProgress(p, levelIndex, oinks, score)
  {
  }

  /** Once a level is open, no later completion closes it again. */
  lemma UnlockSurvivesMerge(p: seq<LevelProgress>, levelIndex: int, oinks: int, score: real, n: int)
    requires IsLevelUnlocked(p, n)
    ensures IsLevelUnlocked(MergeProgress(p, levelIndex, oinks, score), n)
  {
    MergeNeverLowers(p, levelIndex, oinks, score);
  }

  /** Finishing level k with at least one oink opens level k + 1. */
  lemma CompletionUnlocksNext(p: seq<LevelProgress>, level: int, oinks: int, score: real)
    requires 1 <= level <= |p| && oinks >= 1
    ensures IsLevelUnlocked(MergeProgress(p, level - 1, oinks, score), level + 1)
  {
  }

  /** Saved data as read back; a field the save lacks is None. */
  datatype SaveData = SaveData(
    progress: Option<seq<LevelProgress>>,
    pigCoins: Option<int>,
    inventory: Option<seq<CustomizationItem>>,
    settings: Option<GameSettings>)

  /** The progress after loading: the saved array if present (even an empty one), else the current one. */
  function RestoredProgress(saved: SaveData, current: seq<LevelProgress>): (r: seq<LevelProgress>)
    ensures saved.progress.None? ==> r == current
    ensures saved.progress.Some? ==> r == saved.progress.value
  {
    match saved.progress
    case Some(p) => p
    case None => current
  }

  /** The session record after loading: coins, items and settings from the save, with defaults for missing ones. */
  function RestoredState(saved: SaveData, g: GameState): (r: GameState)
    ensures r.pigCoins == (if saved.pigCoins.Some? then saved.pigCoins.value else 0)
    ensures r.unlockedItems == (if saved.inventory.Some? then saved.inventory.value else [])
    ensures r.settings == (if saved.settings.Some? then saved.settings.value else InitialSettings)
    ensures r == g.(pigCoins := r.pigCoins, unlockedItems := r.unlockedItems, settings := r.settings)
  {
    g.(pigCoins := match saved.pigCoins case Some(c) => c case None => 0,
       unlockedItems := match saved.inventory case Some(items) => items case None => [],
       settings := match saved.settings case Some(s) => s case None => InitialSettings)
  }

  /** An empty save restores the defaults and keeps the level counters. */
  lemma EmptySaveRestoresDefaults(g: GameState, current: seq<LevelProgress>)
    ensures RestoredProgress(SaveData(None, None, None, None), current) == current
    ensures RestoredState(SaveData(None, None, None, None), g)
         == g.(pigCoins := 0, unlockedItems := [], settings := InitialSettings)
  {
  }

  class App {
    var gameState: GameState
    var levelProgress: array<LevelProgress>
    var currentScreen: Screen

    constructor ()
      ensures gameState == InitialGameState
      ensures fresh(levelProgress) && levelProgress[..] == InitialProgress()
      ensures currentScreen == Menu
    {
      gameState := InitialGameState;
      var initial := InitialProgress();
      levelProgress := new LevelProgress[|initial|](i requires 0 <= i < |initial| => initial[i]);
      currentScreen := Menu;
    }

    /** The start-up load; `saved` is None when nothing was stored. */
    method LoadSavedData(saved: Option<SaveData>)
      modifies this`gameState, this`levelProgress
      ensures saved.None? ==> gameState == old(gameState) && levelProgress == old(levelProgress)
      ensures saved.Some? ==> gameState == RestoredState(saved.value, old(gameState))
      ensures saved.Some? ==> levelProgress[..] == RestoredProgress(saved.value, old(levelProgress[..]))
      ensures levelProgress == old(levelProgress) || fresh(levelProgress)
    {
      if saved.Some? {
        var restored := RestoredProgress(saved.value, levelProgress[..]);
        levelProgress := new LevelProgress[|restored|](i requires 0 <= i < |restored| => restored[i]);
        gameState := RestoredState(saved.value, gameState);
      }
    }

    /** `onSelectLevel`: start `level` and switch to the game screen; the progress is untouched. */
    method HandleLevelSelect(level: int)
      modifies this`gameState, this`currentScreen
      ensures gameState == SelectLevel(old(gameState), level)
      ensures currentScreen == Playing
    {
      gameState := SelectLevel(gameState, level);
      currentScreen := Playing;
    }

    /**
     * `onLevelComplete`: copy the progress array, max-merge the current
     * level's entry into the copy and install it; back to the level screen
     * in every case.
     */
    method HandleLevelComplete(oinks: int, score: real)
      modifies this`levelProgress, this`currentScreen
      ensures levelProgress[..] == MergeProgress(old(levelProgress[..]), gameState.currentLevel - 1, oinks, score)
      ensures 0 <= gameState.currentLevel - 1 < old(levelProgress.Length) ==> fresh(levelProgress)
      ensures !(0 <= gameState.currentLevel - 1 < old(levelProgress.Length)) ==> levelProgress == old(levelProgress)
      ensures currentScreen == LevelSelection
    {
      var n := levelProgress.Length;
      var source := levelProgress;
      var updated := new LevelProgress[n](i requires 0 <= i < n reads source => source[i]);
      var levelIndex := gameState.currentLevel - 1;
      if 0 <= levelIndex < n {
        updated[levelIndex] := MergeEntry(updated[levelIndex], oinks, score);
        levelProgress := updated;
      }
      currentScreen := LevelSelection;
    }

    /** The menu's play button and the game screen's back button: show the level screen. */
    method ShowLevelSelect()
      modifies this`currentScreen
      ensures currentScreen == LevelSelection
    {
      currentScreen := LevelSelection;
    }

    /** `handleBackToMenu`, the level screen's back button. */
    method HandleBackToMenu()
      modifies this`currentScreen
      ensures currentScreen == Menu
    {
      currentScreen := Menu;
    }

    /** Pressing a level card's play button: only an unlocked level starts. */
    method PressLevelButton(index: nat)
      requires index < levelProgress.Length
      modifies this`gameState, this`currentScreen
      ensures PressPlay(levelProgress[..], index).Some? ==>
        IsLevelUnlocked(levelProgress[..], gameState.currentLevel) &&
        gameState == SelectLevel(old(gameState), levelProgress[index].levelNumber) && currentScreen == Playing
      ensures PressPlay(levelProgress[..], index).None? ==>
        gameState == old(gameState) && currentScreen == old(currentScreen)
    {
      var selected := PressPlay(levelProgress[..], index);
      if selected.Some? {
        HandleLevelSelect(selected.value);
      }
    }
  }
}

/**
 * The level-selection screen: which levels may be played, how a level's
 * earned oinks are shown, and which button presses reach the host.
 */
module LevelSelect {
  import opened Prelude
  import opened Game

  /** Level 1 is always open; level N is open when the entry before it, `progress[N-2]`, has earned an oink. */
  predicate IsLevelUnlocked(progress: seq<LevelProgress>, levelNumber: int)
    ensures IsLevelUnlocked(progress, levelNumber) ==> levelNumber == 1 || 2 <= levelNumber <= |progress| + 1
    ensures levelNumber != 1 && 0 <= levelNumber - 2 < |progress| && progress[levelNumber - 2].oinks <= 0 ==>
      !IsLevelUnlocked(progress, levelNumber)
  {
    levelNumber == 1 || (0 <= levelNumber - 2 < |progress| && progress[levelNumber - 2].oinks > 0)
  }

  const LevelDescriptions: seq<string> := [
    "Learn C, D, and E notes",
    "Add F and G to your repertoire",
    "Master the full C major scale",
    "Challenge yourself with sharps!"
  ]

  /**
   * The four card descriptions promise more than the pools hold: the fourth
   * offers sharps, yet no pitch of any pool has one.
   */
  lemma DescriptionsPromiseSharps()
    ensures |LevelDescriptions| == 4 && |LevelDescriptions| == |NotesPerLevel|
    ensures LevelDescriptions[3] == "Challenge yourself with sharps!"
    ensures forall p :: p in NotesPerLevel[3] ==> '#' !in p
  {
    NoPoolPitchIsSharp();
  }

  /** The three oink slots of a level card; `true` marks an earned slot. */
  function RenderOinks(count: int): (slots: seq<bool>)
    ensures |slots| == 3
    ensures forall i :: 0 <= i < 3 ==> (slots[i] <==> i < count)
  {
    seq(3, i => i < count)
  }

  /** Number of earned slots shown for `count`: `count` clamped into 0..3. */
  function EarnedSlots(slots: seq<bool>): nat
  {
    if |slots| == 0 then 0 else (if slots[0] then 1 else 0) + EarnedSlots(slots[1..])
  }

  lemma {:induction false} RenderOinksEarned(count: int)
    ensures EarnedSlots(RenderOinks(count)) == if count <= 0 then 0 else if count >= 3 then 3 else count
  {
    var s := RenderOinks(count);
    assert s[1..][1..][1..] == [];
    assert EarnedSlots(s[1..][1..]) == (if s[2] then 1 else 0) + EarnedSlots(s[1..][1..][1..]);
    assert EarnedSlots(s[1..]) == (if s[1] then 1 else 0) + EarnedSlots(s[1..][1..]);
    assert EarnedSlots(s) == (if s[0] then 1 else 0) + EarnedSlots(s[1..]);
  }

  /** What one card of the grid shows. */
  datatype LevelCard = LevelCard(
    levelNumber: int, description: Option<string>, oinkSlots: seq<bool>, unlocked: bool)

  /** The card rendered for `progress[index]`; only the first four cards have a description. */
  function Card(progress: seq<LevelProgress>, index: nat): (c: LevelCard)
    requires index < |progress|
    ensures c.levelNumber == progress[index].levelNumber
    ensures c.unlocked == IsLevelUnlocked(progress, progress[index].levelNumber)
    ensures c.description.Some? <==> index < |LevelDescriptions|
    ensures c.description.Some? ==> c.description.value == LevelDescriptions[index]
    ensures c.oinkSlots == RenderOinks(progress[index].oinks)
  {
    var level := progress[index];
    LevelCard(
      level.levelNumber,
      if index < |LevelDescriptions| then Some(LevelDescriptions[index]) else None,
      RenderOinks(level.oinks),
      IsLevelUnlocked(progress, level.levelNumber))
  }

  /**
   * Pressing the play button of card `index`: the level number handed to
   * the host's `onSelectLevel`, or None when the button is disabled.
   */
  function PressPlay(progress: seq<LevelProgress>, index: nat): (selected: Option<int>)
    requires index < |progress|
    ensures selected.Some? ==> IsLevelUnlocked(progress, selected.value)
    ensures selected.Some? ==> selected.value == progress[index].levelNumber
    ensures selected.None? ==> !IsLevelUnlocked(progress, progress[index].levelNumber)
  {
    var card := Card(progress, index);
    if card.unlocked then Some(card.levelNumber) else None
  }

  /** With every oink count at zero, level 2 is locked; one oink on level 1 opens it. */
  lemma SecondLevelUnlockScenario(progress: seq<LevelProgress>)
    requires |progress| == 4
    requires forall i :: 0 <= i < 4 ==> progress[i] == LevelProgress(i + 1, 0, 0.0, false)
    ensures !IsLevelUnlocked(progress, 2)
    ensures PressPlay(progress, 1).None?
    ensures IsLevelUnlocked(progress[0 := progress[0].(oinks := 1)], 2)
    ensures PressPlay(progress[0 := progress[0].(oinks := 1)], 1) == Some(2)
  {
    assert progress[0].oinks == 0;
  }
}

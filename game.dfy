/**
 * The game's records and its constant note catalogue: the per-level pitch
 * pools and the pitch-to-staff-position table (treble clef only; this
 * revision of the game has no other table).
 */
module Game {
  import opened Prelude

  datatype Accidental = Sharp | Flat

  /** A question posed to the player: a pitch name such as "C4", where it sits on the staff, and its accidental. */
  datatype Note = Note(pitch: string, staffPosition: int, accidental: Option<Accidental>)

  datatype ItemKind = Hat | Accessory | Background | Instrument

  datatype CustomizationItem = CustomizationItem(
    id: string, kind: ItemKind, name: string, cost: int, unlocked: bool, equipped: bool)

  datatype Achievement = Achievement(id: string, name: string, description: string, unlocked: bool, icon: string)

  datatype GameSettings = GameSettings(
    volume: real, soundEffects: bool, musicEnabled: bool, showHints: bool, highContrast: bool)

  /** The per-session counters. `score` is fractional because its speed bonus is. */
  datatype GameState = GameState(
    currentLevel: int,
    currentNote: Option<Note>,
    score: real,
    strikes: nat,
    pigCoins: int,
    unlockedItems: seq<CustomizationItem>,
    achievements: seq<Achievement>,
    settings: GameSettings,
    streak: nat,
    notesCompleted: nat,
    notesInLevel: int)

  /** The persisted record of one level: its best reward tier, best score and whether it was ever finished. */
  datatype LevelProgress = LevelProgress(levelNumber: int, oinks: int, bestScore: real, completed: bool)

  /** The pitches each level draws from, level 1 first. In this revision all four pools are the same. */
  const NotesPerLevel: seq<seq<string>> := [
    ["C4", "D4", "E4", "F4", "G4", "A4", "B4", "C5", "D5", "E5", "F5"],
    ["C4", "D4", "E4", "F4", "G4", "A4", "B4", "C5", "D5", "E5", "F5"],
    ["C4", "D4", "E4", "F4", "G4", "A4", "B4", "C5", "D5", "E5", "F5"],
    ["C4", "D4", "E4", "F4", "G4", "A4", "B4", "C5", "D5", "E5", "F5"]
  ]

  /** Treble-clef staff position of each pitch: 0 is the ledger line below the staff, 10 the top line. */
  const StaffPositions: map<string, int> := map[
    "C4" := 0, "D4" := 1, "E4" := 2, "F4" := 3, "G4" := 4, "A4" := 5,
    "B4" := 6, "C5" := 7, "D5" := 8, "E5" := 9, "F5" := 10
  ]

  /** The pitch at position k of a pool sits at staff position k. */
  lemma PoolIndexIsStaffPosition(level: nat, k: nat)
    requires level < |NotesPerLevel| && k < |NotesPerLevel[level]|
    ensures NotesPerLevel[level][k] in StaffPositions
    ensures StaffPositions[NotesPerLevel[level][k]] == k
  {
    assert NotesPerLevel[level] == NotesPerLevel[0];
    var pool := NotesPerLevel[0];
    if k == 0 {} else if k == 1 {} else if k == 2 {} else if k == 3 {} else if k == 4 {}
    else if k == 5 {} else if k == 6 {} else if k == 7 {} else if k == 8 {} else if k == 9 {}
    else {}
  }

  /** There are four pools; each is non-empty, has no repeated pitch, and they are all equal. */
  lemma PoolsWellFormed()
    ensures |NotesPerLevel| == 4
    ensures forall l :: 0 <= l < |NotesPerLevel| ==> |NotesPerLevel[l]| == 11
    ensures forall l :: 0 <= l < |NotesPerLevel| ==> NotesPerLevel[l] == NotesPerLevel[0]
    ensures forall l, i, j :: 0 <= l < |NotesPerLevel| && 0 <= i < j < |NotesPerLevel[l]| ==>
      NotesPerLevel[l][i] != NotesPerLevel[l][j]
  {
    forall l, i, j | 0 <= l < |NotesPerLevel| && 0 <= i < j < |NotesPerLevel[l]|
      ensures NotesPerLevel[l][i] != NotesPerLevel[l][j]
    {
      PoolIndexIsStaffPosition(l, i);
      PoolIndexIsStaffPosition(l, j);
    }
  }

  /** Every pool pitch has a staff position, so looking one up never misses. */
  lemma PoolPitchesHaveStaffPositions()
    ensures forall l, p :: 0 <= l < |NotesPerLevel| && p in NotesPerLevel[l] ==>
      p in StaffPositions && 0 <= StaffPositions[p] < |NotesPerLevel[l]| && NotesPerLevel[l][StaffPositions[p]] == p
  {
    forall l, p | 0 <= l < |NotesPerLevel| && p in NotesPerLevel[l]
      ensures p in StaffPositions && 0 <= StaffPositions[p] < |NotesPerLevel[l]| && NotesPerLevel[l][StaffPositions[p]] == p
    {
      var k :| 0 <= k < |NotesPerLevel[l]| && NotesPerLevel[l][k] == p;
      PoolIndexIsStaffPosition(l, k);
    }
  }

  /** The table covers exactly the pool pitches, its positions lie in 0..10, and no two pitches share one. */
  lemma StaffPositionsInjective()
    ensures StaffPositions.Keys == set p | p in NotesPerLevel[0]
    ensures forall p :: p in StaffPositions ==> 0 <= StaffPositions[p] <= 10
    ensures forall p, q :: p in StaffPositions && q in StaffPositions && StaffPositions[p] == StaffPositions[q] ==> p == q
  {
    StaffPositionsKeys();
    PoolPitchesHaveStaffPositions();
    assert |NotesPerLevel[0]| == 11;
    forall p | p in StaffPositions
      ensures 0 <= StaffPositions[p] <= 10
    {
      assert p in NotesPerLevel[0];
    }
    forall p, q | p in StaffPositions && q in StaffPositions && StaffPositions[p] == StaffPositions[q]
      ensures p == q
    {
      assert p in NotesPerLevel[0] && q in NotesPerLevel[0];
      assert p == NotesPerLevel[0][StaffPositions[p]] == NotesPerLevel[0][StaffPositions[q]] == q;
    }
  }

  /** The table's keys are the first pool's pitches. */
  lemma StaffPositionsKeys()
    ensures StaffPositions.Keys == set p | p in NotesPerLevel[0]
  {
    var pool := NotesPerLevel[0];
    assert StaffPositions.Keys == {"C4", "D4", "E4", "F4", "G4", "A4", "B4", "C5", "D5", "E5", "F5"};
    assert forall p :: p in StaffPositions.Keys ==> p in pool;
    assert forall p :: p in pool ==> p in StaffPositions.Keys;
  }

  /** Holds when a pitch is a name free of the digits 4 and 5, followed by one of them. */
  predicate EndsInOctaveDigit(pitch: string)
  {
    0 < |pitch| && '4' !in pitch[..|pitch| - 1] && '5' !in pitch[..|pitch| - 1]
    && (pitch[|pitch| - 1] == '4' || pitch[|pitch| - 1] == '5')
  }

  /** Every pool pitch is a natural note name, one of C..B, followed by the octave digit 4 or 5. */
  lemma PoolPitchShape(l: nat, p: string)
    requires l < |NotesPerLevel| && p in NotesPerLevel[l]
    ensures |p| == 2 && p[0] in "CDEFGAB" && (p[1] == '4' || p[1] == '5')
  {
    PoolPitchesHaveStaffPositions();
    var k := StaffPositions[p];
    PoolIndexIsStaffPosition(l, k);
    assert NotesPerLevel[l] == NotesPerLevel[0];
    assert p == NotesPerLevel[0][k];
    if k == 0 {} else if k == 1 {} else if k == 2 {} else if k == 3 {} else if k == 4 {}
    else if k == 5 {} else if k == 6 {} else if k == 7 {} else if k == 8 {} else if k == 9 {}
    else {}
  }

  /** No pitch of any pool carries a sharp. */
  lemma NoPoolPitchIsSharp()
    ensures forall l, p :: 0 <= l < |NotesPerLevel| && p in NotesPerLevel[l] ==> '#' !in p
  {
    forall l, p | 0 <= l < |NotesPerLevel| && p in NotesPerLevel[l]
      ensures '#' !in p
    {
      PoolPitchShape(l, p);
    }
  }
}

# PigMusic note quiz, modelled in Dafny

PigMusic is a React game that teaches children to read treble-clef notes.
The game shows a note on a staff. The player answers on an on-screen piano.
A pig mascot reacts to each answer. Finishing a level of ten notes earns
"oinks", and at least one oink opens the next level. The tier formula has
three tiers, by accuracy. But a right answer clears the strikes, and a level
can only end on a right answer, so every completion the code reaches earns 3
oinks and tiers 1 and 2 never occur (see "## Findings").

This project models the core of the game:

- **Catalogue** (`game.dfy`): the records and the two constant tables.
  - There are four per-level pitch pools. In this revision all four are the
    same eleven naturals, C4 to F5.
  - The pitch-to-staff-position table maps C4 to 0 and F5 to 10.
- **Session** (`gamecontrol.dfy`). It covers:
  - drawing a random note from the active pool;
  - judging an answer (score, streak, strikes, coins, the one-shot hint);
  - the effect that draws a new note;
  - the effect that detects the end of a level;
  - the reward tier computed from the accuracy.

  The component's state (start time, mood, hint flag, and a trace of the
  sound cues it fires) is the class `GameController`. The session record it
  updates belongs to the `App` object.
- **Application root** (`app.dfy`). It covers:
  - the initial state and the initial progress;
  - starting a level;
  - the max-merge of a finished level into the progress array;
  - loading saved data with its defaults;
  - switching screens.

  It is the class `App`, whose progress is an `array` that
  `HandleLevelComplete` replaces by an updated copy, as the source does.
- **Level screen** (`levelselect.dfy`): which levels are unlocked, the three
  oink slots, the cards, and the gating of the play button.
- **Piano** (`pianokeyboard.dfy`). It covers:
  - the octave range of the available notes;
  - the loop that builds the white and black keys, written as a `method`
    with loops and proved equal to a specification function;
  - key names, enabled and highlighted keys;
  - the filter that forwards only available notes.
- **Displays**:
  - `notedisplay.dfy`, the hand-drawn staff: note height, ledger line,
    accidental glyph and hint caption;
  - `vexflow.dfy`, the engraved staff: the VexFlow key string, the sharp
    accidental, the hint colouring and the hint caption;
  - `progressbar.dfy`: fill percentage, pig threshold and caption.
- **Helpers** (`prelude.dfy`): the JavaScript primitives the source relies
  on. They are stated once:
  - division that yields NaN or ±Infinity;
  - `replace` with a string pattern, which replaces the first match only;
  - ASCII `toLowerCase`;
  - number-to-text conversion;
  - `indexOf`.

Inputs the program gets from outside are parameters:

- `Math.random()` is the index `choice` that the draw lands on.
- `Date.now()` is the parameter `now`.
- The audio calls are recorded as a sequence of cues.

Fractional numbers that JavaScript computes as doubles (score, accuracy,
percentage) are modelled as exact `real`s. Counters are unbounded integers.
The results of a division are modelled as `JsNumber`, which also covers NaN
and the infinities.

The code promises more than it implements in three places, and the model
follows what the code does:

- The level cards (src/components/UI/LevelSelect.tsx:16-21) describe pools
  that widen level by level. The four pools in src/types/game.ts:69-74 are
  identical.
- The clef picker (src/components/UI/ClefSelector.tsx:24-31) offers a bass
  clef with the notes E2 to C4. The staff table (src/types/game.ts:76-88)
  covers only the treble notes C4 to F5.
- The fourth card reads "Challenge yourself with sharps!". No pool contains
  a sharp, so no drawn note ever carries an accidental. The lemmas
  `Game.NoPoolPitchIsSharp` and `GameControl.GeneratedNoteIsNatural` state
  this.

`NoteDisplay.getNotePosition` places a higher staff position lower on the
screen: C4 at 0 px and F5 at 200 px. Its C4 ledger line is fixed at 110 px.
The model keeps this as written (`NoteDisplay.NotePositionSteps`). The
component is not rendered by the session, and the code does not show which
layout was intended.

## Model

| member | source | states |
|---|---|---|
| Prelude.Divide | src/components/UI/ProgressBar.tsx:10 | JavaScript `/` on integers: a finite quotient q with q * b == a for b != 0; for b == 0 NaN exactly when a == 0, +Infinity for a > 0 and -Infinity for a < 0 |
| Prelude.IntToString | src/components/UI/ProgressBar.tsx:15 | JavaScript's decimal text of an integer: non-empty, digits only except a leading '-', which appears exactly for negatives |
| Prelude.NatToStringInjective | src/components/UI/ProgressBar.tsx:15 | two naturals with the same decimal text are equal |
| Prelude.IntToStringInjective | src/components/UI/ProgressBar.tsx:15 | two integers have the same decimal text exactly when they are equal |
| Prelude.ReplaceFirst | src/components/GameEngine/VexFlowNoteDisplay.tsx:41 | `replace` with a one-character pattern: unchanged when the character is absent, otherwise only its first occurrence is replaced |
| Prelude.ReplaceFirstSkipsPrefix | src/components/GameEngine/NoteDisplay.tsx:71 | replacing in u + v where u lacks the pattern leaves u untouched and replaces in v |
| Prelude.ReplaceFirstKeepsOthers | src/components/GameEngine/VexFlowNoteDisplay.tsx:41 | replacing one character never adds or removes another character that the replacement does not contain |
| Prelude.ToLower | src/components/GameEngine/VexFlowNoteDisplay.tsx:38 | `toLowerCase` keeps the length and lower-cases every ASCII capital, character by character |
| Prelude.IndexOf | src/components/GameEngine/PianoKeyboard.tsx:31 | `indexOf`: -1 exactly when absent, otherwise the first index holding the value |
| Game.PoolIndexIsStaffPosition | src/types/game.ts:69-88 | the k-th pitch of every pool sits at staff position k |
| Game.PoolsWellFormed | src/types/game.ts:69-74 | four pools of eleven pairwise distinct pitches, all four equal |
| Game.PoolPitchesHaveStaffPositions | src/types/game.ts:69-88 | every pool pitch has a staff position, and indexing the pool by that position gives the pitch back |
| Game.StaffPositionsInjective | src/types/game.ts:76-88 | the table's keys are exactly the pool pitches, its positions lie in 0..10 and no two pitches share one |
| Game.PoolPitchShape | src/types/game.ts:69-74 | every pool pitch is a letter C..B followed by the octave digit 4 or 5 |
| Game.NoPoolPitchIsSharp | src/types/game.ts:69-74 | no pool pitch contains '#' |
| LevelSelect.RenderOinks | src/components/UI/LevelSelect.tsx:23-29 | three slots, slot i earned exactly when i < count |
| LevelSelect.RenderOinksEarned | src/components/UI/LevelSelect.tsx:23-29 | the number of earned slots is the oink count clamped into 0..3 |
| LevelSelect.IsLevelUnlocked | src/components/UI/LevelSelect.tsx:31-34 | only level 1 and levels 2..n+1 that follow an entry can be open, and a level whose previous entry has no oink is locked |
| LevelSelect.DescriptionsPromiseSharps | src/components/UI/LevelSelect.tsx:16-21 | four descriptions, one per pool; the fourth offers sharps though the fourth pool has none |
| LevelSelect.Card | src/components/UI/LevelSelect.tsx:16-58 | a card shows its entry's level number, its three oink slots lit per the earned count, is unlocked per `isLevelUnlocked`, and has a description exactly for the first four cards, the one written for its position |
| LevelSelect.PressPlay | src/components/UI/LevelSelect.tsx:60-66 | the play button reports the card's level number exactly when that level is unlocked, and nothing otherwise |
| LevelSelect.SecondLevelUnlockScenario | src/components/UI/LevelSelect.tsx:31-34 | with no oinks level 2 is locked and its button does nothing; one oink on level 1 opens it and the button selects level 2 |
| AppRoot.InitialProgress | src/App.tsx:30-35 | four entries numbered 1..4 with no oinks, zero best score, not completed |
| AppRoot.InitialValues | src/App.tsx:7-28 | the start-up record: level 0, no note, zero counters, nothing owned, ten notes per level, and the default settings (volume 0.7, sound, music and hints on, high contrast off) |
| AppRoot.InitiallyOnlyFirstLevelUnlocked | src/App.tsx:30-35 | from the initial progress a level is unlocked exactly when it is level 1 |
| AppRoot.SelectLevel | src/App.tsx:63-73 | starting a level sets it and zeroes score, strikes, streak and completed notes, keeping coins, items, settings, note and level size |
| AppRoot.MergeEntry | src/App.tsx:79-85 | the merged entry keeps its number, is completed, and has the larger of the old and new oinks and of the old and new scores |
| AppRoot.MergeProgress | src/App.tsx:75-89 | only the entry at the level's index changes, by the max-merge; an index outside the array leaves the progress as it was |
| AppRoot.MergeNeverLowers | src/App.tsx:79-85 | no entry's oinks or best score ever decreases, and level numbers stay put |
| AppRoot.LowerReplayKeepsOinks | src/App.tsx:82 | replaying with a lower tier keeps the stored tier |
| AppRoot.MergeIdempotent | src/App.tsx:75-89 | merging the same result twice equals merging it once |
| AppRoot.UnlockSurvivesMerge | src/App.tsx:75-89 | a level once unlocked stays unlocked after any completion |
| AppRoot.CompletionUnlocksNext | src/App.tsx:75-89 | finishing level k (1 <= k <= length) with at least one oink unlocks level k + 1 |
| AppRoot.RestoredProgress | src/App.tsx:43 | the saved progress replaces the current one when present, otherwise the current one stays |
| AppRoot.RestoredState | src/App.tsx:44-49 | coins, items and settings come from the save, defaulting to 0, [] and the initial settings; nothing else changes |
| AppRoot.EmptySaveRestoresDefaults | src/App.tsx:39-51 | a save without fields keeps the progress and resets coins, items and settings to their defaults |
| AppRoot.App.constructor | src/App.tsx:15-37 | the initial session record, a fresh array holding the initial progress, and the menu screen |
| AppRoot.App.LoadSavedData | src/App.tsx:39-51 | with no save nothing changes; with one, the session and the progress array become the restored ones |
| AppRoot.App.HandleLevelSelect | src/App.tsx:63-73 | the session becomes `SelectLevel` of the old one and the game screen is shown |
| AppRoot.App.HandleLevelComplete | src/App.tsx:75-92 | the progress array's contents become `MergeProgress` of the old contents at index currentLevel - 1, in a fresh copy when in range; the level screen is shown |
| AppRoot.App.ShowLevelSelect | src/App.tsx:104-109 | the menu's play button shows the level screen |
| AppRoot.App.HandleBackToMenu | src/App.tsx:94-96 | the back button shows the menu |
| AppRoot.App.PressLevelButton | src/App.tsx:113-118 | an unlocked card starts its level and shows the game screen; a locked one changes nothing |
| GameControl.ActivePool | src/components/GameEngine/GameController.tsx:33 | the pool of `currentLevel - 1`, falling back to the first pool when that index is outside the table |
| GameControl.GenerateRandomNote | src/components/GameEngine/GameController.tsx:32-41 | the drawn note is the pool pitch at the drawn index, with its staff position and a sharp accidental exactly when the pitch has '#' |
| GameControl.GeneratedNoteIsNatural | src/components/GameEngine/GameController.tsx:32-41 | in this revision the drawn note sits at staff position `choice`, within 0..10, with no accidental |
| GameControl.GeneratorCoversPoolOnce | src/components/GameEngine/GameController.tsx:34 | every pool pitch is drawn by some index and no two indices draw the same pitch |
| GameControl.SpeedBonus | src/components/GameEngine/GameController.tsx:58 | the speed bonus is never negative and at most 1000 for a non-negative response time |
| GameControl.Judge | src/components/GameEngine/GameController.tsx:51-94 | no note: nothing changes; right pitch: streak + 1, strikes 0, coins + 10, one more note, note and hint cleared, score up by at least 100 + 50 * streak; wrong pitch: one more strike, streak 0, hint armed on the first miss with hints on; level, settings and level size kept |
| GameControl.SecondMissNeverArmsHint | src/components/GameEngine/GameController.tsx:85-87 | after a miss, a second miss leaves the hint flag as the first miss set it |
| GameControl.HintPersistsUntilCorrect | src/components/GameEngine/GameController.tsx:72-87 | a shown hint stays shown exactly until a right answer |
| GameControl.Accuracy | src/components/GameEngine/GameController.tsx:108 | accuracy times (completed + 3 * strikes) equals 100 * completed, and it is NaN exactly when both counts are zero |
| GameControl.CalculateOinks | src/components/GameEngine/GameController.tsx:107-112 | the tier is always 1, 2 or 3 |
| GameControl.AccuracyAtLeast | src/components/GameEngine/GameController.tsx:108-110 | accuracy >= pct exactly when 100 * completed >= pct * (completed + 3 * strikes) |
| GameControl.OinksTiers | src/components/GameEngine/GameController.tsx:107-112 | tier 3 iff completed >= 27 * strikes, tier 2 iff 7 * strikes <= completed < 27 * strikes, tier 1 iff completed < 7 * strikes |
| GameControl.EmptyRunGetsOneOink | src/components/GameEngine/GameController.tsx:108-111 | 0 / 0 accuracy is NaN, which passes neither threshold and gives tier 1 |
| GameControl.OinksExamples | src/components/GameEngine/GameController.tsx:107-112 | ten right with 0, 1 and 5 strikes earn 3, 2 and 1 oinks |
| GameControl.MoreStrikesNeverRaiseTier | src/components/GameEngine/GameController.tsx:107-112 | more strikes never raise the tier |
| GameControl.CorrectAnswerEarnsThree | src/components/GameEngine/GameController.tsx:71 | right after a right answer the strikes are zero, so a tier computed then is 3 |
| GameControl.JudgeStrikes | src/components/GameEngine/GameController.tsx:67-88 | judging moves the strikes as one step of the run: a right answer clears them, a miss adds one, an ignored press keeps them |
| GameControl.StrikesAfter | src/components/GameEngine/GameController.tsx:67-88 | the strikes after a run never exceed its misses and are 0 after a run that ends on a right answer |
| GameControl.AsWrittenLevelAlwaysEarnsThree | src/components/GameEngine/GameController.tsx:96-112 | as written, a run that ends on a right answer has 0 strikes, so its tier is 3 |
| GameControl.AsWrittenFiveMissesEarnThree | src/components/GameEngine/GameController.tsx:107-112 | five misses then ten right answers rate 1 oink by the tier formula, yet earn 3 as written |
| GameControl.LevelOinks | src/components/GameEngine/GameController.tsx:107-112 | the intended tier, right answers against every miss of the level, lies in 1..3 |
| GameControl.LevelTallyKeepsMisses | src/components/GameEngine/GameController.tsx:107-112 | a right answer keeps the level's misses where it clears the strikes, and another miss never raises the intended tier |
| GameControl.LevelOinksScenarios | src/components/GameEngine/GameController.tsx:107-112 | with the level tally, ten right answers with no, one or five misses earn 3, 2 and 1 oinks |
| GameControl.JudgeKeepsPoolNote | src/components/GameEngine/GameController.tsx:51-94 | answering keeps the current note a note of the active pool |
| GameControl.SelectLevelKeepsPoolNote | src/App.tsx:63-73 | starting a level keeps the old note, and it is still a pool note |
| GameControl.HighlightedNote | src/components/GameEngine/GameController.tsx:151 | the highlighted key is the current pitch exactly while the hint is shown |
| GameControl.AnswerKeyExists | src/components/GameEngine/GameController.tsx:147-152 | the keyboard for the active pool has an enabled white key named after the current note, highlighted exactly when the hint is on |
| GameControl.GameController.constructor | src/components/GameEngine/GameController.tsx:23-25 | an idle pig, no hint, the clock read once, no cues |
| GameControl.GameController.RegenerateEffect | src/components/GameEngine/GameController.tsx:43-49 | with no note, the drawn note is installed and the clock restarts; with one, nothing changes; a pool note stays a pool note |
| GameControl.GameController.HandleNoteSelect | src/components/GameEngine/GameController.tsx:51-94 | the session and the hint become `Judge` of the old ones at response time now - startTime; the mood and the success or error cue follow the outcome |
| GameControl.GameController.LevelCompleteEffect | src/components/GameEngine/GameController.tsx:96-105 | exactly when completed >= notes in level, the tier from `calculateOinks` and the score are reported, the pig celebrates and the level-complete cue fires |
| GameControl.GameController.Answer | src/components/GameEngine/GameController.tsx:51-105 | the outcome, session record and hint flag are those of judging the answer; a completion is reported exactly when the answer was right and the completed notes reach the level size, with 3 oinks and the session score, and the progress becomes the max-merge of that result into the old progress, with the level-select screen shown; without a completion the progress and the screen are untouched; the pig is encouraging after a miss with the error sound, happy after a right answer with the success sound, celebrating after the last one with the success and level-complete sounds, and an ignored press changes neither mood nor cues |
| PianoKeyboard.SplitRecombines | src/components/GameEngine/PianoKeyboard.tsx:49-50 | `slice(0, -1)` and `slice(-1)` put back together give the note |
| PianoKeyboard.NoteName | src/components/GameEngine/PianoKeyboard.tsx:31 | `slice(0, -1)` drops exactly the last character |
| PianoKeyboard.OctaveText | src/components/GameEngine/PianoKeyboard.tsx:17 | `slice(-1)` is the last character, and the note is the rest followed by it |
| PianoKeyboard.OctaveOf | src/components/GameEngine/PianoKeyboard.tsx:17 | `parseInt` of the last character: a digit 0..9 exactly when that character is one, NaN otherwise |
| PianoKeyboard.OctaveRange | src/components/GameEngine/PianoKeyboard.tsx:17-19 | defined exactly when the notes are non-empty with numeric octaves; then the least and greatest octave, both attained |
| PianoKeyboard.OctaveRangeFromBounds | src/components/GameEngine/PianoKeyboard.tsx:17-19 | when every octave lies in lo..hi and both occur, the range is (lo, hi) |
| PianoKeyboard.PatternRun | src/components/GameEngine/PianoKeyboard.tsx:28-34 | slot i of a run repeats pattern slot i mod 7 |
| PianoKeyboard.PatternRunExtend | src/components/GameEngine/PianoKeyboard.tsx:28-34 | a run of m octaves plus c more slots is the m-octave run followed by the pattern's first c slots |
| PianoKeyboard.LastOctaveBlackKeys | src/components/GameEngine/PianoKeyboard.tsx:31 | the last octave gets fewer than seven black entries |
| PianoKeyboard.Keyboard | src/components/GameEngine/PianoKeyboard.tsx:17-35 | the layout spans the octave range of the available notes |
| PianoKeyboard.KeyboardShape | src/components/GameEngine/PianoKeyboard.tsx:25-35 | seven white keys per octave cycling C..B; seven black entries per octave except the last, which has fewer |
| PianoKeyboard.PushOctave | src/components/GameEngine/PianoKeyboard.tsx:29-34 | one octave appends the seven white keys and the black entries of the first 7 (or, in the last octave, max(lastIndex, 0)) slots |
| PianoKeyboard.BuildKeys | src/components/GameEngine/PianoKeyboard.tsx:17-35 | the keys built by the loops are exactly `Keyboard` of the available notes |
| PianoKeyboard.IsNoteAvailable | src/components/GameEngine/PianoKeyboard.tsx:37-39 | a key is available exactly when some available note equals its letter and octave |
| PianoKeyboard.GetNoteName | src/components/GameEngine/PianoKeyboard.tsx:41-45 | the name starts with the letter, followed by the single digit of octave min + index / 7 when that octave is 0..9 |
| PianoKeyboard.WhiteKeyView | src/components/GameEngine/PianoKeyboard.tsx:61-67 | white key i is named by its letter and octave min + i / 7, enabled iff that name is available, highlighted iff it is the highlighted note |
| PianoKeyboard.BlackKeyView | src/components/GameEngine/PianoKeyboard.tsx:79-87 | a black key is drawn exactly at the C, D, F, G and A slots, named with the octave, captioned by the sharp name alone, enabled iff that name is available and highlighted iff it is the highlighted note |
| PianoKeyboard.BlackKeySlots | src/components/GameEngine/PianoKeyboard.tsx:23 | five black keys per octave, each the sharp of its white key |
| PianoKeyboard.HandleKeyPress | src/components/GameEngine/PianoKeyboard.tsx:47-56 | a pressed note is forwarded, unchanged, exactly when it is available |
| PianoKeyboard.PressForwardsKeyName | src/components/GameEngine/PianoKeyboard.tsx:70-72 | pressing a white key forwards its name when enabled and nothing when disabled |
| PianoKeyboard.WhiteKeyIndexFor | src/components/GameEngine/PianoKeyboard.tsx:41-45 | a natural pitch has a white-key index whose letter and octave name exactly that pitch |
| PianoKeyboard.KeyboardOfCatalogPool | src/components/GameEngine/PianoKeyboard.tsx:17-35 | for a catalogue pool the keyboard spans octaves 4..5 with 14 white keys and 10 black entries |
| PianoKeyboard.CatalogLastOctaveBlackKeys | src/components/GameEngine/PianoKeyboard.tsx:31 | a pool ends with F5, so the top octave gets three black entries |
| NoteDisplay.NotePositionSteps | src/components/GameEngine/NoteDisplay.tsx:17-30 | each staff step moves the head 20 px down; the offset is injective and increasing in the position |
| NoteDisplay.NotePosition | src/components/GameEngine/NoteDisplay.tsx:17-30 | the base offset and the centring cancel: the head sits 20 px per staff step from the top |
| NoteDisplay.HasLedgerLine | src/components/GameEngine/NoteDisplay.tsx:42 | a ledger line is drawn exactly at C4's staff position |
| NoteDisplay.HintLabel | src/components/GameEngine/NoteDisplay.tsx:71-72 | a pitch without 4 or 5 is shown as it is; a name free of 4 and 5 followed by the digit 4 or 5 is shown as the name alone, with " (high)" added exactly for a 5; in general the caption loses one character per digit 4 and 5 present and gains seven for a 5 |
| NoteDisplay.AccidentalGlyph | src/components/GameEngine/NoteDisplay.tsx:58-63 | a sharp draws ♯, a flat draws ♭, and no accidental draws nothing |
| NoteDisplay.AccidentalGlyphInjective | src/components/GameEngine/NoteDisplay.tsx:58-63 | the glyph determines the accidental |
| NoteDisplay.HintLabelOfNatural | src/components/GameEngine/NoteDisplay.tsx:71-72 | a letter followed by 4 or 5 is captioned by the letter, plus " (high)" exactly for 5 |
| NoteDisplay.PoolHintLabel | src/components/GameEngine/NoteDisplay.tsx:69-72 | every pool pitch is captioned by its letter, plus " (high)" exactly in octave 5 |
| NoteDisplay.PoolHintLabelsDistinct | src/components/GameEngine/NoteDisplay.tsx:69-72 | two pool pitches share a caption only when they are equal |
| NoteDisplay.Render | src/components/GameEngine/NoteDisplay.tsx:32-76 | always five staff lines; a head exactly with a note, placed at `getNotePosition` of its staff position, hint-styled per the flag, a ledger line exactly at position 0, and its accidental glyph; a caption exactly with a note and the hint on, reading "Hint: This note is " and the note's label |
| NoteDisplay.PoolNoteDrawing | src/components/GameEngine/NoteDisplay.tsx:39-63 | a pool note's head lies within 0..200 px, has no glyph, and gets the ledger line exactly for C4 |
| VexFlowNoteDisplay.VexKeyOfNameAndOctave | src/components/GameEngine/VexFlowNoteDisplay.tsx:38-45 | a name without 4 or 5 followed by the digit 4 or 5 becomes the lower-cased name, '/', and the digit |
| VexFlowNoteDisplay.VexKey | src/components/GameEngine/VexFlowNoteDisplay.tsx:38-45 | a pitch without 4 or 5 is only lower-cased; a name free of 4 and 5 followed by the digit 4 or 5 becomes the lower-cased name, "/", and the digit; in general the key is one character longer for each of the digits 4 and 5 present |
| VexFlowNoteDisplay.VexKeyExamples | src/components/GameEngine/VexFlowNoteDisplay.tsx:40-44 | C4 becomes c/4 and C#4 becomes c#/4 |
| VexFlowNoteDisplay.VexKeyWithoutOctaveDigit | src/components/GameEngine/VexFlowNoteDisplay.tsx:38-45 | without a 4 or 5 the key is only lower-cased |
| VexFlowNoteDisplay.PoolVexKey | src/components/GameEngine/VexFlowNoteDisplay.tsx:38-45 | a pool pitch such as E5 is engraved at e/5 |
| VexFlowNoteDisplay.PoolVexKeysDistinct | src/components/GameEngine/VexFlowNoteDisplay.tsx:38-51 | distinct pool pitches get distinct VexFlow keys |
| VexFlowNoteDisplay.StaveNoteFor | src/components/GameEngine/VexFlowNoteDisplay.tsx:35-61 | a stave note exactly with a note, with its VexFlow key, a sharp exactly when the pitch has '#', and the hint colour exactly when the hint is on |
| VexFlowNoteDisplay.HintChangesOnlyStyle | src/components/GameEngine/VexFlowNoteDisplay.tsx:59-61 | switching the hint changes the colouring and neither the key nor the accidental |
| VexFlowNoteDisplay.PoolStaveNote | src/components/GameEngine/VexFlowNoteDisplay.tsx:54-56 | a pool note is engraved at letter/octave without a sharp |
| VexFlowNoteDisplay.HintTextAsWrittenShowsMojibake | src/components/GameEngine/VexFlowNoteDisplay.tsx:79 | as written, C#4's caption reads "Câ™¯4": two characters too long and without a sharp sign |
| VexFlowNoteDisplay.HintTextAsWritten | src/components/GameEngine/VexFlowNoteDisplay.tsx:79 | the caption as written is two characters longer than prefix and pitch whenever the pitch has a '#' |
| VexFlowNoteDisplay.HintText | src/components/GameEngine/VexFlowNoteDisplay.tsx:79 | the intended caption is the prefix followed by as many characters as the pitch has |
| VexFlowNoteDisplay.HintTextSpellsPitch | src/components/GameEngine/VexFlowNoteDisplay.tsx:77-81 | the intended caption has the pitch's length, its first '#' shown as ♯ and every other character kept |
| VexFlowNoteDisplay.HintTextExamples | src/components/GameEngine/VexFlowNoteDisplay.tsx:79 | the intended caption of C#4 reads "C♯4", and a pitch without '#' is shown as it is |
| VexFlowNoteDisplay.HintCaption | src/components/GameEngine/VexFlowNoteDisplay.tsx:77-81 | a caption exactly with a note and the hint on, spelling the pitch |
| ProgressBar.Times100 | src/components/UI/ProgressBar.tsx:10 | multiplying by 100 scales a finite value and keeps NaN and the infinities |
| ProgressBar.Percentage | src/components/UI/ProgressBar.tsx:10 | 100 * current / total for a nonzero total; for a zero total NaN when current is 0, else the infinity of current's sign |
| ProgressBar.PigShown | src/components/UI/ProgressBar.tsx:22 | the pig shows for a finite fill exactly when it is at least 10, and never for NaN |
| ProgressBar.PigThreshold | src/components/UI/ProgressBar.tsx:10-22 | the pig shows iff 10 * current >= total for a positive total, iff 10 * current <= total for a negative one, and iff current > 0 for a zero total |
| ProgressBar.PercentageBounds | src/components/UI/ProgressBar.tsx:10 | with 0 <= current <= total and total > 0 the fill is finite, within 0..100, and 100 at the end |
| ProgressBar.Caption | src/components/UI/ProgressBar.tsx:15 | the caption is "Progress: ", the current count, " / " and the total, in decimal |
| ProgressBar.SplitAtSeparator | src/components/UI/ProgressBar.tsx:15 | two space-free texts joined by " / " split back apart in only one way |
| ProgressBar.CaptionDeterminesNumbers | src/components/UI/ProgressBar.tsx:15 | equal captions come only from equal counts and totals, so the caption gives both numbers back |
| ProgressBar.PigAfterFirstNote | src/components/GameEngine/GameController.tsx:133-136 | in a ten-note level the pig appears exactly from the first completed note |
| ProgressBar.ProgressExamples | src/components/UI/ProgressBar.tsx:10-22 | 5 of 10 reads "Progress: 5 / 10" at 50%; 0 of 10 is 0% without the pig; 1 of 10 is 10% with it; 0 of 0 is NaN without it |

## Left out

- Audio is left out. Volume, sound-effect settings and the played notes are
  not modelled. The success, error and level-complete sounds appear only as
  cues in the controller's trace. `handleKeyPress` awaits `playNote` before
  forwarding, and the model forwards at once.
- Timers are left out. These are the 1.5 s reset of the pig's mood to idle
  and the 2 s delay before `onLevelComplete`. The model reports the
  completion at once.
- Storage I/O is left out. `localStorage` and JSON are not modelled. Loading
  takes an already-parsed `SaveData` whose missing fields are `None`, and a
  JavaScript-falsy saved value (0, "") is treated like a present one.
  `saveProgress` writes the progress as it was before the merge (a stale
  closure) and is not modelled.
- React's scheduling is left out. The model applies state updates in order,
  with no batching. `handleNoteSelect` reads the rendered `gameState` for its
  checks and `prev` for its updates, and the model treats them as one state.
  The complete effect runs after a right answer only.
- Drawing is left out: CSS classes, SVG and VexFlow calls, pixel widths
  other than the note offset, the mascot (`PigMascot`) and the clef picker
  (`ClefSelector`).
- The session's achievements list is carried and never changed, as in the
  source. The `SaveData` fields `userId` and `statistics` and the
  `GameStatistics` record (src/types/game.ts:53-67) are not modelled, because
  nothing in the core reads or writes them.
- The test files are not modelled. Some of them target an older interface
  (a `clef` prop, entries without `bestScore`).
- GameControl.SpeedBonus: scores and accuracies are exact reals, not IEEE
  doubles, so rounding is not modelled. The bound of at most 1000 is stated
  only for non-negative response times.
- Prelude.IntToString: prints every digit. JavaScript prints 10^21 and
  above in exponent form ("1e+21"), and counters past 2^53 lose precision as
  doubles. The model's integers are unbounded. The game's counters stay far
  below both limits.
- Prelude.ToLower: lower-cases ASCII capitals only, which covers every pitch
  name the game uses.
- PianoKeyboard.OctaveRange: an empty list or a non-numeric octave gives
  `None`, standing for the infinite or NaN bounds under which the source's
  loop runs zero times. `BuildKeys` then builds no keys, as the source does.

## Findings

| source | as written | input that shows it | evidently intended | confidence | as-written member | corrected member |
|---|---|---|---|---|---|---|
| src/components/GameEngine/VexFlowNoteDisplay.tsx:79 | the hint caption replaces '#' with "â™¯", which is the UTF-8 bytes of ♯ (U+266F) read as Windows-1252 | pitch "C#4" gives the caption "Hint: This note is Câ™¯4" | the sharp sign ♯, as `NoteDisplay.tsx` draws it at line 59 | high; not executed | VexFlowNoteDisplay.HintTextAsWrittenShowsMojibake | VexFlowNoteDisplay.HintTextSpellsPitch |
| src/components/GameEngine/GameController.tsx:71 | a right answer sets `strikes` to 0, and the level ends only on a right answer, so `calculateOinks` (:107-112) always sees 0 strikes and returns 3 | five misses, then ten right answers: the formula rates 10 / (10 + 15) = 40%, 1 oink, but 3 are handed over | the tier counts every miss of the level, so all three tiers can occur | medium; not executed | GameControl.AsWrittenFiveMissesEarnThree | GameControl.LevelOinksScenarios |

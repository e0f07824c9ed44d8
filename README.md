# Target Game session engine, in Dafny

This project models the game engine of the browser "whack-a-target" game in
`script.js`. A particle-cloud target appears at random points of a play field
and the player clicks it before a 30-second clock runs out. Each hit scores one
point. Every fifth point raises the level, which shortens the spawn delay,
shrinks the target's points and changes its colour. A local leaderboard keeps
the ten best scores.

The page keeps its state in module-level variables and changes it in event
handlers. The model keeps that form. The variables are the fields of one
`Game.Session` object, and each handler is a method of it. Every event handler
keeps the object invariant `Valid()` and states the whole new state. The four
helpers the handlers call part-way (`SetState`, `SaveGameData`, `SpawnTarget`
and `RecordScore`) state only the fields they change; the invariant is
re-established by the handler around them. The invariant says, among other
things:

- `level == 1 + score / 5` at all times;
- the spawn delay is the closed-form value for the current level, so it never
  drops below 500 ms;
- the point size stays between its floor and its start value;
- the colour and shape indices are valid palette and shape indices;
- a running or paused game has time left and a live interval timer;
- the game-over screen never shows a score above the high score.

Three files, one module each:

- `progression.dfy` (`Progression`) holds the rules as constants and pure
  functions: the level for a score, the spawn-delay and point-size steps with
  their floors, the palette and shape cycles, and the spawn coordinates.
  Point sizes are integer thousandths: 0.05 is 50, the floor 0.02 is 20, the
  step 0.005 is 5.
- `ranking.dfy` (`Ranking`) models the leaderboard. `SaveScore` appends the new
  entry, sorts the whole list in place on an array with an insertion sort, and
  keeps the first ten. Its result is tied to `SortDesc`, a stable descending
  sort. The lemmas prove that `SortDesc` is sorted, is a permutation and is
  stable, which pins it down uniquely. So the result is the one
  `Array.prototype.sort` gives, since that sort is stable. Further lemmas say
  exactly where the new entry ends up.
- `session.dfy` (`Game`) holds the `Session` class and its handlers, plus
  `ClockRunsOut`. `ClockRunsOut` shows that a game which is never paused is
  still running after 29 ticks and is over after the 30th.

Browser inputs become parameters:

- `hit`: whether the raycast hit the target.
- `now`: the value of `performance.now()`.
- `drawX`, `drawY`: the two `Math.random()` draws of a spawn, each in [0, 1).
- `today`: the `toLocaleDateString()` text.

localStorage is modelled as three fields: `savedSettings`, `savedHighScore` and
`savedBoard`. An absent leaderboard is the empty sequence.

A few behaviours of the code are modelled exactly as written, though they may
look surprising:

- `startGame` does not reset the target's point size or colour. The mesh lives
  on from the previous game.
- The shape button builds a fresh mesh. That resets the point size to 0.05,
  takes the current level's colour and puts the target at the origin until the
  timeout respawns it.
- The pause screen's main-menu button leaves `isPaused` set until the next
  `startGame`.
- Each shape-change timeout clears the scoring lock even when a later press is
  still pending.
- The menu-button handlers have no guards of their own. They are modelled
  unguarded, and the invariant holds whichever screen they are pressed from.

`script.js` has no game modes, combos, lives, time bonuses or multiplayer, and
neither does the model.

## Model

| member | source | states |
|---|---|---|
| `Progression.LevelOf` | script.js:226-227 | the level for a score is at least 1, and the score lies in that level's band of five hits |
| `Progression.LevelsUp` | script.js:302 | `score % 5 === 0`, the level-up test of a hit; `LevelOfNextHit` proves it holds exactly when the hit raises the level |
| `Progression.LevelOfNextHit` | script.js:298-303 | one more hit raises the level by exactly one if the new score is a multiple of five, and by zero otherwise |
| `Progression.NextSpawnDelay` | script.js:304 | after a level-up the delay is at least 500 ms, at most 200 ms shorter, never longer, and exactly 200 ms shorter while that stays above the floor |
| `Progression.SpawnDelayAt` | script.js:229 | the delay at any level lies between 500 ms and 1500 ms |
| `Progression.SpawnDelayStepsDown` | script.js:304 | level 1 starts at 1500 ms; each level-up takes the delay from one level's value to the next; from level 6 on it is 500 ms |
| `Progression.NextPointSize` | script.js:305 | after a level-up the point size is at least 0.02, at most 0.005 smaller, and exactly 0.005 smaller while that stays above the floor |
| `Progression.PaletteIndex` | script.js:306 | `(level - 1) % colorMap.length` is a valid palette index, and equals `level - 1` for the first five levels |
| `Progression.PaletteRepeats` | script.js:306 | the colour repeats every five levels |
| `Progression.NextShape` | script.js:372 | the next shape index is in range, differs from the current one, and is one more except at the end of the list |
| `Progression.ShapeAfter` | script.js:372 | any number of shape presses leaves a valid shape index |
| `Progression.ShapeAfterIsModular` | script.js:372 | `n` presses advance the shape by `n` places modulo five |
| `Progression.ShapeCycleCloses` | script.js:372 | five presses bring back the starting shape |
| `Progression.SpawnX` | script.js:211 | a spawn's x coordinate lies in [-3, 3) |
| `Progression.SpawnY` | script.js:212 | a spawn's y coordinate lies in [-2, 2) |
| `Ranking.SortDesc` | script.js:103 | `sort((a, b) => b.score - a.score)` as an insertion sort; `SortDescPermutes`, `SortDescSorted` and `SortDescStable` prove it a permutation, ordered by non-increasing score and stable |
| `Ranking.Top` | script.js:104 | `slice(0, 10)`: a prefix of at most ten entries, the whole list when it has ten or fewer, and exactly ten otherwise |
| `Ranking.InsertDescPermutes` | script.js:103 | inserting adds exactly the one entry |
| `Ranking.SortDescPermutes` | script.js:103 | the sort has the same length and the same entries as its input |
| `Ranking.InsertDescSorted` | script.js:103 | inserting into a sorted list keeps it sorted |
| `Ranking.InsertDescStable` | script.js:103 | inserting puts the new entry after all older entries of the same score |
| `Ranking.InsertDescAt` | script.js:103 | the new entry lands at the point where the scores drop below its own |
| `Ranking.SortDescSorted` | script.js:103 | the sort orders entries by non-increasing score |
| `Ranking.SortDescStable` | script.js:103 | the sort is stable: for every score value, the entries with that score keep their input order |
| `Ranking.SortDescCount` | script.js:103 | sorting keeps the number of entries that reach any given score |
| `Ranking.SavedBoardShape` | script.js:104 | the saved board has at most ten entries and exactly min(old count + 1, 10). It is sorted, and every entry is an old entry or the new one |
| `Ranking.NewEntryPlacement` | script.js:102-104 | let p be the number of older entries scoring at least as much as the new one. If p < 10 the new entry is at rank p. Otherwise it is dropped and the board is the old board's top ten |
| `Ranking.NewEntryKeptWhenRoom` | script.js:102-104 | when fewer than ten entries were stored, the new entry is always kept |
| `Ranking.InsertLast` | script.js:103 | one in-place insertion pass leaves the array prefix equal to `InsertDesc` of the sorted prefix, and leaves the rest alone |
| `Ranking.SaveScore` | script.js:100-106 | the stored board becomes the first ten of the stable descending sort of the old board plus the new entry. It is sorted and has at most ten entries |
| `Game.Session.constructor` | script.js:62-86 | page load: initial counters, settings and high score from storage (defaults when absent), main menu, no timer |
| `Game.Session.SetState` | script.js:127-128 | only the current screen changes |
| `Game.Session.SaveGameData` | script.js:89-92 | storage receives the current settings and high score |
| `Game.Session.SpawnTarget` | script.js:208-215 | if paused or not playing, nothing moves. Otherwise the target moves to the spawn point of the draws, inside the play field, and the reaction start is `now` |
| `Game.Session.StartGame` | script.js:225-247 | from any screen: score 0, level 1, 30 s, 1500 ms, not paused, not shape-changing, playing, a target spawned, the timer running; all else unchanged |
| `Game.Session.EndGame` | script.js:249-259 | game over and the timer stopped. The high score becomes max(old, score), and settings and high score are saved only when it rose. The score is always added to the leaderboard, even 0 |
| `Game.FinalEntry` | script.js:102 | the entry pushed by `saveScore(gameSettings.playerName, score)` at line 259: the player's name, the score and today's date; `EndGame`, `RecordScore` and `Tick` state the board through it |
| `Game.Session.RecordScore` | script.js:259 | the stored board becomes `SaveScore` of the old board and the player's entry |
| `Game.Session.Tick` | script.js:238-246 | nothing changes unless playing and unpaused. Otherwise the clock drops by exactly 1, and the game ends when it reaches 0, with `EndGame`'s whole effect: the high score, its storage only when it rose, and the leaderboard entry. The game is still playing afterwards exactly when it was playing with more than 1 s left |
| `Game.ClockRunsOut` | script.js:238-245 | a full clock runs out after exactly thirty unpaused ticks, ending in game over with 0 s left; `Tick`'s contract keeps the game running after each earlier one |
| `Game.Session.PauseGame` | script.js:269-274 | only from playing: paused and `isPaused`. Every other call is a no-op. Score, level and clock are untouched |
| `Game.Session.ResumeGame` | script.js:276-281 | only from paused: playing and not `isPaused`. Every other call is a no-op. Score, level and clock are untouched |
| `Game.Session.Click` | script.js:283-311 | through `ClickEffect`: the score rises by exactly 1 when playing, unpaused, not shape-changing and hit, and nothing at all changes otherwise. The level rises exactly when the new score is a multiple of five, and then the delay, point size and colour step. A scoring hit respawns the target |
| `Game.Session.Touch` | script.js:360-365 | a touch has the same `ClickEffect` as a click |
| `Game.Session.ShapeButton` | script.js:367-377 | nothing changes unless playing and unpaused. Otherwise scoring is locked, the shape cycles, and a fresh mesh takes the level's colour, start size and origin position. One more timeout is pending |
| `Game.Session.ShapeTimeout` | script.js:378-381 | the lock is released and one timeout fewer is pending. The target respawns only while playing and unpaused |
| `Game.Session.KeyDown` | script.js:385-401 | Escape pauses a running game or resumes a paused one. Space only resumes. Every other key or screen is a no-op |
| `Game.Session.ShowLeaderboard` | script.js:317 | the leaderboard screen is shown |
| `Game.Session.ShowSettings` | script.js:318 | the settings screen is shown |
| `Game.Session.BackToMenu` | script.js:320-321 | the back buttons (and the same handler on the game-over screen, line 328) show the main menu |
| `Game.Session.MenuFromPause` | script.js:323-326 | the timer stops and the main menu is shown |
| `Game.Session.ClearLeaderboard` | script.js:337-340 | the stored leaderboard is removed, keeping the invariant |
| `Game.Session.SetPlayerName` | script.js:343-346 | the name becomes the input, or "Anonymous" when the input is empty, and the settings are saved |
| `Game.Session.SetSound` | script.js:348-351 | the sound flag is set and the settings are saved |
| `Game.Session.SetParticles` | script.js:353-357 | the particle flag is set and the settings are saved |

## Left out

- `sw.js` (service-worker caching) is network and Cache API I/O with no game logic.
- Three.js scene setup, `createParticleShape`, the background particles,
  `animate` and the resize handler are rendering and random floating-point
  geometry. Of the target mesh, only its point size, colour slot and position
  are modelled.
- The DOM work is not modelled: the menu overlays in `setState`, `updateUI`,
  `displayLeaderboard`, the final-score HTML and the CSS flash on the score.
  The "Added to Leaderboard!" line appears whenever the score is above 0, even
  when the score does not make the top ten. It is display only.
- Raycasting is replaced by the `hit` input. The pointer coordinates it uses
  are not modelled.
- `Math.random`, `performance.now` and the date string are inputs. The
  reaction time computed on a hit is only logged, so it is left out.
- Coordinates are Dafny reals rather than IEEE doubles; rounding is not modelled.
- `Progression.NextPointSize`: the point size is exact integer thousandths.
  The page's repeated `size - 0.005` on doubles can differ from it in the last
  bits.
- The JSON encoding and `parseInt` of stored values are not modelled. A stored
  value is either present as a well-formed value or absent. The code has no
  recovery for corrupt JSON, and none is modelled.
- `setInterval` and `setTimeout` scheduling appears only as explicit events.
  `Tick` is one firing of the live interval. `ShapeTimeout` is one firing of a
  pending shape timeout.
- The `preventDefault()` call on Space (line 398) only stops the browser from
  scrolling the page; it is not modelled.
- A touch may also produce a synthesised click from the browser. Whether it
  does is browser behaviour and is not modelled.
- `Ranking.SaveScore` sorts with an insertion sort, not the engine's own
  algorithm. Any stable sort gives the same list, so only the result is claimed.

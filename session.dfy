/**
 * The session engine of the target game: the module-level variables of the
 * page script gathered into one `Session` object, and the event handlers that
 * change them (play, the one-second tick, pause and resume, clicks and
 * touches, the shape button and its half-second timeout, the menu buttons,
 * the keyboard, the settings inputs).
 *
 * What the browser supplies becomes a parameter: whether the ray hit the
 * target (`hit`), the value of `performance.now()` (`now`), the two
 * `Math.random()` draws of a spawn (`drawX`, `drawY`, each in [0, 1)) and
 * today's locale date string (`today`). localStorage is the three `saved`
 * fields.
 */
module Game {
  import opened Progression
  import Ranking

  /** The screens the page can show; exactly one is current. */
  datatype GameState = Menu | Playing | Paused | GameOver | Leaderboard | Settings

  /** The player's settings as stored. */
  datatype GameSettings = GameSettings(playerName: string, soundEnabled: bool, particlesEnabled: bool)

  const DefaultSettings: GameSettings := GameSettings("Anonymous", true, true)

  datatype Option<T> = None | Some(value: T)

  /** The keys the page reacts to; every other key is `OtherKey`. */
  datatype Key = Escape | Space | OtherKey

  /** The leaderboard entry `endGame` records for the current player. */
  function FinalEntry(settings: GameSettings, score: int, today: string): Ranking.Entry {
    Ranking.Entry(settings.playerName, score, today)
  }

  class Session {
    var state: GameState
    var settings: GameSettings
    var score: int
    var highScore: int
    var level: int
    /** Seconds left on the clock. */
    var gameTime: int
    /** Milliseconds between spawns; the page records it but schedules nothing with it. */
    var spawnDelay: int
    var shapeIndex: int
    var isPaused: bool
    var isShapeChanging: bool
    /** `performance.now()` at the last spawn; `null` until the first one. */
    var reactionStart: Option<real>

    /** Whether the one-second interval is scheduled. */
    var timerRunning: bool
    /** Shape-change timeouts scheduled and not yet run. */
    var pendingShapeTimeouts: nat

    /** The target mesh: its point size (thousandths), palette slot and position. */
    var pointSize: int
    var colorIndex: int
    var targetX: real
    var targetY: real

    /** What localStorage holds: settings, high score and leaderboard (an absent leaderboard is empty). */
    var savedSettings: Option<GameSettings>
    var savedHighScore: Option<int>
    var savedBoard: seq<Ranking.Entry>

    /** The invariant every handler keeps. */
    ghost predicate Valid()
      reads this
    {
      && Counters()
      && ((state == Playing || state == Paused) ==> gameTime >= 1 && timerRunning)
      && (state == Playing ==> !isPaused)
      && (state == Paused ==> isPaused)
      && (state == GameOver ==> score <= highScore)
    }

    /** The part of `Valid` about the counters and the target alone: it also
        holds at the moment the tick calls `endGame`, with the clock at zero. */
    ghost predicate Counters()
      reads this
    {
      && score >= 0
      && level == LevelOf(score)
      && spawnDelay == SpawnDelayAt(level)
      && 0 <= gameTime <= StartTime
      && (isShapeChanging ==> pendingShapeTimeouts > 0)
      && MinPointSize <= pointSize <= StartPointSize
      && 0 <= colorIndex < |Palette|
      && 0 <= shapeIndex < |Shapes|
      && -3.0 <= targetX < 3.0
      && -2.0 <= targetY < 2.0
    }

    /** A click can score: the game is running, not paused and no shape change is under way. */
    predicate AcceptsHit()
      reads this
    {
      state == Playing && !isPaused && !isShapeChanging
    }

    /** Page load: the variables' initial values, then `loadGameData` and the main menu. */
    constructor (storedSettings: Option<GameSettings>, storedHighScore: Option<int>, storedBoard: seq<Ranking.Entry>)
      ensures Valid()
      ensures state == Menu && !timerRunning && pendingShapeTimeouts == 0
      ensures score == 0 && level == 1 && gameTime == StartTime && spawnDelay == StartSpawnDelay
      ensures shapeIndex == 0 && colorIndex == 0 && pointSize == StartPointSize
      ensures !isPaused && !isShapeChanging && reactionStart == None
      ensures targetX == 0.0 && targetY == 0.0
      ensures settings == (if storedSettings.Some? then storedSettings.value else DefaultSettings)
      ensures highScore == (if storedHighScore.Some? then storedHighScore.value else 0)
      ensures savedSettings == storedSettings && savedHighScore == storedHighScore && savedBoard == storedBoard
    {
      state := Menu;
      settings := if storedSettings.Some? then storedSettings.value else DefaultSettings;
      score, level, gameTime := 0, 1, StartTime;
      highScore := if storedHighScore.Some? then storedHighScore.value else 0;
      spawnDelay, shapeIndex, reactionStart := StartSpawnDelay, 0, None;
      isPaused, isShapeChanging := false, false;
      timerRunning, pendingShapeTimeouts := false, 0;
      pointSize, colorIndex := StartPointSize, 0;
      targetX, targetY := 0.0, 0.0;
      savedSettings, savedHighScore, savedBoard := storedSettings, storedHighScore, storedBoard;
    }

    /** `setState`: switch screens. */
    method SetState(newState: GameState)
      modifies this`state
      ensures state == newState
    {
      state := newState;
    }

    /** `saveGameData`: write settings and high score to storage. */
    method SaveGameData()
      modifies this`savedSettings, this`savedHighScore
      ensures savedSettings == Some(settings) && savedHighScore == Some(highScore)
    {
      savedSettings := Some(settings);
      savedHighScore := Some(highScore);
    }

    /** `spawnTarget`: move the target to a random point of the play field, unless
        the game is paused or not running. */
    method SpawnTarget(now: real, drawX: real, drawY: real)
      requires 0.0 <= drawX < 1.0 && 0.0 <= drawY < 1.0
      modifies this`targetX, this`targetY, this`reactionStart
      ensures if !isPaused && state == Playing
        then targetX == SpawnX(drawX) && targetY == SpawnY(drawY) && reactionStart == Some(now)
        else targetX == old(targetX) && targetY == old(targetY) && reactionStart == old(reactionStart)
      ensures -3.0 <= old(targetX) < 3.0 && -2.0 <= old(targetY) < 2.0 ==>
        -3.0 <= targetX < 3.0 && -2.0 <= targetY < 2.0
    {
      if isPaused || state != Playing {
        return;
      }
      targetX, targetY := SpawnX(drawX), SpawnY(drawY);
      reactionStart := Some(now);
    }

    /** `startGame` (the play, play-again and restart buttons): reset the
        counters, show the game, spawn a target and restart the interval. */
    method StartGame(now: real, drawX: real, drawY: real)
      requires Valid()
      requires 0.0 <= drawX < 1.0 && 0.0 <= drawY < 1.0
      modifies this`score, this`level, this`gameTime, this`spawnDelay, this`isPaused,
        this`isShapeChanging, this`state, this`timerRunning,
        this`targetX, this`targetY, this`reactionStart
      ensures Valid()
      ensures state == Playing && timerRunning
      ensures score == 0 && level == 1 && gameTime == StartTime && spawnDelay == StartSpawnDelay
      ensures !isPaused && !isShapeChanging
      ensures targetX == SpawnX(drawX) && targetY == SpawnY(drawY) && reactionStart == Some(now)
    {
      score := 0;
      level := 1;
      gameTime := StartTime;
      spawnDelay := StartSpawnDelay;
      isPaused := false;
      isShapeChanging := false;
      SetState(Playing);
      SpawnTarget(now, drawX, drawY);
      timerRunning := true;
    }

    /** `endGame`: stop the clock, show the game-over screen, keep a new high
        score and always add the score to the leaderboard. */
    method EndGame(today: string)
      requires Counters()
      modifies this`timerRunning, this`state, this`highScore,
        this`savedSettings, this`savedHighScore, this`savedBoard
      ensures Valid()
      ensures state == GameOver && !timerRunning
      ensures highScore == (if old(score) > old(highScore) then score else old(highScore))
      ensures score <= highScore
      ensures if old(score) > old(highScore)
        then savedSettings == Some(settings) && savedHighScore == Some(score)
        else savedSettings == old(savedSettings) && savedHighScore == old(savedHighScore)
      ensures savedBoard == Ranking.Top(Ranking.SortDesc(old(savedBoard) + [FinalEntry(settings, score, today)]))
      ensures |savedBoard| <= Ranking.Capacity && Ranking.SortedDesc(savedBoard)
    {
      timerRunning := false;
      SetState(GameOver);
      if score > highScore {
        highScore := score;
        SaveGameData();
      }
      RecordScore(today);
    }

    /** `saveScore(gameSettings.playerName, score)`: add the session's score to the stored leaderboard. */
    method RecordScore(today: string)
      modifies this`savedBoard
      ensures savedBoard == Ranking.Top(Ranking.SortDesc(old(savedBoard) + [FinalEntry(settings, score, today)]))
      ensures |savedBoard| <= Ranking.Capacity && Ranking.SortedDesc(savedBoard)
    {
      savedBoard := Ranking.SaveScore(savedBoard, settings.playerName, score, today);
    }

    /** The body of the one-second interval: count down while the game runs
        unpaused, and end the game when the clock reaches zero. */
    method Tick(today: string)
      requires Valid() && timerRunning
      modifies this`gameTime, this`timerRunning, this`state, this`highScore,
        this`savedSettings, this`savedHighScore, this`savedBoard
      ensures Valid()
      ensures !(old(state) == Playing && !old(isPaused)) ==> unchanged(this)
      ensures old(state) == Playing && !old(isPaused) ==> gameTime == old(gameTime) - 1
      ensures old(state) == Playing && !old(isPaused) && gameTime > 0 ==> unchanged(this`state, this`timerRunning,
        this`highScore, this`savedSettings, this`savedHighScore, this`savedBoard)
      ensures old(state) == Playing && !old(isPaused) && gameTime <= 0 ==>
        && state == GameOver && !timerRunning
        && highScore == (if old(score) > old(highScore) then score else old(highScore))
        && (if old(score) > old(highScore)
            then savedSettings == Some(settings) && savedHighScore == Some(score)
            else savedSettings == old(savedSettings) && savedHighScore == old(savedHighScore))
        && savedBoard == Ranking.Top(Ranking.SortDesc(old(savedBoard) + [FinalEntry(settings, score, today)]))
        && |savedBoard| <= Ranking.Capacity && Ranking.SortedDesc(savedBoard)
      ensures state == Playing <==> old(state) == Playing && old(gameTime) > 1
    {
      if !isPaused && state == Playing {
        gameTime := gameTime - 1;
        if gameTime <= 0 {
          EndGame(today);
        }
      }
    }

    /** `pauseGame` (the pause button): only a running game pauses. */
    method PauseGame()
      requires Valid()
      modifies this`isPaused, this`state
      ensures Valid()
      ensures old(state) == Playing ==> state == Paused && isPaused
      ensures old(state) != Playing ==> state == old(state) && isPaused == old(isPaused)
    {
      if state == Playing {
        isPaused := true;
        SetState(Paused);
      }
    }

    /** `resumeGame` (the resume button): only a paused game resumes. */
    method ResumeGame()
      requires Valid()
      modifies this`isPaused, this`state
      ensures Valid()
      ensures old(state) == Paused ==> state == Playing && !isPaused
      ensures old(state) != Paused ==> state == old(state) && isPaused == old(isPaused)
    {
      if state == Paused {
        isPaused := false;
        SetState(Playing);
      }
    }

    /** What a click (or a touch) does, between the state before and after it:
        a hit while the game accepts hits scores one point and respawns the
        target, and when the new score is a multiple of five the level rises
        and the spawn delay, point size and colour step; anything else changes
        nothing. */
    twostate predicate ClickEffect(hit: bool, now: real, drawX: real, drawY: real)
      requires 0.0 <= drawX < 1.0 && 0.0 <= drawY < 1.0 && level >= 1
      reads this
    {
      && score == old(score) + (if old(AcceptsHit()) && hit then 1 else 0)
      && (!(old(AcceptsHit()) && hit) ==> unchanged(this))
      && (old(AcceptsHit()) && hit ==>
            targetX == SpawnX(drawX) && targetY == SpawnY(drawY) && reactionStart == Some(now))
      && (old(AcceptsHit()) && hit && LevelsUp(score) ==>
            && level == old(level) + 1
            && spawnDelay == NextSpawnDelay(old(spawnDelay))
            && pointSize == NextPointSize(old(pointSize))
            && colorIndex == PaletteIndex(level))
      && (!LevelsUp(score) ==>
            level == old(level) && spawnDelay == old(spawnDelay) && pointSize == old(pointSize) && colorIndex == old(colorIndex))
    }

    /** `handleClick`: a click that hits the target while the game accepts hits
        scores one; every fifth point raises the level, shortens the spawn
        delay, shrinks the points and recolours the target. */
    method Click(hit: bool, now: real, drawX: real, drawY: real)
      requires Valid()
      requires 0.0 <= drawX < 1.0 && 0.0 <= drawY < 1.0
      modifies this`score, this`level, this`spawnDelay, this`pointSize, this`colorIndex,
        this`targetX, this`targetY, this`reactionStart
      ensures Valid()
      ensures ClickEffect(hit, now, drawX, drawY)
    {
      if state != Playing || isPaused || isShapeChanging {
        return;
      }
      if hit {
        LevelOfNextHit(score);
        score := score + 1;
        if score % HitsPerLevel == 0 {
          SpawnDelayStepsDown(level);
          level := level + 1;
          spawnDelay := NextSpawnDelay(spawnDelay);
          pointSize := NextPointSize(pointSize);
          colorIndex := PaletteIndex(level);
        }
        SpawnTarget(now, drawX, drawY);
      }
    }

    /** The touchstart handler: forwards the touch as a click while the game runs unpaused. */
    method Touch(hit: bool, now: real, drawX: real, drawY: real)
      requires Valid()
      requires 0.0 <= drawX < 1.0 && 0.0 <= drawY < 1.0
      modifies this`score, this`level, this`spawnDelay, this`pointSize, this`colorIndex,
        this`targetX, this`targetY, this`reactionStart
      ensures Valid()
      ensures ClickEffect(hit, now, drawX, drawY)
    {
      if state == Playing && !isPaused {
        Click(hit, now, drawX, drawY);
      }
    }

    /** The shape button: while the game runs unpaused, replace the target by a
        fresh mesh of the next shape in the current level's colour, and lock
        scoring until the timeout runs. */
    method ShapeButton()
      requires Valid()
      modifies this`isShapeChanging, this`shapeIndex, this`colorIndex, this`pointSize,
        this`targetX, this`targetY, this`pendingShapeTimeouts
      ensures Valid()
      ensures !(old(state) == Playing && !old(isPaused)) ==> unchanged(this)
      ensures old(state) == Playing && !old(isPaused) ==>
        && isShapeChanging
        && shapeIndex == NextShape(old(shapeIndex))
        && colorIndex == PaletteIndex(level)
        && pointSize == StartPointSize
        && targetX == 0.0 && targetY == 0.0
        && pendingShapeTimeouts == old(pendingShapeTimeouts) + 1
    {
      if state != Playing || isPaused {
        return;
      }
      isShapeChanging := true;
      shapeIndex := NextShape(shapeIndex);
      colorIndex := PaletteIndex(level);
      pointSize := StartPointSize;
      targetX, targetY := 0.0, 0.0;
      pendingShapeTimeouts := pendingShapeTimeouts + 1;
    }

    /** The shape change's timeout, half a second after the press: respawn the
        target and unlock scoring. */
    method ShapeTimeout(now: real, drawX: real, drawY: real)
      requires Valid() && pendingShapeTimeouts > 0
      requires 0.0 <= drawX < 1.0 && 0.0 <= drawY < 1.0
      modifies this`isShapeChanging, this`pendingShapeTimeouts,
        this`targetX, this`targetY, this`reactionStart
      ensures Valid()
      ensures !isShapeChanging && pendingShapeTimeouts == old(pendingShapeTimeouts) - 1
      ensures state == Playing && !isPaused ==>
        targetX == SpawnX(drawX) && targetY == SpawnY(drawY) && reactionStart == Some(now)
      ensures !(state == Playing && !isPaused) ==>
        targetX == old(targetX) && targetY == old(targetY) && reactionStart == old(reactionStart)
    {
      SpawnTarget(now, drawX, drawY);
      isShapeChanging := false;
      pendingShapeTimeouts := pendingShapeTimeouts - 1;
    }

    /** The keydown handler: Escape pauses a running game or resumes a paused
        one; Space resumes a paused one; nothing else reacts. */
    method KeyDown(key: Key)
      requires Valid()
      modifies this`isPaused, this`state
      ensures Valid()
      ensures key == Escape && old(state) == Playing ==> state == Paused && isPaused
      ensures (key == Escape || key == Space) && old(state) == Paused ==> state == Playing && !isPaused
      ensures !((key == Escape || key == Space) && old(state) in {Playing, Paused}) ==>
        state == old(state) && isPaused == old(isPaused)
      ensures key == Space && old(state) == Playing ==> state == Playing && isPaused == old(isPaused)
    {
      match key {
        case Escape =>
          if state == Playing {
            PauseGame();
          } else if state == Paused {
            ResumeGame();
          }
        case Space =>
          if state == Paused {
            ResumeGame();
          }
        case OtherKey =>
      }
    }

    /** The leaderboard button of the main menu. */
    method ShowLeaderboard()
      requires Valid()
      modifies this`state
      ensures Valid() && state == Leaderboard
    {
      SetState(Leaderboard);
    }

    /** The settings button of the main menu. */
    method ShowSettings()
      requires Valid()
      modifies this`state
      ensures Valid() && state == Settings
    {
      SetState(Settings);
    }

    /** The back buttons of the leaderboard and settings screens and the
        main-menu button of the game-over screen. */
    method BackToMenu()
      requires Valid()
      modifies this`state
      ensures Valid() && state == Menu
    {
      SetState(Menu);
    }

    /** The main-menu button of the pause screen: stop the clock and leave the
        game. `isPaused` stays set until the next `startGame`. */
    method MenuFromPause()
      requires Valid()
      modifies this`timerRunning, this`state
      ensures Valid() && state == Menu && !timerRunning
    {
      timerRunning := false;
      SetState(Menu);
    }

    /** The clear button of the leaderboard screen: remove the stored leaderboard. */
    method ClearLeaderboard()
      requires Valid()
      modifies this`savedBoard
      ensures Valid()
      ensures savedBoard == []
    {
      savedBoard := [];
    }

    /** The player-name input: an empty name falls back to "Anonymous"; the settings are saved. */
    method SetPlayerName(input: string)
      requires Valid()
      modifies this`settings, this`savedSettings, this`savedHighScore
      ensures Valid()
      ensures settings == old(settings).(playerName := if input == "" then "Anonymous" else input)
      ensures savedSettings == Some(settings) && savedHighScore == Some(highScore)
    {
      settings := settings.(playerName := if input == "" then "Anonymous" else input);
      SaveGameData();
    }

    /** The sound toggle. */
    method SetSound(enabled: bool)
      requires Valid()
      modifies this`settings, this`savedSettings, this`savedHighScore
      ensures Valid()
      ensures settings == old(settings).(soundEnabled := enabled)
      ensures savedSettings == Some(settings) && savedHighScore == Some(highScore)
    {
      settings := settings.(soundEnabled := enabled);
      SaveGameData();
    }

    /** The particle toggle (which also shows or hides the background particles, not modelled). */
    method SetParticles(enabled: bool)
      requires Valid()
      modifies this`settings, this`savedSettings, this`savedHighScore
      ensures Valid()
      ensures settings == old(settings).(particlesEnabled := enabled)
      ensures savedSettings == Some(settings) && savedHighScore == Some(highScore)
    {
      settings := settings.(particlesEnabled := enabled);
      SaveGameData();
    }
  }

  /** A fresh game that is never paused ends after exactly thirty ticks of its
      interval: it is still running after twenty-nine and over after the thirtieth. */
  method ClockRunsOut(s: Session, today: string)
    requires s.Valid() && s.state == Playing && s.gameTime == StartTime
    modifies s
    ensures s.Valid() && s.state == GameOver && s.gameTime == 0
    ensures s.score == old(s.score) && s.highScore >= s.score
  {
    var i := 0;
    while i < StartTime - 1
      invariant 0 <= i <= StartTime - 1
      invariant s.Valid() && s.state == Playing && s.gameTime == StartTime - i
      invariant s.score == old(s.score)
    {
      s.Tick(today);
      i := i + 1;
    }
    s.Tick(today);
  }
}

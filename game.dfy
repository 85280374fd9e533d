/** The game session: its active flag, score, string health, theme and clock, the reset and
    start and game-over steps, the fixed-step clock of the animation loop, and the time-based
    theme schedule. */
module Game {
  import opened Dreamscape
  import opened Health
  import opened Score
  import opened Vectors

  /** The animation loop's fixed physics step, in seconds. */
  const TimeStep: real := 1.0 / 60.0
  const ScheduleTransitionDuration: real := 2.0
  const ForestsAfter: real := 60.0
  const CitiesAfter: real := 120.0

  /** The theme the schedule switches to, if any: cities after two minutes unless already
      there, otherwise forests after one minute unless already there. */
  function ScheduledTheme(gameTime: real, current: Theme): (r: Option<Theme>)
    ensures r.Some? ==> r.value != current
  {
    if gameTime > CitiesAfter && current != Cities then Some(Cities)
    else if gameTime > ForestsAfter && current != Forests then Some(Forests)
    else None
  }

  function NextTheme(gameTime: real, current: Theme): Theme {
    match ScheduledTheme(gameTime, current)
    case Some(t) => t
    case None => current
  }

  /** Nothing changes in the first minute; in the second, every theme but forests moves to
      forests and forests stays. */
  lemma ScheduleBeforeTwoMinutes(gameTime: real, current: Theme)
    ensures gameTime <= ForestsAfter ==> ScheduledTheme(gameTime, current) == None
    ensures ForestsAfter < gameTime <= CitiesAfter ==>
      (ScheduledTheme(gameTime, current) == None <==> current == Forests)
    ensures ForestsAfter < gameTime <= CitiesAfter ==> NextTheme(gameTime, current) == Forests
  {
  }

  /** After two minutes every tick changes the theme: cities gives way to forests, anything
      else to cities. */
  lemma ScheduleAfterTwoMinutes(gameTime: real, current: Theme)
    requires gameTime > CitiesAfter
    ensures NextTheme(gameTime, current) != current
    ensures NextTheme(gameTime, current) == if current == Cities then Forests else Cities
  {
  }

  /** The theme after a run of ticks at the given game times. */
  function ThemeAfter(current: Theme, times: seq<real>): Theme
    decreases |times|
  {
    if times == [] then current else ThemeAfter(NextTheme(times[0], current), times[1..])
  }

  /** Past two minutes the theme flips on every tick, so starting from cities it is cities
      again exactly after an even number of ticks, and forests after an odd number. */
  lemma {:induction false} ThemeAlternates(current: Theme, times: seq<real>)
    requires current == Cities || current == Forests
    requires forall i :: 0 <= i < |times| ==> times[i] > CitiesAfter
    ensures ThemeAfter(current, times) == current <==> |times| % 2 == 0
    ensures ThemeAfter(current, times) == Cities || ThemeAfter(current, times) == Forests
    decreases |times|
  {
    if times != [] {
      var next := NextTheme(times[0], current);
      ScheduleAfterTwoMinutes(times[0], current);
      assert forall i :: 0 <= i < |times[1..]| ==> times[1..][i] == times[i + 1];
      ThemeAlternates(next, times[1..]);
    }
  }

  /** The schedule as evidently intended: forests in the second minute, then cities for good.
      Past two minutes the code as written reaches its forests branch whenever the theme is
      cities, so it flips on every tick (`ScheduleAfterTwoMinutes`, `ThemeAlternates`). */
  function IntendedScheduledTheme(gameTime: real, current: Theme): (r: Option<Theme>)
    ensures r.Some? ==> r.value != current
  {
    if gameTime > CitiesAfter then (if current != Cities then Some(Cities) else None)
    else if gameTime > ForestsAfter && current != Forests then Some(Forests)
    else None
  }

  function IntendedNextTheme(gameTime: real, current: Theme): Theme {
    match IntendedScheduledTheme(gameTime, current)
    case Some(t) => t
    case None => current
  }

  /** The theme after a run of ticks under the intended schedule. */
  function IntendedThemeAfter(current: Theme, times: seq<real>): Theme
    decreases |times|
  {
    if times == [] then current else IntendedThemeAfter(IntendedNextTheme(times[0], current), times[1..])
  }

  /** Up to two minutes the intended schedule is the written one. */
  lemma IntendedAgreesUpToTwoMinutes(gameTime: real, current: Theme)
    requires gameTime <= CitiesAfter
    ensures IntendedScheduledTheme(gameTime, current) == ScheduledTheme(gameTime, current)
  {
  }

  /** Under the intended schedule, any non-empty run of ticks past two minutes ends on cities,
      and once there no tick changes the theme again. */
  lemma {:induction false} IntendedThemeSettles(current: Theme, times: seq<real>)
    requires forall i :: 0 <= i < |times| ==> times[i] > CitiesAfter
    ensures times != [] ==> IntendedThemeAfter(current, times) == Cities
    ensures current == Cities ==> IntendedThemeAfter(current, times) == Cities
    decreases |times|
  {
    if times != [] {
      var next := IntendedNextTheme(times[0], current);
      assert next == Cities;
      assert forall i :: 0 <= i < |times[1..]| ==> times[1..][i] == times[i + 1];
      IntendedThemeSettles(next, times[1..]);
    }
  }

  class Session {
    var gameActive: bool
    var score: int
    var stringHealth: real
    var currentTheme: Theme
    var gameTime: real
    const scores: ScoreBoard
    const health: HealthBar
    const dreamscape: DreamscapeState

    ghost predicate Valid()
      reads this, dreamscape, health
    {
      dreamscape.Valid() && health.Valid()
    }

    /** The page's start state; `stored` is what local storage already holds. */
    constructor (stored: map<string, int>)
      ensures Valid() && fresh(scores) && fresh(health) && fresh(dreamscape)
      ensures !gameActive && score == 0 && stringHealth == MaxHealth
      ensures currentTheme == Islands && gameTime == 0.0
      ensures scores.storage == stored
    {
      gameActive := false;
      score := 0;
      stringHealth := MaxHealth;
      currentTheme := Islands;
      gameTime := 0.0;
      scores := new ScoreBoard(stored);
      health := new HealthBar();
      dreamscape := new DreamscapeState();
    }

    /** `resetGame`: zero the score and the clock, restore full health, go back to the
        islands, and refresh the score and health displays. */
    method ResetGame()
      requires Valid()
      modifies this, scores, health
      ensures Valid()
      ensures score == 0 && stringHealth == MaxHealth && gameTime == 0.0 && currentTheme == Islands
      ensures gameActive == old(gameActive)
      ensures scores.currentScore == 0 && scores.storage == old(scores.storage)
      ensures health.currentHealth == MaxHealth && !health.warningShown && health.band == Good
      ensures health.gameOverCalls == old(health.gameOverCalls)
    {
      score := 0;
      stringHealth := MaxHealth;
      gameTime := 0.0;
      currentTheme := Islands;
      var _ := scores.UpdateScore(0);
      health.UpdateHealthBar(MaxHealth);
    }

    /** `startGame`: reset, then mark the game active. */
    method StartGame()
      requires Valid()
      modifies this, scores, health
      ensures Valid() && gameActive
      ensures score == 0 && stringHealth == MaxHealth && gameTime == 0.0 && currentTheme == Islands
      ensures scores.currentScore == 0 && scores.storage == old(scores.storage)
      ensures health.currentHealth == MaxHealth && !health.warningShown && health.band == Good
      ensures health.gameOverCalls == old(health.gameOverCalls)
    {
      ResetGame();
      gameActive := true;
    }

    /** `gameOver`: stop the game and offer the score as a high score. */
    method GameOver()
      modifies this`gameActive, scores
      ensures !gameActive
      ensures scores.storage == SavedStorage(old(scores.storage), score)
      ensures scores.currentScore == old(scores.currentScore)
    {
      gameActive := false;
      var _ := scores.SaveHighScore(score);
    }

    /** `updateDreamscape` as game.js defines it: follow the schedule, and start a two-second
        transition whenever the theme changes. `generated` is what the new theme's generator
        builds. */
    method UpdateDreamscapeSchedule(generated: seq<SceneObject>)
      requires Valid()
      modifies this`currentTheme, dreamscape
      ensures Valid()
      ensures currentTheme == NextTheme(gameTime, old(currentTheme))
      ensures ScheduledTheme(gameTime, old(currentTheme)) == None ==> unchanged(dreamscape)
      ensures ScheduledTheme(gameTime, old(currentTheme)).Some? ==> dreamscape.currentTheme == currentTheme
      ensures ScheduledTheme(gameTime, old(currentTheme)).Some? && old(dreamscape.currentTheme) == currentTheme ==>
        unchanged(dreamscape)
      ensures ScheduledTheme(gameTime, old(currentTheme)).Some? && old(dreamscape.currentTheme) != currentTheme ==>
        && dreamscape.active && dreamscape.toTheme == Some(currentTheme)
        && dreamscape.fromTheme == Some(old(dreamscape.currentTheme))
        && dreamscape.duration == ScheduleTransitionDuration
        && dreamscape.progress == 0.0 && dreamscape.timeRemaining == ScheduleTransitionDuration
        && dreamscape.themes == EmptyThemes[currentTheme := EditAll(Hide, generated)]
    {
      match ScheduledTheme(gameTime, currentTheme)
      case Some(t) =>
        currentTheme := t;
        dreamscape.TransitionTheme(t, ScheduleTransitionDuration, generated);
      case None =>
    }

    /** One `animate` frame: while the game is active, advance the clock by one fixed step and
        run the theme schedule at the new time. */
    method Animate(generated: seq<SceneObject>)
      requires Valid()
      modifies this`gameTime, this`currentTheme, dreamscape
      ensures Valid()
      ensures gameTime == old(gameTime) + (if old(gameActive) then TimeStep else 0.0)
      ensures old(gameActive) ==> currentTheme == NextTheme(gameTime, old(currentTheme))
      ensures old(gameActive) && ScheduledTheme(gameTime, old(currentTheme)) == None ==> unchanged(dreamscape)
      ensures old(gameActive) && ScheduledTheme(gameTime, old(currentTheme)).Some? ==>
        dreamscape.currentTheme == currentTheme
      ensures old(gameActive) && ScheduledTheme(gameTime, old(currentTheme)).Some?
              && old(dreamscape.currentTheme) == currentTheme ==>
        unchanged(dreamscape)
      ensures old(gameActive) && ScheduledTheme(gameTime, old(currentTheme)).Some?
              && old(dreamscape.currentTheme) != currentTheme ==>
        && dreamscape.active && dreamscape.toTheme == Some(currentTheme)
        && dreamscape.fromTheme == Some(old(dreamscape.currentTheme))
        && dreamscape.duration == ScheduleTransitionDuration
        && dreamscape.progress == 0.0 && dreamscape.timeRemaining == ScheduleTransitionDuration
        && dreamscape.themes == EmptyThemes[currentTheme := EditAll(Hide, generated)]
      ensures !old(gameActive) ==> currentTheme == old(currentTheme) && unchanged(dreamscape)
    {
      if gameActive {
        gameTime := gameTime + TimeStep;
        UpdateDreamscapeSchedule(generated);
      }
    }
  }
}

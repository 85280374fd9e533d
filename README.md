# Dream Kite — a verified model of the game logic

Dream Kite is a browser game. The player flies a kite through a changing dreamscape, collects
glowing sparks and avoids obstacles. The kite is tied to an anchor by a string that wears out
under tension. The player tugs the string with the mouse, the arrow keys or a touch joystick.

This project models the game's logic in Dafny. Rendering and the physics engine are left out:

- **String** (`KiteString`): its length, with one-sided clamps on extend and shorten; the tension,
  a slack term plus the tug's magnitude; the damage request when the tension passes the threshold;
  the tug force toward the anchor; and the ten sagging sample points written into an array.
- **String health** (`Health`): health clamped to [0, 100], damage and repair, the low-health
  warning, the three colour bands, and the game-over call.
- **Tug input** (`Controls`): the tug vector set from a mouse drag, the arrow keys or a joystick,
  each clamped, and the decay step that snaps small values to zero.
- **Wind** (`Wind`): the gust state machine and its eased gust factor, the target
  recomputation, noise-like variations, and 10% smoothing of the current wind toward the target.
- **Kite** (`Kite`, `Physics`): which aerodynamic forces are applied, how large and where; the
  tail's layout; and the mesh following the physics body.
- **Dreamscape** (`Dreamscape`): per-theme object lists; the theme transition record; and the
  loops that hide, fade and restore object opacities.
- **Sparks** (`Sparks`): the pool filled in clusters up to 30, the spawn-delay countdown, the
  value formula, and collection by distance followed by filtering.
- **Obstacles** (`Obstacles`): the difficulty ramp, the drift of each obstacle, and the collision
  checks of the kite against obstacles and ribbon bodies, and of the string against either.
- **Score** (`Score`): the running score and the high score in local storage.
- **Game session** (`Game`): reset, start and game over; the fixed-step clock; and the time-based
  theme schedule.

Numbers are `real`. Trigonometry, vector length and quaternion rotation are fields of a
`MathLib` value passed as a parameter. The predicate `Lawful` lists the only facts assumed
about them:

- length is never negative, and the zero vector has length 0;
- the length of `k·v` is `|k|` times the length of `v`;
- sine and cosine lie in [-1, 1].

`normalize` is defined from length: the zero vector stays zero, as in three.js. The physics
engine's `applyForce` is recorded as a call (force, point) on `Physics.Body.applied`. The wall clock and
the objects the theme generators build are parameters. So is every `Math.random()` outcome: each
draw is a number, and the model computes from the draws what the code computes from them —
spark and cluster positions, sizes and counts and gust parameters.

The code is followed where it differs from its comments:

- The tug force points from the kite toward the anchor.
- `gameOver()` is called on every health update at 0, not once.
- After two minutes the theme schedule in `js/game.js` flips between cities and forests on every
  tick. `Game.Session` keeps this behaviour; the corrected schedule is given beside it (see
  "## Findings").
- A drawn spark is worth 5 to 14, never 15, because the size draw stays below 1 and the value is
  rounded down.

## Model

| member | source | states |
|---|---|---|
| KiteString.StepLengthClamps | js/string.js:281-294 | extend never goes above 30 and is exact below it; shorten never goes below 5 and is exact above it |
| KiteString.LengthStaysInRange | js/string.js:281-294 | from a length in [5, 30], any run of extends and shortens with non-negative amounts stays in [5, 30] |
| KiteString.NegativeAmountsEscape | js/string.js:281-294 | a negative extend can go below 5 and a negative shorten above 30, because each clamp is one-sided |
| KiteString.TensionCases | js/string.js:159-174 | the tension is never negative; it is the tug's magnitude while the string is slack, and 10 times the overstretch plus the tug otherwise |
| KiteString.DamageRequest | js/string.js:135-139 | damage is requested exactly when the tension exceeds 20, and it is a positive amount with tension = 20 + 10·amount |
| KiteString.TugForceCalls | js/string.js:181-195 | no force is applied for a zero tug, and at most one otherwise |
| KiteString.TugPullsTowardAnchor | js/string.js:181-195 | a non-zero tug applies exactly one force, at the kite, along anchor − kite, with the tug's magnitude |
| KiteString.SampleEndpoints | js/string.js:208-227 | sample 0 is the anchor and sample 9 is the kite |
| KiteString.SampleHangsBelowLine | js/string.js:208-227 | each sample lies on the anchor–kite line in x and z, and at or below it in y |
| KiteString.TautStringIsStraight | js/string.js:217-224 | with tension at least 5 the sag is zero, and every sample lies on the straight line |
| KiteString.StringState.constructor | js/string.js:22-53 | a new string has length 15, no tension, no tug, and a constraint distance of 15 |
| KiteString.StringState.ExtendString | js/string.js:281-284 | the stored length is the clamped extension, at most 30, and it is returned |
| KiteString.StringState.ShortenString | js/string.js:292-294 | the stored length is the clamped shortening, at least 5, and it is returned |
| KiteString.StringState.SetStringTugForce | js/string.js:271-273 | the tug vector is replaced |
| KiteString.StringState.UpdateConstraintLength | js/string.js:146-151 | the constraint distance becomes the string length |
| KiteString.StringState.ApplyTugForce | js/string.js:181-195 | the kite's body records exactly the tug force calls |
| KiteString.StringState.UpdateStringVisual | js/string.js:202-235 | every point of the array becomes the matching sagged sample between anchor and kite |
| KiteString.StringState.UpdateString | js/string.js:122-140 | it sets the constraint, computes the tension, applies the tug and redraws the points; health is damaged by the requested amount, or untouched when nothing is requested; after damage the colour band matches the new health, the warning is shown exactly at 30 or below, and the health stays in [0, 100] |
| Health.BandOf | js/ui/health.js:51-65 | the bands are exhaustive and disjoint: critical iff ≤ 20, caution iff in (20, 50], good iff > 50 |
| Health.BandIsMonotone | js/ui/health.js:51-65 | more health never gives a worse band |
| Health.ClampHealth | js/ui/health.js:25 | the stored health is in [0, 100], and a value already in range is kept |
| Health.StepHealth | js/ui/health.js:20-101 | every update, damage or repair leaves health in [0, 100] |
| Health.HealthStaysInRange | js/ui/health.js:25 | any run of updates, damages and repairs from a valid health stays in [0, 100] |
| Health.DamageNeverHeals | js/ui/health.js:72-83 | damage gives max(0, health − amount), and non-negative damage never raises health |
| Health.RepairNeverHurts | js/ui/health.js:90-101 | repair gives min(100, health + amount), and a non-negative repair never lowers health |
| Health.GameOverRepeats | js/ui/health.js:41-44 | at zero health every further damage keeps health at 0 and calls game over again, so the call is not one-shot |
| Health.HealthBar.constructor | js/ui/health.js:8-14 | health starts at 100, with no warning and the good band |
| Health.HealthBar.UpdateHealthBar | js/ui/health.js:20-45 | health becomes the clamped value; the band follows it; the warning shows iff health ≤ 30; game over is called once more iff health ≤ 0 |
| Health.HealthBar.DamageString | js/ui/health.js:72-83 | it returns max(0, health − amount), stores that via the update, and updates band, warning and game over to match |
| Health.HealthBar.RepairString | js/ui/health.js:90-101 | it returns min(100, health + amount), stores that via the update, and updates band, warning and game over to match |
| Controls.MouseTugProperties | js/controls.js:158-172 | the mouse tug is within [−10, 10] on both axes; x follows the drag; y is inverted; small drags are not clamped |
| Controls.KeyboardTugValues | js/controls.js:177-196 | each axis is −0.5, 0 or 0.5; opposite keys held together cancel; it is positive exactly when only the positive key is held |
| Controls.DecayShrinks | js/controls.js:260-275 | decay never grows a component or flips its sign; it strictly shrinks values of size ≥ 0.1 without zeroing them; its only fixed point is 0 |
| Controls.JoystickTugBounded | js/controls.js:216-223 | with a lawful sin/cos and a non-negative force, the joystick vector is in [−1, 1] and the tug in [−10, 10] |
| Controls.ControlState.constructor | js/controls.js:15-38 | all flags are clear, all positions and joystick data are 0, and the tug vector is zero |
| Controls.ControlState.UpdateKeyState | js/controls.js:135-153 | only one arrow key's flag changes; other keys leave all flags alone; the keyboard tug is recomputed either way, with z kept; a tug with z = 0 keeps z = 0 |
| Controls.ControlState.UpdateMouseTugForce | js/controls.js:158-172 | without the button held nothing changes; otherwise the tug is the clamped, Y-inverted drag, with z kept; a tug with z = 0 keeps z = 0 |
| Controls.ControlState.UpdateKeyboardTugForce | js/controls.js:177-196 | the tug is the keyboard tug of the held keys, with z kept; a tug with z = 0 keeps z = 0 |
| Controls.ControlState.UpdateJoystickTugForce | js/controls.js:243-255 | the tug is (10·vx, −10·vy), with z kept; a tug with z = 0 keeps z = 0 |
| Controls.ControlState.ResetTugForce | js/controls.js:260-275 | each of x and y decays: it snaps to 0 below 0.1 and shrinks by 10% otherwise, with z kept; a tug with z = 0 keeps z = 0 |
| Controls.ControlState.GetTugForce | js/controls.js:281-287 | the returned vector equals the current tug |
| Controls.ControlState.ResetControls | js/controls.js:292-307 | the tug, the mouse button and all key flags are cleared, the joystick data is zeroed when present, and nothing else changes |
| Controls.ControlState.OnMouseDown | js/controls.js:78-84 | the button is down, and the start and current positions are the click |
| Controls.ControlState.OnMouseMove | js/controls.js:87-95 | while the button is down the position follows the cursor and the mouse tug is recomputed; otherwise nothing changes; a tug with z = 0 keeps z = 0 |
| Controls.ControlState.OnMouseUp | js/controls.js:98-103 | the button is released and the tug decays once; a tug with z = 0 keeps z = 0 |
| Controls.ControlState.OnMouseLeave | js/controls.js:106-113 | leaving the canvas with the button down releases it and decays the tug; otherwise nothing changes; a tug with z = 0 keeps z = 0 |
| Controls.ControlState.OnJoystickMove | js/controls.js:216-227 | the joystick data follows the event, with force capped at 1, and the joystick tug is recomputed; a tug with z = 0 keeps z = 0 |
| Controls.ControlState.OnJoystickEnd | js/controls.js:229-237 | the joystick data is zeroed and the tug decays once; a tug with z = 0 keeps z = 0 |
| Wind.GustFactorInUnitRange | js/procedural/wind.js:112-121 | the gust factor is in [0, 1] whenever 0 < timeRemaining ≤ duration |
| Wind.GustFactorEnds | js/procedural/wind.js:112-121 | the factor is 0 when a gust starts, 1 on its plateau, and ramps out linearly |
| Wind.TargetIsBaseWithoutGust | js/procedural/wind.js:98-131 | with no gust, or at a gust's first instant, the target is exactly direction·strength |
| Wind.VariationBounded | js/procedural/wind.js:173-189 | the per-axis variation offsets are at most 0.5, 0.3 and 0.4 times (1 + 0.5·difficulty) |
| Wind.SmoothStepClosesGap | js/procedural/wind.js:151-154 | one smoothing step leaves 90% of the gap, never overshoots, and keeps a current wind equal to the target |
| Wind.SmoothStepsGap | js/procedural/wind.js:151-154 | after n steps toward a fixed target the gap is 0.9ⁿ of the original |
| Wind.SmoothStepsNeverOvershoot | js/procedural/wind.js:151-154 | any number of steps toward a fixed target stays between the start and the target |
| Wind.GustDrawBounds | js/procedural/wind.js:241-249 | a gust lasts between 1 and 3 seconds, and its strength lies in [2, 8] times (1 + 0.5·difficulty) |
| Wind.WindSystem.constructor | js/procedural/wind.js:16-52 | the wind starts at (0, 0, −5) with no gust and difficulty 0; the noise offsets are the draws times 1000 |
| Wind.WindSystem.UpdateWindTarget | js/procedural/wind.js:98-131 | the target becomes the base vector plus the eased gust |
| Wind.WindSystem.UpdateWindVariations | js/procedural/wind.js:164-195 | the target gets the varied base wind only while no gust is active, and is untouched during a gust |
| Wind.WindSystem.StartNewGust | js/procedural/wind.js:234-262 | the gust becomes active with its drawn duration, strength and direction, and the full duration remaining; the target is still the base vector |
| Wind.WindSystem.UpdateWindGusts | js/procedural/wind.js:202-228 | an active gust loses dt and ends exactly when none remains; an idle gust starts iff the draw is below 0.005·(1 + difficulty) |
| Wind.WindSystem.UpdateWind | js/procedural/wind.js:139-158 | the variation clock advances by dt·0.5 and the difficulty is stored; the base wind is kept; a running gust loses dt, keeps its duration, strength and direction, ends exactly when none remains, and sets the eased target; with no gust and no start the gust fields are kept and the target is the varied base wind; a started gust takes its drawn duration, strength and direction with the full duration remaining, and the target is the base vector; the current wind moves 10% toward the new target |
| Wind.WindSystem.GetCurrentWind | js/procedural/wind.js:368-369 | the current wind is returned |
| Kite.WindForces | js/kite.js:243-279 | no force is applied when the wind does not hit the front face, and exactly two otherwise |
| Kite.NoForceFromBehind | js/kite.js:249-252 | with dot(normal, wind) ≥ 0 nothing is applied |
| Kite.WindForcesHaveNoTorque | js/kite.js:273-278 | every applied force acts at the body's position, so it adds no torque |
| Kite.LiftIsPerpendicularToWind | js/kite.js:254-273 | lift is the normalised lift direction scaled by \|wind\|·\|dot\|·2, and that direction is perpendicular to the wind |
| Kite.LiftMagnitude | js/kite.js:254-273 | with a lawful length, the lift's magnitude is \|wind\|·\|dot\|·2 whenever wind × planeNormal is non-zero, and 0 when it is zero, since normalising a zero vector leaves it zero |
| Kite.DragIsParallelToWind | js/kite.js:276-278 | drag is the wind vector scaled by \|wind\|·\|dot\|·0.3, so it is parallel to the wind |
| Kite.InitialTailHangsDown | js/kite.js:148-151 | the initial tail runs straight down from (0, −2, 0) to (0, −12, 0), each point strictly below the one before |
| Kite.WaveOffsetBounded | js/kite.js:218-219 | the tail's wave offset at parameter t is at most 0.5·t |
| Kite.TailBeginsAtKiteBottom | js/kite.js:199-227 | tail point 0 has no wave and sits at the kite position plus the rotated (0, −2, 0) |
| Kite.TailWaveIsBounded | js/kite.js:210-227 | each tail point is off its straight axis point by at most 0.5·t in x and z, and not at all in y |
| Physics.Body.constructor | js/kite.js:122-137 | a new body has the given position, mass and damping, the identity orientation, and no applied force |
| Kite.Kite.constructor | js/kite.js:19-48 | the body has the starting position, mass 0.5 and damping 0.3/0.8; the tail is the initial layout; no force has been applied |
| Kite.Kite.ApplyWindForce | js/kite.js:243-279 | the body records exactly the gated lift and drag calls |
| Kite.Kite.UpdateKiteTail | js/kite.js:190-236 | every tail position becomes its waved tail point, and the geometry is the new positions |
| Kite.Kite.UpdateKite | js/kite.js:176-183 | the mesh takes the body's position and orientation, and then the tail is updated |
| Dreamscape.EditObjectMaterials | js/procedural/dreamscape.js:365-397 | editing an object keeps its materials in place, one edit per material |
| Dreamscape.EditAllEffects | js/procedural/dreamscape.js:365-397 | hiding sets every defined opacity to 0 and transparency on; fading sets the given opacity; restoring sets opacity 1; each material is edited on its own |
| Dreamscape.ProgressShape | js/procedural/dreamscape.js:435-439 | progress is 0 at the start, 1 once no time remains, 1 − remaining/duration in between, and it never decreases as time runs out |
| Dreamscape.DreamscapeState.constructor | js/procedural/dreamscape.js:12-44 | islands, every theme list empty, no transition |
| Dreamscape.DreamscapeState.ClearDreamscape | js/procedural/dreamscape.js:231-256 | every theme's object list is empty |
| Dreamscape.DreamscapeState.GenerateDreamscape | js/procedural/dreamscape.js:196-226 | the lists are cleared, the theme becomes current, and only its list holds the generated objects |
| Dreamscape.DreamscapeState.EditTheme | js/procedural/dreamscape.js:365-397 | one theme's objects are edited in place, and no other list changes |
| Dreamscape.DreamscapeState.TransitionTheme | js/procedural/dreamscape.js:349-404 | a transition to the current theme changes nothing; otherwise the transition starts with progress 0 and the full time; the new theme is generated hidden; the old theme's list is empty |
| Dreamscape.DreamscapeState.GenerateHidden | js/procedural/dreamscape.js:361-403 | only the new theme's list holds objects: its generated objects, hidden; the old theme's list is empty |
| Dreamscape.DreamscapeState.UpdateTransitionOpacities | js/procedural/dreamscape.js:457-499 | old-theme objects get opacity 1 − p and new-theme objects get p |
| Dreamscape.DreamscapeState.FinishTransition | js/procedural/dreamscape.js:504-551 | the transition ends; the new theme is current with opacity 1; progress and time are 0 and the source theme is cleared |
| Dreamscape.DreamscapeState.UpdateThemeTransition | js/procedural/dreamscape.js:431-451 | the remaining time drops by dt, progress is clamped to [0, 1], the opacities follow, and the transition finishes exactly when no time remains |
| Dreamscape.DreamscapeState.UpdateDreamscape | js/procedural/dreamscape.js:411-425 | the clock is set to the game time and the duration and target theme are kept; with no transition nothing else changes; a running transition counts down by dt and fades the old theme's objects to 1 − p and the new theme's to p; while time remains it stays active with the new progress, and once time is up the target theme becomes current, its objects are restored, and the record is reset |
| Sparks.SparkValueRange | js/objects/sparks.js:200-201 | for sizes in [0.2, 0.5] the value is in [5, 15], and a bigger spark is never worth less |
| Sparks.DrawnSparkValueRange | js/objects/sparks.js:94-97 | a size drawn from [0, 1) lies in [0.2, 0.5), so its value is in [5, 14] |
| Sparks.MakeSpark | js/objects/sparks.js:134-227 | a new spark is uncollected, at its position, and worth its size's value |
| Sparks.DrawnDistanceRange | js/objects/sparks.js:66 | a distance `base + draw·span` drawn from [0, 1) lies in [base, base + span] |
| Sparks.ReachBounded | js/objects/sparks.js:89-91 | with sines and cosines in [−1, 1], the offsets cos·cos·d, sin·cos·d and sin·d along x, z and y are within the bound of any distance d up to it |
| Sparks.FieldSpark | js/objects/sparks.js:105-122 | a filler or spawned spark is uncollected and sits at the position its angle, height-angle, distance and height draws give |
| Sparks.FieldPositionBounded | js/objects/sparks.js:105-113 | with draws in [0, 1), a position drawn at distance base + draw·span lies within base + span on x and z, and in [−5, 25) on y |
| Sparks.FieldSparkPlaced | js/objects/sparks.js:105-122 | with draws in [0, 1), a filler spark (distance 10 to 40) or a spawned spark (15 to 40) lies within that distance on x and z, in [−5, 25) on y, and is worth 5 to 14 |
| Sparks.ClusterCountInRange | js/objects/sparks.js:61 | a draw in [0, 1) gives 3 to 5 clusters |
| Sparks.ClusterSparkCountInRange | js/objects/sparks.js:76 | a draw in [0, 1) gives a cluster of 2 to 5 sparks |
| Sparks.CentrePositionBounded | js/objects/sparks.js:65-70 | with draws in [0, 1), a cluster centre lies within 35 of the origin on x and z, and in [−5, 25) on y |
| Sparks.ClusterCentrePlaced | js/objects/sparks.js:64-77 | with draws in [0, 1), a cluster centre is placed as above, its radius is in [5, 10) and it holds 2 to 5 sparks |
| Sparks.ClusterSpark | js/objects/sparks.js:84-97 | a cluster spark is uncollected and sits at the cluster centre plus the offset its angle, height-angle and distance draws give |
| Sparks.ClusterSparkWithinRadius | js/objects/sparks.js:84-97 | with draws in [0, 1) and a non-negative radius, a cluster spark is within the cluster radius of its centre on every axis, and is worth 5 to 14 |
| Sparks.ClusterSparksBounded | js/objects/sparks.js:81-102 | clusters of at most 5 sparks hold at most 5 sparks per cluster |
| Sparks.ClusterCentersBounded | js/objects/sparks.js:61-102 | with draws in [0, 1) there are 3 to 5 clusters, each of radius in [5, 10), and they hold at most 25 sparks, fewer than 30 |
| Sparks.SparksOfCluster | js/objects/sparks.js:83-101 | one cluster yields as many uncollected sparks as its spark count, none when the count is not positive |
| Sparks.ClusterSparks | js/objects/sparks.js:81-102 | filling a list of clusters yields exactly the sparks they count, none of them collected |
| Sparks.ClusterSparksNearCentres | js/objects/sparks.js:81-102 | with draws in [0, 1) and non-negative radii, every spark made by filling the clusters is within the radius of one of them |
| Sparks.FillerSparks | js/objects/sparks.js:105-123 | the top-up adds uncollected sparks until the pool holds 30, and none when it already holds 30 or more |
| Sparks.InitialPoolSize | js/objects/sparks.js:45-124 | with draws in [0, 1), the cluster sparks plus the top-up number exactly 30 |
| Sparks.UncollectedProperties | js/objects/sparks.js:290 | the filter keeps exactly the uncollected sparks, never grows the pool, and distributes over concatenation, so the order is kept |
| Sparks.SurvivorsAreTheUncollected | js/objects/sparks.js:271-290 | from a pool with nothing collected, a spark survives exactly when the kite is not within the collection radius |
| Sparks.SparkSystem.constructor | js/objects/sparks.js:20-39 | the pool, the clock, the spawn delay and the cluster list start empty or 0 |
| Sparks.SparkSystem.SpawnSpark | js/objects/sparks.js:232-250 | exactly one spark is appended, the one the draws place at distance 15 to 40 |
| Sparks.SparkSystem.InitSparks | js/objects/sparks.js:45-54 | the clock and the spawn delay are 0; the clusters are exactly the drawn ones; the pool is their sparks followed by the top-up; nothing in it is collected; with draws in [0, 1) it holds exactly 30 |
| Sparks.SparkSystem.CreateSparkClusters | js/objects/sparks.js:59-124 | the drawn clusters are appended to the stored ones; then every stored cluster, old or new, adds its sparks after the old ones; then the top-up brings the pool to 30 unless already larger; a pool with nothing collected stays so |
| Sparks.SparkSystem.AddClusterCenters | js/objects/sparks.js:61-78 | the drawn cluster centres are appended in order, and nothing else changes |
| Sparks.SparkSystem.FillClusters | js/objects/sparks.js:81-102 | the sparks of the given clusters are appended in cluster order after the existing pool |
| Sparks.SparkSystem.FillCluster | js/objects/sparks.js:83-101 | the sparks of one cluster are appended after the existing pool |
| Sparks.SparkSystem.FillToCount | js/objects/sparks.js:105-123 | filler sparks are appended until the pool holds 30, and the existing pool is kept |
| Sparks.SparkSystem.CollectionPass | js/objects/sparks.js:271-287 | walking the pool from last to first, exactly the uncollected sparks within 2 of the kite are marked, and their values are listed in visiting order |
| Sparks.SparkSystem.UpdateSparks | js/objects/sparks.js:257-291 | the clock advances; at most one spark spawns, and only when the delay has run out and fewer than 30 are present; the kite collects every uncollected spark within 2; the collected values go to the score, last first; no collected spark remains; a pool of at most 30 stays at most 30 |
| Obstacles.DifficultyProperties | js/objects/obstacles.js:308 | difficulty is at most 1, exactly 1 iff game time ≥ 120, non-negative for non-negative times, and never decreases |
| Obstacles.UpdatedObstacleStaysInDriftBox | js/objects/obstacles.js:333-346 | the obstacle stays at its drift centre's height, within its drift radius on x and z, with everything but position and spin kept |
| Obstacles.UpdatedObstacleSpins | js/objects/obstacles.js:328-331 | a positive step at a non-negative difficulty turns the obstacle by at least the step |
| Obstacles.DegenerateSegment | js/objects/obstacles.js:462-478 | a zero-length segment meets a sphere exactly when its point is strictly inside |
| Obstacles.SphereRadiusCases | js/objects/obstacles.js:462-478 | a sphere centred on the segment's start is met iff its radius is positive |
| Obstacles.NoSphereOfNonPositiveRadiusIsHit | js/objects/obstacles.js:462-478 | no segment meets a sphere of non-positive radius |
| Obstacles.KiteOnObstacleCentre | js/objects/obstacles.js:401 | a kite on an obstacle's centre is missed with the size undefined and caught with the kite's size |
| Obstacles.UndefinedKiteSizeNeverCollides | js/objects/obstacles.js:401-411 | with the kite's size undefined, no obstacle and no ribbon body is ever within reach |
| Obstacles.ObstacleSystem.constructor | js/objects/obstacles.js:37-49 | the created obstacles and ribbons are kept, and the clock and difficulty start at 0 |
| Obstacles.ObstacleSystem.UpdateObstacles | js/objects/obstacles.js:303-319 | the clock advances, the difficulty follows the game time, and every obstacle is updated with the new clock and difficulty |
| Obstacles.ObstacleSystem.CheckObstacleCollisions | js/objects/obstacles.js:397-418 | true iff some obstacle is closer than (kite size + size)·0.5, or some ribbon body closer than (kite size + radius)·0.5 |
| Obstacles.ObstacleSystem.CheckObstacleCollisionsAsWritten | js/objects/obstacles.js:397-418 | called with the kite object `createKite` builds (js/kite.js:21-28), which has no `size`, the check is always false |
| Obstacles.ObstacleSystem.CheckKiteCollisions | js/objects/obstacles.js:397-418 | with the kite's size 2, true iff an obstacle or ribbon body is within reach |
| Obstacles.ObstacleSystem.CheckSegment | js/objects/obstacles.js:431-448 | one segment hits iff it meets some obstacle sphere of radius size·0.5 or some ribbon-body sphere |
| Obstacles.ObstacleSystem.CheckStringIntersections | js/objects/obstacles.js:425-452 | false for fewer than 2 points; otherwise true iff some consecutive pair of points hits |
| Score.ScoreAfter | js/ui/score.js:16-23 | 0 points reset the score to 0; positive points raise it and negative points lower it |
| Score.ScoreAddsUp | js/ui/score.js:16-23 | with no zero among them, points add up to the start plus their sum |
| Score.ScoreSinceLastReset | js/ui/score.js:16-23 | after the last zero, the score is the sum of the points added since |
| Score.SavedStorage | js/ui/score.js:97-108 | the stored high score becomes the larger of the old one and the score; no other key changes |
| Score.HighScoreIsRunningMaximum | js/ui/score.js:102-105 | after any run of saves the stored high score has not dropped, is at least every saved score, and is the old one or a saved one |
| Score.ScoreBoard.constructor | js/ui/score.js:8-9 | the score starts at 0 with the given storage |
| Score.ScoreBoard.UpdateScore | js/ui/score.js:16-34 | the score is reset or increased as above, and the new score is returned |
| Score.ScoreBoard.SaveHighScore | js/ui/score.js:97-108 | it returns true iff the score beats the stored value (absent = 0), writes exactly then, and the stored value never drops |
| Score.ScoreBoard.GetHighScore | js/ui/score.js:114-116 | it returns the stored value, or 0 when absent |
| Game.ScheduledTheme | js/game.js:236-248 | a scheduled change always goes to a different theme |
| Game.ScheduleBeforeTwoMinutes | js/game.js:241-247 | no change before a minute; between one and two minutes every theme ends up as forests |
| Game.ScheduleAfterTwoMinutes | js/game.js:241-247 | after two minutes every tick changes the theme: cities to forests, anything else to cities |
| Game.ThemeAlternates | js/game.js:241-247 | after two minutes, from cities or forests, the theme is back to its start exactly after an even number of ticks |
| Game.IntendedScheduledTheme | js/game.js:241-247 | the corrected schedule: a scheduled change always goes to a different theme |
| Game.IntendedAgreesUpToTwoMinutes | js/game.js:241-247 | up to two minutes the corrected schedule is the written one |
| Game.IntendedThemeSettles | js/game.js:241-247 | under the corrected schedule, any run of ticks past two minutes ends on cities, and from cities it never leaves |
| Game.Session.constructor | js/game.js:9-13 | the game is inactive with score 0, health 100, islands and clock 0 |
| Game.Session.ResetGame | js/game.js:153-165 | score 0, health 100, clock 0 and islands; the score display is reset and the health bar refilled without a game-over call |
| Game.Session.StartGame | js/game.js:139-148 | after the reset the game is active: score 0, full health, islands, clock 0; the stored high score and the game-over count are kept; the warning is off and the band is good |
| Game.Session.GameOver | js/game.js:181-190 | the game is inactive and the score is offered as a high score |
| Game.Session.UpdateDreamscapeSchedule | js/game.js:236-248 | the theme follows the schedule; with no scheduled change, or when the dreamscape already shows the scheduled theme (as after a restart), the dreamscape is untouched; otherwise a 2-second transition to it starts from the dreamscape's theme, at progress 0 with 2 s remaining, with the new theme's objects generated hidden and every other list empty |
| Game.Session.Animate | js/game.js:195-222 | an active game advances its clock by exactly 1/60 and runs the schedule at the new time, with every outcome of `UpdateDreamscapeSchedule` stated: the dreamscape is untouched when nothing is scheduled or the scheduled theme already shows, and otherwise a 2 s transition starts with progress 0, 2 s remaining and the generated objects hidden; an inactive game changes nothing |

## Left out

- Rendering: meshes, materials, geometry, colours, lights, fog, the sky, particles and DOM
  elements. This includes the health bar's width, the shake and glow animations and their
  `animateDamage` guard, the floating score text, `updateStringColor`, and
  `updateEnvironmentForTheme`.
- The physics engine: world stepping, the distance constraint, and force integration.
  `applyForce` is only recorded.
- Floating point: all numbers are exact reals, and NaN appears only where the finding below
  needs it.
- Randomness and time: every `Math.random()` outcome, `performance.now()` and timers are
  parameters. Draws are assumed to lie in [0, 1) only where a lemma says so. `setTimeout` effects (removing a collected spark's group) are not modelled.
- Theme generators (islands, forests, cities, sky) and their per-frame updates. Their output is
  a parameter.
- `setBaseWindDirection` (trigonometry of two angles), and the wind particles.
- `updateSpark` and `updateRibbon` animation. Spark positions and ribbon bodies therefore stay
  where they were created.
- Obstacle and ribbon creation, except that the constructor takes its result. The spin is kept
  as a total angle about the obstacle's fixed axis.
- Sparks: the score and health updates of a collection (`increaseScore`, `increaseStringHealth`)
  are defined in none of the files modelled here. They are recorded as the list of collected values.
- Controls: event listener registration, `setupControls`, nipplejs, and touch sensitivity.
- Game: `initGame`, the scene and camera setup, `restartGame`'s screen toggling, and the empty
  `handleCollisions`. The `gameOver()` call from the health bar is counted on the health bar, not
  wired to the session. The session's own `updateDreamscape` is modelled separately from the
  dreamscape module's function of the same name.
- Score: local storage holds strings. The model stores numbers, which compare the same way for
  the integer scores the game produces.
- Kite.Kite.UpdateKiteTail: the tail is placed only where the given rotation puts it. Quaternion
  rotation is uninterpreted, so nothing is proved about the rotated offsets beyond their use.

## Findings

| source | as written | input that shows it | evidently intended | confidence | as-written member | corrected member |
|---|---|---|---|---|---|---|
| js/objects/obstacles.js:401 | the threshold adds `kite.size`, but the kite object built in `js/kite.js` has no `size`, so it is `undefined`, the sum is NaN, and the test is never true | a kite exactly at an obstacle's centre (distance 0, obstacle size 4) reports no collision | use the kite's size, `KITE_SIZE` = 2, so that a distance below (2 + size)·0.5 is a collision | not executed | Obstacles.ObstacleSystem.CheckObstacleCollisionsAsWritten | Obstacles.ObstacleSystem.CheckKiteCollisions |
| js/game.js:241-247 | past two minutes the first branch is skipped once the theme is cities, and the `else if` then sends it to forests, so the theme flips between cities and forests on every tick and each flip starts a new transition | two ticks at 121 s from cities give forests, then cities | enter cities after two minutes and stay there, reaching the forests branch only before two minutes | not executed | Game.ThemeAlternates | Game.IntendedThemeSettles |

The session's schedule follows `js/game.js` as written, because the rest of the model is about
what the code does. The corrected schedule, `Game.IntendedScheduledTheme`, agrees with it up to
two minutes and settles on cities after that.

# Flappy-bird game rules in Dafny

This project models the rule logic of a small Phaser "flappy bird" game. Sprites
become plain records with integer positions, and the engine becomes the
environment that calls the scene's handlers.

- `game_state.dfy` (module `GameStates`): the shared `GameState` record. It is a
  class whose setters and reset methods each change one field. A `Registry`
  class holds the static `instance` slot that `getInstance` fills lazily. The two
  static level tables are pure functions without a `reads` clause.
- `flash_text.dfy` (module `Flash`): the `FlashText` overlay. It has a message
  bank keyed by property name, and a display made of text, alpha and the fade
  tweens requested so far. `ShowOn` is the pure effect of `show`. The class
  method `Show` is proved against it.
- `game_rules.dfy` (module `GameRules`): the Game scene's rules as functions on
  a `Scene` record. `Step` is one `update`, composed of `JumpOn`, `TurnOn`,
  `ScorePipesOn` (the scoring and culling loop, `ScorePass`), `CullStarsOn` and
  `BoundsCheckOn`. Further functions model `addPipes`, `addStar`, `addScore`,
  `collectStar`, `showFlashMessage`, `hitPipe` and `endGame`. The lemmas state
  what one frame does and what repeated frames cannot do.
- `game.dfy` (module `GameScene`): the `Game` class. Its fields are the scene's
  state, and each event handler is proved to move `Snapshot()` exactly as the
  matching `GameRules` function says. `PassOnePipe` drives two frames past one
  pipe.
- `wrappers.dfy`: `Option`, where `None` stands for JavaScript's `undefined`.

Environment inputs become parameters:
- `justDown` is a fresh press of the jump key.
- `r` in [0, 1) is a `Math.random()` draw.
- `gapStart` in [100, 488] and the star's `y` in [100, 668] are
  `Phaser.Math.Between` draws.
- The star index is the star the overlap reports.
- The resolved message file is the bank.

Collisions, overlaps and timer ticks are calls of `HitPipe`, `CollectStar`,
`AddPipes` and `AddStar`.

The call-site quirks of `src/scenes/Game.ts` are kept as written:
- `showFlashMessage` hands `FlashText.show` the category's array, not the
  category. `show` therefore looks up the array's property key, which is its
  elements joined by "," or "undefined" for a missing category
  (`GameRules.FlashKey`). `FlashKeyInBankIff` proves the consequence: with
  ordinary keys, a flash finds an entry only when the category's list has
  exactly one message and that message is itself a key. So a message file with
  several messages per category never shows a flash. `FlashKeyInBankIff` covers
  every category; `StepDisplayQuiet` applies it to the neutral flashes of a frame.
- `collectStar` passes the GameState object as the category. Once the bank has
  loaded, `toLowerCase` throws; the model records this as the `TypeError`
  outcome after the score updates have been made. Before the bank loads, the
  guard returns first.
- `collectStar` adds the GameState score after its +5 onto the scene score.
- Only pipes with `y <= 0` score. A spawned top pipe has `y = gapStart - 320`,
  so only pairs with `gapStart <= 320` can ever add a point
  (`SpawnedPairScoring`).

Three further behaviours of the code are kept as written:
- A collected star adds the updated GameState score to the scene score, not a
  fixed 5.
- The rotation is not clamped. It can overshoot to 91 and -34, which
  `AngleInRange` bounds.
- A second `show` adds another tween rather than restarting the fade.

`Game.flashLog` is an observation added by the model. It records the outcome
of every `showFlashMessage` call (not loaded, forwarded key, or type error), so
that "a flash is asked for" can be stated.

## Model

| member | source | states |
|---|---|---|
| GameStates.MinCoinsForLevel | src/GameState.ts:91-93 | 10, 20, 30 for levels 1, 2, 3 (10 times the level) and 0 for every other level; static, reads no instance |
| GameStates.RocksForLevel | src/GameState.ts:95-97 | 5, 10, 15 for levels 1, 2, 3 (5 times the level) and 0 for every other level; static, reads no instance |
| GameStates.GameState.constructor | src/GameState.ts:31-42 | coins 0, level 1, status PLAY, score 0, all streaks 0, category NEUTRAL |
| GameStates.GameState.SetTotalCoins | src/GameState.ts:51-57 | stores any integer unvalidated, the getter returns it, no other field changes |
| GameStates.GameState.SetScore | src/GameState.ts:59-65 | stores any integer unvalidated, the getter returns it, no other field changes |
| GameStates.GameState.SetCurrentLevel | src/GameState.ts:67-73 | stores any integer unvalidated, the getter returns it, no other field changes |
| GameStates.GameState.SetStatus | src/GameState.ts:75-81 | stores the status, the getter returns it, no other field changes |
| GameStates.GameState.ResetEarnStreak | src/GameState.ts:83-85 | sets only the earn streak to 0 |
| GameStates.GameState.ResetLoseStreak | src/GameState.ts:87-89 | sets only the lose streak to 0 |
| GameStates.Registry.constructor | src/GameState.ts:29 | the static instance slot starts empty |
| GameStates.Registry.GetInstance | src/GameState.ts:44-49 | the first call builds a fresh default GameState; every later call returns that same object |
| GameStates.Registry.GetInstanceTwice | src/GameState.ts:44-49 | two calls in a row return one and the same object |
| Flash.PickIndex | src/utils/FlashText.ts:33 | floor(r*len) is below len for a non-empty list and 0 for an empty one |
| Flash.Pick | src/utils/FlashText.ts:32-33 | the drawn message exists exactly when the list is non-empty, and is then an element of that list |
| Flash.ShowOn | src/utils/FlashText.ts:29-44 | a missing key changes nothing; a present key sets alpha 1, requests one fade to 0 over 3000 ms, and shows a message of that key's own list (undefined for an empty list) |
| Flash.FlashText.constructor | src/utils/FlashText.ts:11-23 | empty bank, empty text, alpha 0, no fade |
| Flash.FlashText.SetMessages | src/utils/FlashText.ts:25-27 | the bank becomes the argument (no merge); the display is untouched |
| Flash.FlashText.Show | src/utils/FlashText.ts:29-44 | changes the display as ShowOn says and leaves the bank alone |
| GameRules.Rotate | src/scenes/Game.ts:149-160 | falling below 90 turns by exactly +2, rising above -30 by exactly -5; the angle stays put exactly at or past 90 (falling) or -30 (rising); the reachable range is kept |
| GameRules.CountScoring | src/scenes/Game.ts:163-170 | at most one point per pipe; zero exactly when no pipe is unscored, left of the player and at y <= 0 |
| GameRules.Survivors | src/scenes/Game.ts:163-176 | exactly the pipes with x >= -100 remain (the length is the input's minus the culled count); no kept pipe has x < -100, every pipe with x >= -100 is kept (marked), and no kept pipe can score again |
| GameRules.CountCulledBound | src/scenes/Game.ts:173-175 | no more pipes are culled than there are |
| GameRules.SurvivorsAt | src/scenes/Game.ts:163-176 | a pipe with x >= -100 is kept, marked, right after the pipes kept before it; with the length clause this fixes the kept list in order and multiplicity |
| GameRules.SurvivorsFromInput | src/scenes/Game.ts:163-176 | every kept pipe is the marked copy of an input pipe with x >= -100 |
| GameRules.CullStars | src/scenes/Game.ts:178-183 | kept stars come from the input and have x >= -50; every star with x >= -50 is kept |
| GameRules.CullStarsCounts | src/scenes/Game.ts:178-183 | each star with x >= -50 is kept as many times as it occurs, and every other star is dropped |
| GameRules.SpawnPipes | src/scenes/Game.ts:195-218 | two unscored pipes at x = 1100, the top at y = gapStart - 320 and the bottom at gapStart + 180, top y in [-220, 168], bottom y in [280, 668], 500 apart |
| GameRules.SpawnedPairScoring | src/scenes/Game.ts:199-212 | the bottom pipe never scores; the top pipe can score exactly when gapStart <= 320 |
| GameRules.FlashKey | src/scenes/Game.ts:262 | the key `show` receives: "undefined" for a missing category, "" for an empty list, the message itself for a one-message list, and a key holding a comma for two or more messages |
| GameRules.FlashOutcomeOf | src/scenes/Game.ts:259-263 | not loaded exactly when the bank is absent; a type error exactly when the bank is loaded and the GameState is passed; otherwise the array's key is forwarded |
| GameRules.JoinOfSeveralHasComma | src/scenes/Game.ts:262 | the key of an array of two or more messages contains a comma |
| GameRules.FlashKeyInBankIff | src/scenes/Game.ts:262 | with ordinary keys, the forwarded key is in the bank exactly when the category's list is one message that is itself a key |
| GameRules.Created | src/scenes/Game.ts:28-117 | a new scene is running with the given score, no pipes or stars, both timers on, no tint, no bank, the empty overlay, an empty flash log, and a player of the given height at (200, 384), angle 0, with no vertical velocity |
| GameRules.ShowFlashOn | src/scenes/Game.ts:259-263 | logs the call's outcome; the display changes only when a key was forwarded; a forwarded key missing from the bank leaves it alone; a forwarded key in the bank sets alpha 1, requests one 3000 ms fade and shows a message of that key's list (undefined for an empty list); nothing else changes |
| GameRules.AddScoreOn | src/scenes/Game.ts:251-257 | the scene score rises by exactly 1; a neutral flash is asked for exactly when the new score is a multiple of 5, and otherwise nothing but the score changes; earlier log entries are kept; pipes, player and timers are untouched |
| GameRules.EndGameOn | src/scenes/Game.ts:270-279 | sets gameOver, cancels both spawn timers and tints the player red (0xff0000); nothing else changes |
| GameRules.HitPipeOn | src/scenes/Game.ts:265-268 | asks for a negative flash, then ends the game with the red tint, whatever the state; score, pipes, stars, player and bank are untouched; the display changes only if the negative key was forwarded |
| GameRules.AddPipesOn | src/scenes/Game.ts:195-218 | adds nothing once the game is over, else appends exactly the spawned pair |
| GameRules.AddStarOn | src/scenes/Game.ts:220-232 | adds nothing once the game is over, else appends one star at x = 1100 |
| GameRules.CollectStarOn | src/scenes/Game.ts:234-249 | removes the star, adds the GameState score plus 5 to the scene score, and never changes the display; nothing but the stars, the score and the flash log changes |
| GameRules.PipeStep | src/scenes/Game.ts:163-176 | one iteration: one point exactly when the pipe scores now (and no scene change otherwise), only score, display and log touched; the pipe is kept, marked so it cannot score again, exactly when x >= -100 |
| GameRules.ScorePass | src/scenes/Game.ts:163-176 | the whole loop changes only the score, the display and the flash log of the scene |
| GameRules.ScorePassLogGrows | src/scenes/Game.ts:163-176 | the loop only appends to the flash log |
| GameRules.ScorePassScore | src/scenes/Game.ts:162-176 | the pipe loop adds exactly one point per scoring pipe |
| GameRules.ScorePassKept | src/scenes/Game.ts:162-176 | the pipe loop keeps exactly the survivors, in order |
| GameRules.ScorePassDisplayQuiet | src/scenes/Game.ts:162-176 | with no bank or a neutral key that misses the bank, the pipe loop never changes the display |
| GameRules.JumpOn | src/scenes/Game.ts:144-147 | a fresh press sets vertical velocity -350 and changes nothing else; no press changes nothing |
| GameRules.TurnOn | src/scenes/Game.ts:149-160 | only the player's angle changes, by Rotate, and the reachable range is kept |
| GameRules.ScorePipesOn | src/scenes/Game.ts:162-176 | the score rises by the number of pipes that score now, the pipes become exactly the survivors, and only the display and flash log change besides |
| GameRules.CullStarsOn | src/scenes/Game.ts:178-183 | only the stars change: each on-screen star is kept as many times as it occurs, every other is dropped |
| GameRules.BoundsCheckOn | src/scenes/Game.ts:185-188 | the game is over afterwards exactly when it was or the player is out of bounds; then both timers are off and the tint is red; in bounds nothing changes |
| GameRules.Step | src/scenes/Game.ts:138-189 | once over, a frame changes nothing; a frame never changes the bank or the player's position and height |
| GameRules.StepLogGrows | src/scenes/Game.ts:138-189 | a frame only appends to the flash log |
| GameRules.StepEndsIff | src/scenes/Game.ts:185-188 | a frame ends the game exactly when y >= 768 - height or y <= 0, and then both timers are off |
| GameRules.StepMovesPlayer | src/scenes/Game.ts:144-160 | a fresh press sets vertical velocity -350; the angle turns by Rotate; the position is not moved; the angle range is kept |
| GameRules.StepScoresAndCulls | src/scenes/Game.ts:162-183 | a frame adds one point per scoring pipe, keeps exactly the surviving pipes and stars, and leaves no pipe that could score again |
| GameRules.StepNoDoubleScore | src/scenes/Game.ts:163-170 | a second frame with nothing moved adds no point |
| GameRules.StepDisplayQuiet | src/scenes/Game.ts:251-263 | with ordinary keys and a neutral list that is not a single key, no frame changes the display |
| GameRules.PassedPipeScoresOnce | src/scenes/Game.ts:163-170 | a passed top pipe adds one point in the first frame, is marked, and adds nothing in the second |
| GameScene.Game.constructor | src/scenes/Game.ts:23-117 | takes the singleton from the registry, starts the score at the GameState score, and builds the created scene |
| GameScene.Game.OnTalksLoaded | src/scenes/Game.ts:88-93 | the loaded bank becomes both the scene's and the overlay's bank |
| GameScene.Game.Jump | src/scenes/Game.ts:191-193 | vertical velocity becomes -350, nothing else changes |
| GameScene.Game.ShowFlashMessage | src/scenes/Game.ts:259-263 | returns the outcome FlashOutcomeOf gives and changes the scene as ShowFlashOn says |
| GameScene.Game.AddScore | src/scenes/Game.ts:251-257 | changes the scene as AddScoreOn says; the GameState is not in its frame |
| GameScene.Game.EndGame | src/scenes/Game.ts:270-279 | changes the scene as EndGameOn says |
| GameScene.Game.HitPipe | src/scenes/Game.ts:265-268 | changes the scene as HitPipeOn says |
| GameScene.Game.AddPipes | src/scenes/Game.ts:195-218 | changes the scene as AddPipesOn says |
| GameScene.Game.AddStar | src/scenes/Game.ts:220-232 | changes the scene as AddStarOn says |
| GameScene.Game.CollectStar | src/scenes/Game.ts:234-249 | the GameState score rises by 5 and nothing else of it changes; the scene changes as CollectStarOn says; the outcome is a type error once the bank is loaded |
| GameScene.Game.Turn | src/scenes/Game.ts:149-160 | turns the player as Rotate says |
| GameScene.Game.VisitPipe | src/scenes/Game.ts:163-176 | one iteration of the in-place loop moves the scene and the kept list as PipeStep says |
| GameScene.Game.ScorePipes | src/scenes/Game.ts:162-176 | the in-place loop leaves the scene as ScorePipesOn (the pure pass) says |
| GameScene.Game.CullOffscreenStars | src/scenes/Game.ts:178-183 | the in-place loop leaves exactly CullStars of the stars |
| GameScene.Game.CheckBounds | src/scenes/Game.ts:185-188 | ends the game exactly when the player is out of bounds |
| GameScene.Game.Update | src/scenes/Game.ts:138-189 | one frame changes the scene exactly as Step says |
| GameScene.PassOnePipe | src/scenes/Game.ts:163-170 | on the object model, two frames past one top pipe add exactly one point and mark it |

## Left out

- Rendering and setup: the camera, background, text objects and styles, sprite scale, origin and circle bodies, the red tint's appearance, and `FlashText.destroy`. They carry no rule. The tint is kept only as the value set.
- Physics: gravity, velocities moving sprites, world bounds and collision detection. Positions are integers that the environment sets between frames. `update` itself never moves a sprite.
- The fetch of the message file is I/O. Only its resolution with a bank is modelled. A file without `sentiment_type_talks` and bank values that are not string arrays are not modelled.
- Timer scheduling and the tween's easing. A timer is only "active or removed", and a fade only "requested".
- Randomness: every `Math.random()` and `Between` draw is a parameter. Within one `Update` call, every flash uses the same draw `r`.
- Floating-point numbers: positions, angles, scores and velocities are integers. The rounding of `r * len` is taken as exact.
- `Update`: it does not model the element skipping that destroying group members during `forEach` can cause. Culling is a filter over the list.
- `GameScene.Game.CollectStar`: what the engine does once the `TypeError` propagates is not modelled. The throw is only reported as the outcome.
- `GameRules.ToLower`: it lowers ASCII letters only. The scene only passes ASCII names.
- Property keys that name members of `Object.prototype` (such as "constructor") are not modelled; the bank is a plain map.
- The engine's wrap of `angle` into [-180, 180) is not modelled. Angles reached from 0 stay within (-35, 92), as `Rotate` proves.
- The MainMenu and GameOver scenes (including MainMenu's direct construction of a GameState) are not part of this model. Neither is the commented-out delayed switch to GameOver.

/**
  The rules of the Game scene (src/scenes/Game.ts) over plain records with
  integer positions. The physics engine, timers and overlap detection are the
  environment: they move sprites and call the scene's event handlers, which
  are the transitions below (Step is one `update`).
*/
module GameRules {
  import opened Wrappers
  import Flash

  const WorldHeight: int := 768
  const PlayerStartX: int := 200
  const PlayerStartY: int := 384
  const JumpVelocity: int := -350
  const SpawnX: int := 1100
  const PipeGap: int := 180
  const GapMin: int := 100
  const GapMax: int := 668 - PipeGap
  /** The top pipe stands this far above the start of the gap. */
  const TopPipeLift: int := 320
  const PipeCullX: int := -100
  const StarCullX: int := -50
  const StarMinY: int := 100
  const StarMaxY: int := 668
  const StarBonus: int := 5
  /** A neutral flash is asked for whenever the score reaches a multiple of this. */
  const FlashEvery: int := 5
  const FallLimit: int := 90
  const FallTurn: int := 2
  const RiseLimit: int := -30
  const RiseTurn: int := 5
  const RedTint: int := 0xFF0000

  /** A pipe sprite; `scored` is only ever set on pipes that scored. */
  datatype Pipe = Pipe(x: int, y: int, scored: bool)

  datatype Star = Star(x: int, y: int)

  datatype Player = Player(x: int, y: int, height: int, angle: int, velocityY: int)

  // ---------------------------------------------------------------------------
  // The player

  /** One frame of the cosmetic rotation: toward 90 while falling, toward -30 otherwise. */
  function Rotate(angle: int, velocityY: int): (a: int)
    ensures velocityY > 0 ==> angle <= a <= angle + FallTurn
    ensures velocityY <= 0 ==> angle - RiseTurn <= a <= angle
    ensures a == angle <==> (velocityY > 0 && angle >= FallLimit) || (velocityY <= 0 && angle <= RiseLimit)
    ensures velocityY > 0 && angle < FallLimit ==> a == angle + FallTurn
    ensures velocityY <= 0 && angle > RiseLimit ==> a == angle - RiseTurn
    ensures AngleInRange(angle) ==> AngleInRange(a)
  {
    if velocityY > 0 then
      (if angle < FallLimit then angle + FallTurn else angle)
    else
      (if angle > RiseLimit then angle - RiseTurn else angle)
  }

  /** The angles reachable from 0: the engine's wrap to [-180, 180) never applies to them. */
  predicate AngleInRange(angle: int)
  {
    RiseLimit - RiseTurn < angle < FallLimit + FallTurn
  }

  /** The world's top and bottom edges end the game. */
  predicate OutOfBounds(p: Player)
  {
    p.y >= WorldHeight - p.height || p.y <= 0
  }

  // ---------------------------------------------------------------------------
  // Pipes and stars

  /** The pipe adds a point in this frame: unscored, left of the player, and a top pipe. */
  predicate ScoresNow(p: Pipe, playerX: int)
  {
    !p.scored && p.x < playerX && p.y <= 0
  }

  function Mark(p: Pipe, playerX: int): Pipe
  {
    if ScoresNow(p, playerX) then p.(scored := true) else p
  }

  /** How many pipes of `pipes` add a point when the player stands at `playerX`. */
  function CountScoring(pipes: seq<Pipe>, playerX: int): (n: nat)
    decreases |pipes|
    ensures n <= |pipes|
    ensures n == 0 <==> forall i :: 0 <= i < |pipes| ==> !ScoresNow(pipes[i], playerX)
  {
    if pipes == [] then 0
    else
      var last := pipes[|pipes| - 1];
      assert forall i :: 0 <= i < |pipes| - 1 ==> pipes[..|pipes| - 1][i] == pipes[i];
      CountScoring(pipes[..|pipes| - 1], playerX) + (if ScoresNow(last, playerX) then 1 else 0)
  }

  /** How many pipes of `pipes` are past the culling line. */
  function CountCulled(pipes: seq<Pipe>): nat
    decreases |pipes|
  {
    if pipes == [] then 0
    else CountCulled(pipes[..|pipes| - 1]) + (if pipes[|pipes| - 1].x < PipeCullX then 1 else 0)
  }

  lemma {:induction false} CountCulledBound(pipes: seq<Pipe>)
    decreases |pipes|
    ensures CountCulled(pipes) <= |pipes|
  {
    if pipes != [] {
      CountCulledBound(pipes[..|pipes| - 1]);
    }
  }

  /** The pipes still in the group after a frame's scoring and culling loop. */
  function Survivors(pipes: seq<Pipe>, playerX: int): (kept: seq<Pipe>)
    decreases |pipes|
    ensures |kept| <= |pipes|
    ensures |kept| == |pipes| - CountCulled(pipes)
    ensures forall q :: q in kept ==> q.x >= PipeCullX && !ScoresNow(q, playerX)
    ensures forall i :: 0 <= i < |pipes| && pipes[i].x >= PipeCullX ==> Mark(pipes[i], playerX) in kept
  {
    if pipes == [] then []
    else
      var init := pipes[..|pipes| - 1];
      var last := pipes[|pipes| - 1];
      assert forall i :: 0 <= i < |pipes| - 1 ==> init[i] == pipes[i];
      Survivors(init, playerX) + (if last.x < PipeCullX then [] else [Mark(last, playerX)])
  }

  /** `q` is the marked copy of a pipe of `pipes` that the loop does not cull. */
  predicate FromInput(q: Pipe, pipes: seq<Pipe>, playerX: int)
  {
    exists i :: 0 <= i < |pipes| && pipes[i].x >= PipeCullX && q == Mark(pipes[i], playerX)
  }

  /** Every kept pipe is the marked copy of an input pipe that was not culled. */
  lemma {:induction false} SurvivorsFromInput(pipes: seq<Pipe>, playerX: int)
    decreases |pipes|
    ensures forall q :: q in Survivors(pipes, playerX) ==> FromInput(q, pipes, playerX)
  {
    if pipes != [] {
      var init := pipes[..|pipes| - 1];
      var last := pipes[|pipes| - 1];
      SurvivorsFromInput(init, playerX);
      forall q | q in Survivors(pipes, playerX)
        ensures FromInput(q, pipes, playerX)
      {
        if q in Survivors(init, playerX) {
          var i :| 0 <= i < |init| && init[i].x >= PipeCullX && q == Mark(init[i], playerX);
          assert pipes[i] == init[i];
        } else {
          assert pipes[|pipes| - 1].x >= PipeCullX && q == Mark(pipes[|pipes| - 1], playerX);
        }
      }
    }
  }

  /**
    Pipe `i`, when not culled, is kept marked at the position that follows
    the pipes kept before it: so the kept list is fixed in order and multiplicity.
  */
  lemma {:induction false} SurvivorsAt(pipes: seq<Pipe>, playerX: int, i: nat)
    requires i < |pipes| && pipes[i].x >= PipeCullX
    decreases |pipes|
    ensures CountCulled(pipes[..i]) <= i
    ensures i - CountCulled(pipes[..i]) < |Survivors(pipes, playerX)|
    ensures Survivors(pipes, playerX)[i - CountCulled(pipes[..i])] == Mark(pipes[i], playerX)
  {
    var init := pipes[..|pipes| - 1];
    var last := pipes[|pipes| - 1];
    var kept := Survivors(pipes, playerX);
    assert kept == Survivors(init, playerX) + (if last.x < PipeCullX then [] else [Mark(last, playerX)]);
    if i < |pipes| - 1 {
      assert init[..i] == pipes[..i];
      assert init[i] == pipes[i];
      SurvivorsAt(init, playerX, i);
    } else {
      assert pipes[..i] == init;
      CountCulledBound(init);
      assert |Survivors(init, playerX)| == i - CountCulled(init);
    }
  }

  /** The stars still in the group after a frame's culling loop. */
  function CullStars(stars: seq<Star>): (kept: seq<Star>)
    decreases |stars|
    ensures |kept| <= |stars|
    ensures forall t :: t in kept ==> t in stars && t.x >= StarCullX
    ensures forall i :: 0 <= i < |stars| && stars[i].x >= StarCullX ==> stars[i] in kept
  {
    if stars == [] then []
    else
      var init := stars[..|stars| - 1];
      var last := stars[|stars| - 1];
      assert forall i :: 0 <= i < |stars| - 1 ==> init[i] == stars[i];
      CullStars(init) + (if last.x < StarCullX then [] else [last])
  }

  /** The culling keeps each on-screen star as many times as it occurs, and no other star. */
  lemma {:induction false} CullStarsCounts(stars: seq<Star>)
    decreases |stars|
    ensures forall t :: multiset(CullStars(stars))[t] == (if t.x >= StarCullX then multiset(stars)[t] else 0)
  {
    if stars != [] {
      var init := stars[..|stars| - 1];
      var last := stars[|stars| - 1];
      assert stars == init + [last];
      CullStarsCounts(init);
    }
  }

  /** The pair `addPipes` creates for a drawn gap start: top pipe first. */
  function SpawnPipes(gapStart: int): (pair: seq<Pipe>)
    requires GapMin <= gapStart <= GapMax
    ensures |pair| == 2 && pair[0].x == SpawnX && pair[1].x == SpawnX
    ensures !pair[0].scored && !pair[1].scored
    ensures pair[1].y - pair[0].y == TopPipeLift + PipeGap
    ensures pair[0].y == gapStart - TopPipeLift && pair[1].y == gapStart + PipeGap
    ensures -220 <= pair[0].y <= 168 && 280 <= pair[1].y <= 668
  {
    [Pipe(SpawnX, gapStart - TopPipeLift, false), Pipe(SpawnX, gapStart + PipeGap, false)]
  }

  /** Only a pair whose gap starts at 320 or above the top can ever add a point, and never by its bottom pipe. */
  lemma SpawnedPairScoring(gapStart: int)
    requires GapMin <= gapStart <= GapMax
    ensures forall px :: !ScoresNow(SpawnPipes(gapStart)[1], px)
    ensures (exists px :: ScoresNow(SpawnPipes(gapStart)[0], px)) <==> gapStart <= TopPipeLift
  {
    var top := SpawnPipes(gapStart)[0];
    if gapStart <= TopPipeLift {
      assert ScoresNow(top, SpawnX + 1);
    }
  }

  // ---------------------------------------------------------------------------
  // Flash messages, with the call-site coercions of showFlashMessage

  /** What `showFlashMessage` receives: a category string, or (from collectStar) the GameState object. */
  datatype FlashArg = Category(name: string) | StateObject

  /**
    What a `showFlashMessage` call did: returned at the "bank not loaded" guard,
    forwarded a property key to FlashText.show, or threw because a GameState
    has no `toLowerCase`.
  */
  datatype FlashOutcome = NotLoaded | Forwarded(key: string) | TypeError

  /** ASCII `toLowerCase` of one character. */
  function LowerChar(c: char): char
  {
    if 'A' <= c <= 'Z' then (c as int + 32) as char else c
  }

  function ToLower(s: string): string
  {
    seq(|s|, i requires 0 <= i < |s| => LowerChar(s[i]))
  }

  /** `Array.prototype.join` with the default separator ",". */
  function Join(list: seq<string>): string
    decreases |list|
  {
    if |list| == 0 then ""
    else if |list| == 1 then list[0]
    else list[0] + "," + Join(list[1..])
  }

  /** Joining two or more messages always puts a comma in the key. */
  lemma {:induction false} JoinOfSeveralHasComma(list: seq<string>)
    requires |list| >= 2
    ensures ',' in Join(list)
  {
    assert Join(list)[|list[0]|] == ',';
  }

  /** The property key a value becomes when used as `messages[value]`. */
  function PropertyKey(v: Option<seq<string>>): string
  {
    match v
    case None => "undefined"
    case Some(list) => Join(list)
  }

  /**
    The key `show` receives: `sentimentTalks[name.toLowerCase()]`, an array,
    used as a key. Only a one-message list yields that message.
  */
  function FlashKey(bank: Flash.Bank, name: string): (k: string)
    ensures ToLower(name) !in bank ==> k == "undefined"
    ensures ToLower(name) in bank && |bank[ToLower(name)]| == 0 ==> k == ""
    ensures ToLower(name) in bank && |bank[ToLower(name)]| == 1 ==> k == bank[ToLower(name)][0]
    ensures ToLower(name) in bank && |bank[ToLower(name)]| >= 2 ==> ',' in k
  {
    var category := ToLower(name);
    if category in bank && |bank[category]| >= 2 then
      JoinOfSeveralHasComma(bank[category]);
      Join(bank[category])
    else
      PropertyKey(if category in bank then Some(bank[category]) else None)
  }

  function FlashOutcomeOf(talks: Option<Flash.Bank>, arg: FlashArg): (o: FlashOutcome)
    ensures o.NotLoaded? <==> talks.None?
    ensures o.TypeError? <==> talks.Some? && arg.StateObject?
    ensures o.Forwarded? ==> talks.Some? && arg.Category? && o.key == FlashKey(talks.value, arg.name)
  {
    if talks.None? then NotLoaded
    else match arg
      case StateObject => TypeError
      case Category(name) => Forwarded(FlashKey(talks.value, name))
  }

  /** A bank whose keys are ordinary names: none is "", "undefined" or holds a comma. */
  predicate PlainKeys(bank: Flash.Bank)
  {
    forall k :: k in bank ==> k != "" && k != "undefined" && ',' !in k
  }

  /**
    Because the array, not the category, reaches `show`, a flash can only find
    bank entries when the category's list holds exactly one message and that
    message is itself a key of the bank.
  */
  lemma FlashKeyInBankIff(bank: Flash.Bank, name: string)
    requires PlainKeys(bank)
    ensures FlashKey(bank, name) in bank <==>
      ToLower(name) in bank && |bank[ToLower(name)]| == 1 && bank[ToLower(name)][0] in bank
  {
  }

  // ---------------------------------------------------------------------------
  // The scene

  /**
    The scene's rule state. `talks` is `sentimentTalks` (None until the fetch
    resolves), `display` the FlashText overlay, and `flashLog` records the
    outcome of every `showFlashMessage` call, oldest first.
  */
  datatype Scene = Scene(
    gameOver: bool,
    score: int,
    player: Player,
    pipes: seq<Pipe>,
    stars: seq<Star>,
    pipeTimer: bool,
    starTimer: bool,
    tint: Option<int>,
    talks: Option<Flash.Bank>,
    display: Flash.Display,
    flashLog: seq<FlashOutcome>)

  /** The scene just after `create`. */
  function Created(score: int, playerHeight: int): (s: Scene)
    ensures !s.gameOver && s.pipes == [] && s.stars == [] && s.pipeTimer && s.starTimer
    ensures AngleInRange(s.player.angle) && s.player.velocityY == 0
    ensures s.player.angle == 0 && s.score == score && s.player.height == playerHeight
    ensures s.player.x == PlayerStartX && s.player.y == PlayerStartY
    ensures s.tint.None? && s.talks.None? && s.display == Flash.Initial && s.flashLog == []
  {
    Scene(false, score, Player(PlayerStartX, PlayerStartY, playerHeight, 0, 0), [], [],
          true, true, None, None, Flash.Initial, [])
  }

  function ShowFlashOn(s: Scene, arg: FlashArg, r: real): (s': Scene)
    requires 0.0 <= r < 1.0
    ensures s' == s.(display := s'.display, flashLog := s.flashLog + [FlashOutcomeOf(s.talks, arg)])
    ensures s'.display != s.display ==> FlashOutcomeOf(s.talks, arg).Forwarded?
    ensures var o := FlashOutcomeOf(s.talks, arg);
      o.Forwarded? && o.key !in s.talks.value ==> s'.display == s.display
    ensures var o := FlashOutcomeOf(s.talks, arg);
      o.Forwarded? && o.key in s.talks.value ==>
        s'.display.alpha == 1 && s'.display.fades == s.display.fades + [Flash.FadeOut] &&
        (|s.talks.value[o.key]| > 0 ==> s'.display.text.Some? && s'.display.text.value in s.talks.value[o.key]) &&
        (|s.talks.value[o.key]| == 0 ==> s'.display.text.None?)
  {
    var outcome := FlashOutcomeOf(s.talks, arg);
    var d := if outcome.Forwarded? then Flash.ShowOn(s.talks.value, s.display, outcome.key, r) else s.display;
    s.(display := d, flashLog := s.flashLog + [outcome])
  }

  function AddScoreOn(s: Scene, r: real): (s': Scene)
    requires 0.0 <= r < 1.0
    ensures s'.score == s.score + 1
    ensures |s'.flashLog| == |s.flashLog| + (if s'.score % FlashEvery == 0 then 1 else 0)
    ensures s'.score % FlashEvery == 0 ==> s'.flashLog[|s.flashLog|] == FlashOutcomeOf(s.talks, Category("neutral"))
    ensures s' == s.(score := s'.score, display := s'.display, flashLog := s'.flashLog)
    ensures s'.score % FlashEvery != 0 ==> s' == s.(score := s.score + 1)
    ensures s'.flashLog[..|s.flashLog|] == s.flashLog
  {
    // JavaScript's `score % 5 === 0` holds exactly for multiples of 5, negative ones too.
    var s1 := s.(score := s.score + 1);
    if s1.score % FlashEvery == 0 then ShowFlashOn(s1, Category("neutral"), r) else s1
  }

  function EndGameOn(s: Scene): (s': Scene)
    ensures s'.gameOver && !s'.pipeTimer && !s'.starTimer
    ensures s'.tint == Some(RedTint)
    ensures s' == s.(gameOver := true, pipeTimer := false, starTimer := false, tint := s'.tint)
  {
    s.(gameOver := true, pipeTimer := false, starTimer := false, tint := Some(RedTint))
  }

  /** A collision with a pipe: a negative flash, then the end, whatever the state. */
  function HitPipeOn(s: Scene, r: real): (s': Scene)
    requires 0.0 <= r < 1.0
    ensures s'.gameOver && !s'.pipeTimer && !s'.starTimer
    ensures s'.score == s.score && s'.pipes == s.pipes && s'.stars == s.stars
    ensures s'.flashLog == s.flashLog + [FlashOutcomeOf(s.talks, Category("negative"))]
    ensures s'.player == s.player && s'.talks == s.talks && s'.tint == Some(RedTint)
    ensures s'.display != s.display ==> FlashOutcomeOf(s.talks, Category("negative")).Forwarded?
  {
    EndGameOn(ShowFlashOn(s, Category("negative"), r))
  }

  function AddPipesOn(s: Scene, gapStart: int): (s': Scene)
    requires GapMin <= gapStart <= GapMax
    ensures s.gameOver ==> s' == s
    ensures !s.gameOver ==> s' == s.(pipes := s.pipes + SpawnPipes(gapStart))
  {
    if s.gameOver then s else s.(pipes := s.pipes + SpawnPipes(gapStart))
  }

  function AddStarOn(s: Scene, y: int): (s': Scene)
    requires StarMinY <= y <= StarMaxY
    ensures s.gameOver ==> s' == s
    ensures !s.gameOver ==> s' == s.(stars := s.stars + [Star(SpawnX, y)])
  {
    if s.gameOver then s else s.(stars := s.stars + [Star(SpawnX, y)])
  }

  /**
    Collecting star `i` when the shared GameState's score was `stateScore`:
    the scene score grows by the GameState score after its +5, and the flash
    call, given the GameState itself, never shows anything.
  */
  function CollectStarOn(s: Scene, i: nat, stateScore: int): (s': Scene)
    requires i < |s.stars|
    ensures s'.stars == s.stars[..i] + s.stars[i + 1..]
    ensures s'.score == s.score + stateScore + StarBonus
    ensures s'.display == s.display && s'.pipes == s.pipes && s'.gameOver == s.gameOver
    ensures s'.flashLog == s.flashLog + [if s.talks.None? then NotLoaded else TypeError]
    ensures s' == s.(stars := s'.stars, score := s'.score, flashLog := s'.flashLog)
  {
    var s1 := s.(stars := s.stars[..i] + s.stars[i + 1..], score := s.score + (stateScore + StarBonus));
    ShowFlashOn(s1, StateObject, 0.0)
  }

  // ---------------------------------------------------------------------------
  // One frame: the scoring and culling loop, then the boundary check

  /** The scoring loop's state: the scene so far, and the pipes kept so far. */
  datatype Pass = Pass(scene: Scene, kept: seq<Pipe>)

  /** One iteration of the loop: a point exactly when `p` scores now, and `p` kept, marked, unless culled. */
  function PipeStep(ps: Pass, p: Pipe, playerX: int, r: real): (next: Pass)
    requires 0.0 <= r < 1.0
    ensures next.scene.score == ps.scene.score + (if ScoresNow(p, playerX) then 1 else 0)
    ensures next.scene == ps.scene.(score := next.scene.score, display := next.scene.display,
                                    flashLog := next.scene.flashLog)
    ensures !ScoresNow(p, playerX) ==> next.scene == ps.scene
    ensures p.x < PipeCullX ==> next.kept == ps.kept
    ensures p.x >= PipeCullX ==> next.kept == ps.kept + [Mark(p, playerX)]
    ensures !ScoresNow(Mark(p, playerX), playerX)
  {
    var scene := if ScoresNow(p, playerX) then AddScoreOn(ps.scene, r) else ps.scene;
    Pass(scene, if p.x < PipeCullX then ps.kept else ps.kept + [Mark(p, playerX)])
  }

  /**
    The loop over `pipes`, in order, from `start`. It touches only the score,
    the display and the flash log of the scene; ScorePassScore and
    ScorePassKept say what it does to the score and the kept pipes.
  */
  function ScorePass(pipes: seq<Pipe>, playerX: int, r: real, start: Pass): (end: Pass)
    requires 0.0 <= r < 1.0
    decreases |pipes|
    ensures end.scene == start.scene.(score := end.scene.score, display := end.scene.display,
                                      flashLog := end.scene.flashLog)
  {
    if pipes == [] then start
    else PipeStep(ScorePass(pipes[..|pipes| - 1], playerX, r, start), pipes[|pipes| - 1], playerX, r)
  }

  /** The loop adds exactly one point per pipe that scores now. */
  lemma {:induction false} ScorePassScore(pipes: seq<Pipe>, playerX: int, r: real, start: Pass)
    requires 0.0 <= r < 1.0
    decreases |pipes|
    ensures ScorePass(pipes, playerX, r, start).scene.score == start.scene.score + CountScoring(pipes, playerX)
  {
    if pipes != [] {
      ScorePassScore(pipes[..|pipes| - 1], playerX, r, start);
    }
  }

  /** The loop appends exactly the survivors, marked and in order, to the kept pipes. */
  lemma {:induction false} ScorePassKept(pipes: seq<Pipe>, playerX: int, r: real, start: Pass)
    requires 0.0 <= r < 1.0
    decreases |pipes|
    ensures ScorePass(pipes, playerX, r, start).kept == start.kept + Survivors(pipes, playerX)
  {
    if pipes != [] {
      ScorePassKept(pipes[..|pipes| - 1], playerX, r, start);
    }
  }

  /** The loop only appends to the flash log. */
  lemma {:induction false} ScorePassLogGrows(pipes: seq<Pipe>, playerX: int, r: real, start: Pass)
    requires 0.0 <= r < 1.0
    decreases |pipes|
    ensures var log := ScorePass(pipes, playerX, r, start).scene.flashLog;
      |log| >= |start.scene.flashLog| && log[..|start.scene.flashLog|] == start.scene.flashLog
  {
    if pipes != [] {
      ScorePassLogGrows(pipes[..|pipes| - 1], playerX, r, start);
    }
  }

  /** `jump` on a fresh press of the jump key: only the vertical velocity changes. */
  function JumpOn(s: Scene, justDown: bool): (s': Scene)
    ensures justDown ==> s'.player.velocityY == JumpVelocity
    ensures !justDown ==> s' == s
    ensures s' == s.(player := s.player.(velocityY := s'.player.velocityY))
  {
    if justDown then s.(player := s.player.(velocityY := JumpVelocity)) else s
  }

  /** The rotation of `update`: only the player's angle changes, as Rotate says. */
  function TurnOn(s: Scene): (s': Scene)
    ensures s' == s.(player := s.player.(angle := s'.player.angle))
    ensures s'.player.angle == Rotate(s.player.angle, s.player.velocityY)
    ensures AngleInRange(s.player.angle) ==> AngleInRange(s'.player.angle)
  {
    s.(player := s.player.(angle := Rotate(s.player.angle, s.player.velocityY)))
  }

  /** The loop over the pipes: scoring, marking and culling. */
  function ScorePipesOn(s: Scene, r: real): (s': Scene)
    requires 0.0 <= r < 1.0
    ensures s' == s.(score := s.score + CountScoring(s.pipes, s.player.x),
                     pipes := Survivors(s.pipes, s.player.x),
                     display := s'.display, flashLog := s'.flashLog)
  {
    ScorePassScore(s.pipes, s.player.x, r, Pass(s, []));
    ScorePassKept(s.pipes, s.player.x, r, Pass(s, []));
    var pass := ScorePass(s.pipes, s.player.x, r, Pass(s, []));
    pass.scene.(pipes := pass.kept)
  }

  /** The star culling loop: each star is kept, as often as it occurs, exactly when on screen. */
  function CullStarsOn(s: Scene): (s': Scene)
    ensures s' == s.(stars := s'.stars)
    ensures forall t :: multiset(s'.stars)[t] == (if t.x >= StarCullX then multiset(s.stars)[t] else 0)
  {
    CullStarsCounts(s.stars);
    s.(stars := CullStars(s.stars))
  }

  /** The boundary check: out of bounds ends the game, and otherwise nothing happens. */
  function BoundsCheckOn(s: Scene): (s': Scene)
    ensures s'.gameOver <==> s.gameOver || OutOfBounds(s.player)
    ensures OutOfBounds(s.player) ==> !s'.pipeTimer && !s'.starTimer && s'.tint == Some(RedTint)
    ensures !OutOfBounds(s.player) ==> s' == s
    ensures s' == s.(gameOver := s'.gameOver, pipeTimer := s'.pipeTimer, starTimer := s'.starTimer,
                     tint := s'.tint)
  {
    if OutOfBounds(s.player) then EndGameOn(s) else s
  }

  /**
    One `update`: nothing once the game is over; otherwise the player keeps
    its place and the bank is untouched.
  */
  function Step(s: Scene, justDown: bool, r: real): (s': Scene)
    requires 0.0 <= r < 1.0
    ensures s.gameOver ==> s' == s
    ensures s'.talks == s.talks
    ensures s'.player.x == s.player.x && s'.player.y == s.player.y && s'.player.height == s.player.height
  {
    if s.gameOver then s
    else BoundsCheckOn(CullStarsOn(ScorePipesOn(TurnOn(JumpOn(s, justDown)), r)))
  }

  /** Before the bank has loaded, or when the neutral key misses the bank, no score changes the display. */
  lemma {:induction false} ScorePassDisplayQuiet(pipes: seq<Pipe>, playerX: int, r: real, start: Pass)
    requires 0.0 <= r < 1.0
    requires start.scene.talks.Some? ==> FlashKey(start.scene.talks.value, "neutral") !in start.scene.talks.value
    decreases |pipes|
    ensures ScorePass(pipes, playerX, r, start).scene.display == start.scene.display
  {
    if pipes != [] {
      ScorePassDisplayQuiet(pipes[..|pipes| - 1], playerX, r, start);
    }
  }

  // ---------------------------------------------------------------------------
  // Properties of one frame

  /** A frame only appends to the flash log: earlier outcomes are never rewritten. */
  lemma StepLogGrows(s: Scene, justDown: bool, r: real)
    requires 0.0 <= r < 1.0
    ensures var log := Step(s, justDown, r).flashLog;
      |log| >= |s.flashLog| && log[..|s.flashLog|] == s.flashLog
  {
    if !s.gameOver {
      var t := TurnOn(JumpOn(s, justDown));
      ScorePassLogGrows(t.pipes, t.player.x, r, Pass(t, []));
    }
  }

  /** A frame ends the game exactly when the player is out of bounds, and then both spawn timers stop. */
  lemma StepEndsIff(s: Scene, justDown: bool, r: real)
    requires 0.0 <= r < 1.0
    requires !s.gameOver
    ensures Step(s, justDown, r).gameOver <==> OutOfBounds(s.player)
    ensures Step(s, justDown, r).gameOver ==> !Step(s, justDown, r).pipeTimer && !Step(s, justDown, r).starTimer
    ensures !Step(s, justDown, r).gameOver ==>
      Step(s, justDown, r).pipeTimer == s.pipeTimer && Step(s, justDown, r).starTimer == s.starTimer
  {
  }

  /** The jump, the rotation, and nothing else about the player. */
  lemma StepMovesPlayer(s: Scene, justDown: bool, r: real)
    requires 0.0 <= r < 1.0
    requires !s.gameOver
    ensures var p := Step(s, justDown, r).player;
      p.x == s.player.x && p.y == s.player.y && p.height == s.player.height &&
      p.velocityY == (if justDown then JumpVelocity else s.player.velocityY) &&
      p.angle == Rotate(s.player.angle, p.velocityY)
    ensures AngleInRange(s.player.angle) ==> AngleInRange(Step(s, justDown, r).player.angle)
  {
  }

  /**
    A frame adds one point per pipe that scores now, keeps exactly the
    surviving pipes and stars, and leaves no kept pipe able to score again.
  */
  lemma StepScoresAndCulls(s: Scene, justDown: bool, r: real)
    requires 0.0 <= r < 1.0
    requires !s.gameOver
    ensures Step(s, justDown, r).score == s.score + CountScoring(s.pipes, s.player.x)
    ensures Step(s, justDown, r).pipes == Survivors(s.pipes, s.player.x)
    ensures Step(s, justDown, r).stars == CullStars(s.stars)
    ensures CountScoring(Step(s, justDown, r).pipes, s.player.x) == 0
  {
  }

  /** With nothing moved in between, a second frame scores no pipe twice. */
  lemma StepNoDoubleScore(s: Scene, justDown: bool, justDown': bool, r: real, r': real)
    requires 0.0 <= r < 1.0 && 0.0 <= r' < 1.0
    requires !s.gameOver
    ensures Step(Step(s, justDown, r), justDown', r').score == Step(s, justDown, r).score
  {
    var s1 := Step(s, justDown, r);
    StepScoresAndCulls(s, justDown, r);
    StepMovesPlayer(s, justDown, r);
    if !s1.gameOver {
      StepScoresAndCulls(s1, justDown', r');
    }
  }

  /**
    With a bank of plain keys whose neutral list does not hold exactly one
    message that is itself a key, no frame changes what the overlay shows.
  */
  lemma StepDisplayQuiet(s: Scene, justDown: bool, r: real)
    requires 0.0 <= r < 1.0
    requires s.talks.Some? ==> PlainKeys(s.talks.value)
    requires s.talks.Some? && "neutral" in s.talks.value ==>
      |s.talks.value["neutral"]| != 1 || s.talks.value["neutral"][0] !in s.talks.value
    ensures Step(s, justDown, r).display == s.display
  {
    if !s.gameOver {
      var t := TurnOn(JumpOn(s, justDown));
      if s.talks.Some? {
        assert ToLower("neutral") == "neutral";
        FlashKeyInBankIff(s.talks.value, "neutral");
      }
      ScorePassDisplayQuiet(t.pipes, t.player.x, r, Pass(t, []));
    }
  }

  /**
    From a fresh scene holding one top pipe the player has already passed, a
    first frame adds exactly one point and marks the pipe, and a second adds none.
  */
  lemma PassedPipeScoresOnce(score: int, height: int, r: real)
    requires 0.0 <= r < 1.0
    requires height < WorldHeight - PlayerStartY
    ensures var s0 := Created(score, height).(pipes := [Pipe(100, -50, false)]);
      var s1 := Step(s0, false, r);
      var s2 := Step(s1, false, r);
      !s1.gameOver && !s2.gameOver &&
      s1.score == score + 1 && s2.score == score + 1 &&
      s2.pipes == [Pipe(100, -50, true)]
  {
    var s0 := Created(score, height).(pipes := [Pipe(100, -50, false)]);
    assert CountScoring(s0.pipes, s0.player.x) == 1;
    StepScoresAndCulls(s0, false, r);
    StepEndsIff(s0, false, r);
    StepMovesPlayer(s0, false, r);
    var s1 := Step(s0, false, r);
    assert s1.pipes == [Pipe(100, -50, true)];
    StepScoresAndCulls(s1, false, r);
    StepEndsIff(s1, false, r);
    StepMovesPlayer(s1, false, r);
  }
}

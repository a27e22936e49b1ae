/**
  The Game scene (src/scenes/Game.ts) as an object whose event handlers
  change its fields in place. Each handler is proved against the matching
  transition of GameRules on the Snapshot() of the scene.
*/
module GameScene {
  import opened Wrappers
  import Flash
  import GameStates
  import opened GameRules

  class Game {
    var gameOver: bool
    var score: int
    var player: Player
    var pipes: seq<Pipe>
    var stars: seq<Star>
    /** Whether the looping pipe and star spawn timers are still registered. */
    var pipeTimer: bool
    var starTimer: bool
    var tint: Option<int>
    /** `sentimentTalks`: None until the message fetch resolves. */
    var talks: Option<Flash.Bank>
    /** The outcome of every `showFlashMessage` call, oldest first (an observation, not a field of the source). */
    var flashLog: seq<FlashOutcome>
    const gameState: GameStates.GameState
    const flashText: Flash.FlashText

    /** The overlay's bank is the scene's bank once loaded, and empty before. */
    predicate Valid()
      reads this, flashText
    {
      flashText.messages == (if talks.Some? then talks.value else map[])
    }

    function Snapshot(): Scene
      reads this, flashText
    {
      Scene(gameOver, score, player, pipes, stars, pipeTimer, starTimer, tint, talks,
            flashText.View(), flashLog)
    }

    /** The constructor's `getInstance` followed by `create`; `playerHeight` is the sprite's frame height. */
    constructor (registry: GameStates.Registry, playerHeight: int)
      modifies registry
      ensures Valid() && fresh(flashText)
      ensures gameState == registry.instance
      ensures old(registry.instance) != null ==> gameState == old(registry.instance)
      ensures Snapshot() == Created(gameState.score, playerHeight)
    {
      var gs := registry.GetInstance();
      gameState := gs;
      flashText := new Flash.FlashText();
      score := gs.GetScore();
      player := Player(PlayerStartX, PlayerStartY, playerHeight, 0, 0);
      pipes := [];
      stars := [];
      gameOver := false;
      pipeTimer := true;
      starTimer := true;
      tint := None;
      talks := None;
      flashLog := [];
    }

    /** The fetch of the message file resolved with `bank`. */
    method OnTalksLoaded(bank: Flash.Bank)
      requires Valid()
      modifies this, flashText
      ensures Valid()
      ensures Snapshot() == old(Snapshot()).(talks := Some(bank))
    {
      talks := Some(bank);
      flashText.SetMessages(bank);
    }

    method Jump()
      modifies this
      ensures Snapshot() == old(Snapshot()).(player := old(player).(velocityY := JumpVelocity))
    {
      player := player.(velocityY := JumpVelocity);
    }

    method ShowFlashMessage(arg: FlashArg, r: real) returns (outcome: FlashOutcome)
      requires Valid() && 0.0 <= r < 1.0
      modifies this, flashText
      ensures Valid()
      ensures outcome == FlashOutcomeOf(old(talks), arg)
      ensures Snapshot() == ShowFlashOn(old(Snapshot()), arg, r)
    {
      if talks.None? {
        outcome := NotLoaded;
      } else {
        match arg
        case StateObject =>
          outcome := TypeError;
        case Category(name) =>
          var category := ToLower(name);
          var key := PropertyKey(if category in talks.value then Some(talks.value[category]) else None);
          flashText.Show(key, r);
          outcome := Forwarded(key);
      }
      flashLog := flashLog + [outcome];
    }

    method AddScore(r: real)
      requires Valid() && 0.0 <= r < 1.0
      modifies this, flashText
      ensures Valid()
      ensures Snapshot() == AddScoreOn(old(Snapshot()), r)
    {
      score := score + 1;
      if score % FlashEvery == 0 {
        var _ := ShowFlashMessage(Category("neutral"), r);
      }
    }

    method EndGame()
      modifies this
      ensures Snapshot() == EndGameOn(old(Snapshot()))
    {
      gameOver := true;
      pipeTimer := false;
      starTimer := false;
      tint := Some(RedTint);
    }

    /** The collider callback: runs on every contact, game over or not. */
    method HitPipe(r: real)
      requires Valid() && 0.0 <= r < 1.0
      modifies this, flashText
      ensures Valid()
      ensures Snapshot() == HitPipeOn(old(Snapshot()), r)
    {
      var _ := ShowFlashMessage(Category("negative"), r);
      EndGame();
    }

    /** The pipe timer's callback; `gapStart` is the draw of `Between(100, 488)`. */
    method AddPipes(gapStart: int)
      requires GapMin <= gapStart <= GapMax
      modifies this
      ensures Snapshot() == AddPipesOn(old(Snapshot()), gapStart)
    {
      if gameOver {
        return;
      }
      var top := Pipe(SpawnX, gapStart - TopPipeLift, false);
      var bottom := Pipe(SpawnX, gapStart + PipeGap, false);
      pipes := pipes + [top];
      pipes := pipes + [bottom];
    }

    /** The star timer's callback; `y` is the draw of `Between(100, 668)`. */
    method AddStar(y: int)
      requires StarMinY <= y <= StarMaxY
      modifies this
      ensures Snapshot() == AddStarOn(old(Snapshot()), y)
    {
      if gameOver {
        return;
      }
      stars := stars + [Star(SpawnX, y)];
    }

    /**
      The overlap callback for star `i`. When the bank is loaded the flash
      call throws (the outcome is TypeError) after every update has been made.
    */
    method CollectStar(i: nat) returns (outcome: FlashOutcome)
      requires Valid() && i < |stars|
      modifies this, gameState, flashText
      ensures Valid()
      ensures outcome == (if old(talks).None? then NotLoaded else TypeError)
      ensures gameState.Snapshot() == old(gameState.Snapshot()).(score := old(gameState.score) + StarBonus)
      ensures Snapshot() == CollectStarOn(old(Snapshot()), i, old(gameState.score))
    {
      stars := stars[..i] + stars[i + 1..];
      gameState.SetScore(gameState.GetScore() + StarBonus);
      score := score + gameState.GetScore();
      outcome := ShowFlashMessage(StateObject, 0.0);
    }

    /** The rotation of `update`: toward 90 while falling, toward -30 otherwise. */
    method Turn()
      modifies this
      ensures Snapshot() == TurnOn(old(Snapshot()))
    {
      if player.velocityY > 0 {
        if player.angle < FallLimit {
          player := player.(angle := player.angle + FallTurn);
        }
      } else {
        if player.angle > RiseLimit {
          player := player.(angle := player.angle - RiseTurn);
        }
      }
    }

    /** The boundary check that closes `update`. */
    method CheckBounds()
      modifies this
      ensures Snapshot() == BoundsCheckOn(old(Snapshot()))
    {
      if player.y >= WorldHeight - player.height || player.y <= 0 {
        EndGame();
      }
    }

    /** One pass of the pipe loop: score and mark `pipe` if it scores now, and keep it unless culled. */
    method VisitPipe(pipe: Pipe, kept: seq<Pipe>, r: real) returns (kept': seq<Pipe>)
      requires Valid() && 0.0 <= r < 1.0
      modifies this, flashText
      ensures Valid() && pipes == old(pipes) && player == old(player)
      ensures Pass(Snapshot(), kept') == PipeStep(Pass(old(Snapshot()), kept), pipe, player.x, r)
    {
      var p := pipe;
      if !p.scored && p.x < player.x {
        if p.y <= 0 {
          AddScore(r);
          p := p.(scored := true);
        }
      }
      kept' := kept;
      if p.x >= PipeCullX {
        kept' := kept' + [p];
      }
    }

    /** The scoring and culling loop over the pipes of `update`. */
    method ScorePipes(r: real)
      requires Valid() && 0.0 <= r < 1.0
      modifies this, flashText
      ensures Valid()
      ensures Snapshot() == ScorePipesOn(old(Snapshot()), r)
    {
      ghost var start := Snapshot();
      var i := 0;
      var kept: seq<Pipe> := [];
      while i < |pipes|
        invariant 0 <= i <= |pipes|
        invariant Valid()
        invariant pipes == start.pipes && player == start.player
        invariant Pass(Snapshot(), kept) == ScorePass(pipes[..i], player.x, r, Pass(start, []))
      {
        assert pipes[..i + 1][..i] == pipes[..i];
        kept := VisitPipe(pipes[i], kept, r);
        i := i + 1;
      }
      assert pipes[..|pipes|] == pipes;
      pipes := kept;
    }

    /** The star culling loop of `update`. */
    method CullOffscreenStars()
      modifies this
      ensures Snapshot() == CullStarsOn(old(Snapshot()))
    {
      var j := 0;
      var keptStars: seq<Star> := [];
      while j < |stars|
        invariant 0 <= j <= |stars|
        invariant keptStars == CullStars(stars[..j])
      {
        assert stars[..j + 1][..j] == stars[..j];
        if stars[j].x >= StarCullX {
          keptStars := keptStars + [stars[j]];
        }
        j := j + 1;
      }
      assert stars[..|stars|] == stars;
      stars := keptStars;
    }

    /** One frame; `justDown` is the jump key's fresh press, `r` the draw any flash of this frame uses. */
    method Update(justDown: bool, r: real)
      requires Valid() && 0.0 <= r < 1.0
      modifies this, flashText
      ensures Valid()
      ensures Snapshot() == Step(old(Snapshot()), justDown, r)
    {
      if gameOver {
        return;
      }
      if justDown {
        Jump();
      }
      Turn();
      ScorePipes(r);
      CullOffscreenStars();
      CheckBounds();
    }
  }

  /** A first frame over a pipe the player has passed adds one point; a second frame adds none. */
  method PassOnePipe(registry: GameStates.Registry, r: real) returns (game: Game)
    requires 0.0 <= r < 1.0
    modifies registry
    ensures !game.gameOver && game.pipes == [Pipe(100, -50, true)]
    ensures game.score == game.gameState.score + 1
  {
    game := new Game(registry, 60);
    game.pipes := [Pipe(100, -50, false)];
    PassedPipeScoresOnce(game.score, 60, r);
    game.Update(false, r);
    game.Update(false, r);
  }
}

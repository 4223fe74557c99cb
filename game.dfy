/** The objects of BirdGame.java and the methods that update them in place.
    Each object's `State()` reads its fields into a value of module Model,
    and each method is proved to perform the matching transition of Model.
    The pipes are kept as values in the game's pipe list: every `Pipe` the
    game creates is referenced from that list alone, so updating a pipe in
    place and replacing its list element by the updated value are the same. */
module Game {
  import opened Model
  import Properties

  /** The bird. Only its height on the board and its animation counters
      change; the image array is represented by its length. */
  class Bird {
    const x: int
    var y: int
    const width: int
    const height: int
    const frames: nat
    var currentFrameIndex: nat
    var frameCount: nat

    function State(): BirdState
      reads this
    {
      BirdState(x, y, width, height, frames, currentFrameIndex, frameCount)
    }

    constructor (frames: nat)
      ensures State() == BirdState(BirdX, BirdY, BirdWidth, BirdHeight, frames, 0, 0)
    {
      x, y, width, height := BirdX, BirdY, BirdWidth, BirdHeight;
      this.frames := frames;
      currentFrameIndex, frameCount := 0, 0;
    }

    /** `updateAnimation`. */
    method UpdateAnimation()
      requires frames > 0
      modifies this
      ensures State() == Animated(old(State()))
    {
      frameCount := frameCount + 1;
      if frameCount % FrameTicks == 0 {
        currentFrameIndex := (currentFrameIndex + 1) % frames;
      }
    }
  }

  /** The game panel, stripped of painting, images and sound. The pipe list
      holds the pipes as values (see `PipeState`); `move` replaces each
      element by its updated value. */
  class BirdGame {
    const bird: Bird
    var velocityY: int
    var pipes: seq<PipeState>
    var gameOver: bool
    /** The score in half-points. */
    var score: nat
    /** The game loop timer and the pipe timer are started. */
    var running: bool

    function State(): World
      reads this, bird
    {
      World(bird.State(), velocityY, pipes, score, gameOver, running)
    }

    ghost predicate Valid()
      reads this, bird
    {
      Inv(State())
    }

    /** The constructor, without loading images and sounds. */
    constructor ()
      ensures Valid() && Live(State()) && fresh(bird)
      ensures State() == InitialWorld()
    {
      bird := new Bird(BirdFrames);
      velocityY := 0;
      pipes := [];
      gameOver := false;
      score := 0;
      running := true;
      new;
      Properties.InitialInv();
    }

    /** `placePipes` with the random draw `r` in place of
        `Math.random() * (pipeHeight / 2)`. */
    method PlacePipes(r: int)
      requires Valid()
      requires 0 <= r < PipeHeight / 2
      modifies this
      ensures Valid()
      ensures State() == AfterPlacePipes(old(State()), r)
    {
      ghost var w := State();
      var randomPipeY := RandomPipeY(r);
      var openingSpace := BoardHeight / 4;

      var topPipe := NewPipe(TopPipeImage);
      topPipe := topPipe.(y := randomPipeY);
      pipes := pipes + [topPipe];

      var bottomPipe := NewPipe(BottomPipeImage);
      bottomPipe := bottomPipe.(y := topPipe.y + PipeHeight + openingSpace);
      pipes := pipes + [bottomPipe];

      assert pipes == w.pipes + [topPipe, bottomPipe];
      Properties.PlacePipesPreservesInv(w, r);
    }

    /** `move`. */
    method Move()
      requires Valid()
      modifies this, bird
      ensures Valid()
      ensures State() == AfterMove(old(State()))
    {
      ghost var w := State();
      velocityY := velocityY + Gravity;
      bird.y := bird.y + velocityY;
      bird.y := Max(bird.y, 0);
      bird.UpdateAnimation();

      MovePipes();

      if bird.y > BoardHeight {
        gameOver := true;
      }
      Properties.MovePreservesInv(w);
    }

    /** The loop of `move` over the pipes: each pipe in turn is scrolled,
        credited if the bird has just passed it, and checked for a
        collision with the bird. */
    method MovePipes()
      modifies this`pipes, this`score, this`gameOver
      ensures pipes == ScrollAll(old(pipes), bird.x)
      ensures score == old(score) + Credited(old(pipes), bird.x)
      ensures gameOver == (old(gameOver) || AnyCollision(bird.State(), pipes))
    {
      ghost var before := pipes;
      ghost var moved := ScrollAll(before, bird.x);
      for i := 0 to |pipes|
        invariant |pipes| == |before|
        invariant forall j :: 0 <= j < i ==> pipes[j] == moved[j]
        invariant forall j :: i <= j < |pipes| ==> pipes[j] == before[j]
        invariant score == old(score) + Credited(before[..i], bird.x)
        invariant gameOver == (old(gameOver) || AnyCollision(bird.State(), moved[..i]))
      {
        var pipe := pipes[i];
        pipe := pipe.(x := pipe.x + VelocityX);

        if !pipe.passed && bird.x > pipe.x + pipe.width {
          score := score + 1;
          pipe := pipe.(passed := true);
        }
        pipes := pipes[i := pipe];

        if Collision(bird.State(), pipe) {
          gameOver := true;
        }
        Properties.CreditedSnoc(before, i, bird.x);
        Properties.AnyCollisionSnoc(bird.State(), moved, i);
      }
      assert before[..|pipes|] == before;
      assert moved[..|pipes|] == moved;
      assert pipes == moved;
    }

    /** `actionPerformed` of the game loop timer, which fires only while the
        timers run: one `move`, and both timers stop once the game is over. */
    method Tick()
      requires Valid() && Live(State())
      modifies this, bird
      ensures Valid() && Live(State())
      ensures State() == AfterTick(old(State()))
    {
      if running {
        Move();
        if gameOver {
          running := false;
        }
      }
    }

    /** The pipe timer's action, which fires only while the timers run. */
    method Spawn(r: int)
      requires Valid() && Live(State())
      requires 0 <= r < PipeHeight / 2
      modifies this
      ensures Valid() && Live(State())
      ensures State() == AfterSpawn(old(State()), r)
    {
      if running {
        PlacePipes(r);
      }
    }

    /** `keyPressed`. */
    method KeyPressed(keyCode: int)
      requires Valid() && Live(State())
      modifies this, bird
      ensures Valid() && Live(State())
      ensures State() == AfterKeyPressed(old(State()), keyCode)
    {
      ghost var w := State();
      if keyCode == SpaceKey {
        velocityY := JumpVelocity;

        if gameOver {
          bird.y := BirdY;
          velocityY := 0;
          pipes := [];
          gameOver := false;
          score := 0;
          running := true;
        }
      }
      Properties.KeyPressedPreservesInv(w, keyCode);
    }
  }

  /** A new game left alone for five ticks, before the first pipe pair
      appears: the bird falls from rest by 1 + 2 + 3 + 4 + 5 units and the
      game goes on. */
  method FiveTicksAfterStart() returns (y: int, velocity: int, over: bool)
    ensures y == BirdY + 15 && velocity == 5 && !over
  {
    var game := new BirdGame();
    game.Tick();
    assert game.pipes == [] && game.velocityY == 1 && game.bird.y == BirdY + 1 && game.running;
    game.Tick();
    assert game.pipes == [] && game.velocityY == 2 && game.bird.y == BirdY + 3 && game.running;
    game.Tick();
    assert game.pipes == [] && game.velocityY == 3 && game.bird.y == BirdY + 6 && game.running;
    game.Tick();
    assert game.pipes == [] && game.velocityY == 4 && game.bird.y == BirdY + 10 && game.running;
    game.Tick();
    y, velocity, over := game.bird.y, game.velocityY, game.gameOver;
  }
}

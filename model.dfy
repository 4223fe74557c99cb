/** The game state of BirdGame as plain values, and every transition of the
    simulation as a pure function on it. The classes in module Game are
    proved to perform exactly these transitions; module Properties proves
    what the game promises about them. */
module Model {
  import opened Geometry

  // Board geometry (BirdGame.java, lines 10-11)
  const BoardWidth: int := 500
  const BoardHeight: int := 800

  // The bird (lines 17, 20-23)
  const BirdX: int := BoardWidth / 8
  const BirdY: int := BoardWidth / 2
  const BirdWidth: int := 65
  const BirdHeight: int := 70
  /** `birdFrames = new Image[4]`: the number of animation frames. */
  const BirdFrames: nat := 4
  /** Ticks between two animation frames. */
  const FrameTicks: nat := 10

  // Pipes (lines 51-54)
  const PipeX: int := BoardWidth
  const PipeY: int := 0
  const PipeWidth: int := 64
  const PipeHeight: int := 512
  /** Vertical gap between the top and the bottom pipe of a pair. */
  const OpeningSpace: int := BoardHeight / 4
  /** Horizontal shrink of a pipe's hit box on each side. */
  const HitBoxInset: int := 10

  // Motion (lines 71-73, 264)
  const VelocityX: int := -4
  const Gravity: int := 1
  const JumpVelocity: int := -9

  /** `KeyEvent.VK_SPACE`. */
  const SpaceKey: int := 0x20

  /** Which sprite a pipe shows: the pipe hanging from the top or the one
      standing on the bottom. */
  datatype PipeImage = TopPipeImage | BottomPipeImage

  /** The fields of a `Bird`; `frames` is the length of its frame array. */
  datatype BirdState = BirdState(
    x: int, y: int, width: int, height: int,
    frames: nat, frameIndex: nat, frameCount: nat)

  /** The fields of a `Pipe`. */
  datatype PipeState = PipeState(
    x: int, y: int, width: int, height: int, img: PipeImage, passed: bool)

  /** The simulation state of a `BirdGame`. `score` counts half-points: the
      source's `double score` is always `score / 2.0`. `running` stands for
      the two timers, which are always started and stopped together. */
  datatype World = World(
    bird: BirdState, velocityY: int, pipes: seq<PipeState>,
    score: nat, gameOver: bool, running: bool)

  /** `Math.max` on integers. */
  function Max(a: int, b: int): int {
    if a >= b then a else b
  }

  // ---------------------------------------------------------------------
  // Bird animation

  /** `Bird.updateAnimation`: one more tick; every `FrameTicks`-th tick the
      frame index moves on, wrapping around after the last frame. */
  function Animated(b: BirdState): BirdState
    requires b.frames > 0
  {
    var count := b.frameCount + 1;
    b.(frameCount := count,
       frameIndex := if count % FrameTicks == 0 then (b.frameIndex + 1) % b.frames else b.frameIndex)
  }

  // ---------------------------------------------------------------------
  // Collision

  function BirdRect(b: BirdState): Rect {
    Rect(b.x, b.y, b.width, b.height)
  }

  /** The rectangle a pipe is drawn in. */
  function PipeRect(p: PipeState): Rect {
    Rect(p.x, p.y, p.width, p.height)
  }

  /** The rectangle a pipe collides with: its drawn rectangle narrowed by
      `HitBoxInset` on the left and on the right. */
  function PipeHitBox(p: PipeState): Rect {
    Rect(p.x + HitBoxInset, p.y, p.width - 2 * HitBoxInset, p.height)
  }

  /** `BirdGame.collision`, without its explosion sound. */
  predicate Collision(a: BirdState, b: PipeState) {
    Intersects(BirdRect(a), PipeHitBox(b))
  }

  /** Some pipe of `ps` collides with the bird. */
  predicate AnyCollision(b: BirdState, ps: seq<PipeState>) {
    if |ps| == 0 then false
    else AnyCollision(b, ps[..|ps| - 1]) || Collision(b, ps[|ps| - 1])
  }

  // ---------------------------------------------------------------------
  // Pipe motion and scoring

  /** The x coordinate of a pipe after one tick of scrolling. */
  function ScrolledX(p: PipeState): int {
    p.x + VelocityX
  }

  /** This tick credits pipe `p` to a bird at horizontal position `birdX`:
      the pipe had not been passed, and after scrolling its right edge lies
      strictly left of the bird's left edge. */
  predicate Credits(p: PipeState, birdX: int) {
    !p.passed && birdX > ScrolledX(p) + p.width
  }

  /** A pipe after one pass of the loop body in `move`. */
  function Scrolled(p: PipeState, birdX: int): PipeState {
    p.(x := ScrolledX(p), passed := p.passed || Credits(p, birdX))
  }

  function ScrollAll(ps: seq<PipeState>, birdX: int): (r: seq<PipeState>) {
    seq(|ps|, i requires 0 <= i < |ps| => Scrolled(ps[i], birdX))
  }

  /** How many half-points one tick awards. */
  function Credited(ps: seq<PipeState>, birdX: int): (n: nat)
    ensures n <= |ps|
  {
    if |ps| == 0 then 0
    else Credited(ps[..|ps| - 1], birdX) + (if Credits(ps[|ps| - 1], birdX) then 1 else 0)
  }

  /** How many pipes of `ps` are flagged as passed. */
  function CountPassed(ps: seq<PipeState>): (n: nat)
    ensures n <= |ps|
  {
    if |ps| == 0 then 0
    else CountPassed(ps[..|ps| - 1]) + (if ps[|ps| - 1].passed then 1 else 0)
  }

  /** `BirdGame.move`: gravity, the ceiling clamp, the animation tick, the
      scroll-score-collide loop over the pipes in list order, and the
      fall-off-the-bottom check. */
  function AfterMove(w: World): World
    requires w.bird.frames > 0
  {
    var velocityY := w.velocityY + Gravity;
    var bird := Animated(w.bird.(y := Max(w.bird.y + velocityY, 0)));
    var pipes := ScrollAll(w.pipes, bird.x);
    w.(bird := bird, velocityY := velocityY, pipes := pipes,
       score := w.score + Credited(w.pipes, bird.x),
       gameOver := w.gameOver || AnyCollision(bird, pipes) || bird.y > BoardHeight)
  }

  // ---------------------------------------------------------------------
  // Spawning

  /** The top pipe's y for the random draw `r`. The source computes
      `(int) (pipeY - pipeHeight/4 - Math.random() * (pipeHeight/2))`; the
      cast truncates toward zero, so the value is `-128 - r` where `r` is the
      integer part of `Math.random() * 256`. */
  function RandomPipeY(r: int): (y: int)
    requires 0 <= r < PipeHeight / 2
    ensures PipeY - PipeHeight / 4 - PipeHeight / 2 < y <= PipeY - PipeHeight / 4
  {
    PipeY - PipeHeight / 4 - r
  }

  /** A freshly constructed `Pipe` showing `img`. */
  function NewPipe(img: PipeImage): PipeState {
    PipeState(PipeX, PipeY, PipeWidth, PipeHeight, img, false)
  }

  /** `BirdGame.placePipes` with the random draw `r`. */
  function AfterPlacePipes(w: World, r: int): World
    requires 0 <= r < PipeHeight / 2
  {
    var top := NewPipe(TopPipeImage).(y := RandomPipeY(r));
    var bottom := NewPipe(BottomPipeImage).(y := top.y + PipeHeight + OpeningSpace);
    w.(pipes := w.pipes + [top, bottom])
  }

  // ---------------------------------------------------------------------
  // Events

  /** `BirdGame.keyPressed`: space jumps, or restarts a finished game. */
  function AfterKeyPressed(w: World, keyCode: int): World {
    if keyCode != SpaceKey then w
    else if !w.gameOver then w.(velocityY := JumpVelocity)
    else w.(bird := w.bird.(y := BirdY), velocityY := 0, pipes := [],
            gameOver := false, score := 0, running := true)
  }

  /** `BirdGame.actionPerformed`, fired by the game loop timer: only while
      the timers run; a tick that ends the game stops them. */
  function AfterTick(w: World): World
    requires w.bird.frames > 0
  {
    if !w.running then w
    else
      var m := AfterMove(w);
      if m.gameOver then m.(running := false) else m
  }

  /** The pipe timer firing: `placePipes` runs only while the timers run. */
  function AfterSpawn(w: World, r: int): World
    requires 0 <= r < PipeHeight / 2
  {
    if w.running then AfterPlacePipes(w, r) else w
  }

  /** The state the `BirdGame` constructor builds. */
  function InitialWorld(): World {
    World(BirdState(BirdX, BirdY, BirdWidth, BirdHeight, BirdFrames, 0, 0),
          0, [], 0, false, true)
  }

  // ---------------------------------------------------------------------
  // Invariants

  /** The bird keeps its constant geometry, never rises above the board, and
      its frame index is the number of completed `FrameTicks` periods,
      wrapped around the frame count. */
  predicate BirdOk(b: BirdState) {
    b.x == BirdX && b.width == BirdWidth && b.height == BirdHeight &&
    b.frames == BirdFrames && b.y >= 0 &&
    b.frameIndex == (b.frameCount / FrameTicks) % b.frames
  }

  /** `top` and `bottom` are the two pipes of one `placePipes` call, scrolled
      together ever since. */
  predicate PairOk(top: PipeState, bottom: PipeState) {
    top.img == TopPipeImage && bottom.img == BottomPipeImage &&
    top.width == PipeWidth && bottom.width == PipeWidth &&
    top.height == PipeHeight && bottom.height == PipeHeight &&
    top.x == bottom.x && top.passed == bottom.passed &&
    PipeY - PipeHeight / 4 - PipeHeight / 2 < top.y <= PipeY - PipeHeight / 4 &&
    bottom.y == top.y + PipeHeight + OpeningSpace
  }

  /** The pipe list is a sequence of spawned pairs. */
  predicate PairsValid(ps: seq<PipeState>) {
    if |ps| == 0 then true
    else |ps| >= 2 && PairOk(ps[|ps| - 2], ps[|ps| - 1]) && PairsValid(ps[..|ps| - 2])
  }

  /** A pipe is flagged as passed exactly when its right edge is strictly
      left of the bird. */
  predicate PassedExactlyBehind(ps: seq<PipeState>) {
    forall i :: 0 <= i < |ps| ==> (ps[i].passed <==> BirdX > ps[i].x + ps[i].width)
  }

  /** What holds of every state the game reaches. */
  predicate Inv(w: World) {
    BirdOk(w.bird) && PairsValid(w.pipes) && PassedExactlyBehind(w.pipes) &&
    w.score == CountPassed(w.pipes)
  }

  /** Between events the timers run exactly while the game is not over. */
  predicate Live(w: World) {
    w.running == !w.gameOver
  }
}

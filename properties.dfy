/** What the game promises about its transitions, proved of the pure model:
    the physics of one tick, the scrolling and one-time scoring of pipes, the
    game-over condition, the pair layout of spawned pipes, the key handler's
    jump and restart, the animation counter, the timers, and the invariant
    every reachable state keeps. */
module Properties {
  import opened Geometry
  import opened Model

  // ---------------------------------------------------------------------
  // The bird

  /** Gravity raises the velocity by exactly one per tick; the bird moves by
      the new velocity but never above the top of the board. */
  lemma MovePhysics(w: World)
    requires w.bird.frames > 0
    ensures AfterMove(w).velocityY == w.velocityY + 1
    ensures AfterMove(w).bird.y == Max(w.bird.y + w.velocityY + 1, 0)
    ensures AfterMove(w).bird.y >= 0
    ensures AfterMove(w).bird.x == w.bird.x
  {
  }

  /** The only multiple of `n` strictly between `-n` and `n` is zero. */
  lemma MultipleInOpenInterval(d: int, n: int)
    requires n > 0 && -n < d * n < n
    ensures d == 0
  {
  }

  /** Division by `n` is determined by quotient and remainder. */
  lemma ModOfSum(k: int, n: int, s: int)
    requires n > 0 && 0 <= s < n
    ensures (k * n + s) % n == s && (k * n + s) / n == k
  {
    var a := k * n + s;
    var d := k - a / n;
    assert d * n == a % n - s;
    MultipleInOpenInterval(d, n);
  }

  /** Adding one commutes with taking the remainder. */
  lemma ModSucc(q: nat, n: nat)
    requires n > 0
    ensures (q % n + 1) % n == (q + 1) % n
  {
    var k, r := q / n, q % n;
    assert q == k * n + r;
    if r + 1 < n {
      ModOfSum(k, n, r + 1);
      assert q + 1 == k * n + (r + 1);
    } else {
      ModOfSum(k + 1, n, 0);
      assert q + 1 == (k + 1) * n + 0;
      ModOfSum(0, n, 0);
    }
  }

  /** One animation tick: the counter grows by one; the index moves on, with
      wrap-around, exactly on the ticks whose new count is a multiple of
      `FrameTicks`, and stays a valid index into the frame array. */
  lemma AnimationStep(b: BirdState)
    requires b.frames > 0 && b.frameIndex < b.frames
    ensures Animated(b).frameCount == b.frameCount + 1
    ensures Animated(b).frameCount % FrameTicks == 0 ==>
              Animated(b).frameIndex == (b.frameIndex + 1) % b.frames
    ensures Animated(b).frameCount % FrameTicks != 0 ==> Animated(b).frameIndex == b.frameIndex
    ensures Animated(b).frameIndex < Animated(b).frames == b.frames
    ensures Animated(b).(frameIndex := b.frameIndex, frameCount := b.frameCount) == b
  {
  }

  /** Starting from index 0 at count 0, the frame index is always the number
      of completed `FrameTicks` periods, wrapped around the frame count. */
  lemma AnimationPhase(b: BirdState)
    requires b.frames > 0
    requires b.frameIndex == (b.frameCount / FrameTicks) % b.frames
    ensures Animated(b).frameIndex == (Animated(b).frameCount / FrameTicks) % b.frames
  {
    var q := b.frameCount / FrameTicks;
    if (b.frameCount + 1) % FrameTicks == 0 {
      assert (b.frameCount + 1) / FrameTicks == q + 1;
      ModSucc(q, b.frames);
    } else {
      assert (b.frameCount + 1) / FrameTicks == q;
    }
  }

  // ---------------------------------------------------------------------
  // Collision

  /** `collision` is true exactly when the bird's box and the pipe's box
      narrowed by 10 on each side both have positive extents and overlap
      strictly on both axes. */
  lemma CollisionMeaning(b: BirdState, p: PipeState)
    ensures Collision(b, p) <==>
      (b.width > 0 && b.height > 0 && p.width > 2 * HitBoxInset && p.height > 0 &&
       b.x < p.x + p.width - HitBoxInset && p.x + HitBoxInset < b.x + b.width &&
       b.y < p.y + p.height && p.y < b.y + b.height)
  {
  }

  /** A bird that overlaps only the 10-unit margin of a pipe's sprite does not
      collide with it. */
  lemma MarginIsForgiven(b: BirdState, p: PipeState)
    requires b.x + b.width <= p.x + HitBoxInset || p.x + p.width - HitBoxInset <= b.x
    ensures !Collision(b, p)
  {
  }

  /** A collision always means that the bird and the drawn pipe share a pixel. */
  lemma CollisionMeansSpritesOverlap(b: BirdState, p: PipeState)
    requires Collision(b, p)
    ensures ShareAPixel(BirdRect(b), PipeRect(p))
  {
    IntersectsIffShareAPixel(BirdRect(b), PipeHitBox(p));
    var px, py :| Covers(BirdRect(b), px, py) && Covers(PipeHitBox(p), px, py);
    assert Covers(PipeRect(p), px, py);
  }

  lemma AnyCollisionSnoc(b: BirdState, ps: seq<PipeState>, i: nat)
    requires i < |ps|
    ensures AnyCollision(b, ps[..i + 1]) == (AnyCollision(b, ps[..i]) || Collision(b, ps[i]))
  {
    assert ps[..i + 1][..i] == ps[..i];
  }

  lemma {:induction false} AnyCollisionIff(b: BirdState, ps: seq<PipeState>)
    ensures AnyCollision(b, ps) <==> exists i :: 0 <= i < |ps| && Collision(b, ps[i])
  {
    if |ps| > 0 {
      var init := ps[..|ps| - 1];
      AnyCollisionIff(b, init);
      if AnyCollision(b, init) {
        var i :| 0 <= i < |init| && Collision(b, init[i]);
        assert ps[i] == init[i];
      }
      if exists i :: 0 <= i < |ps| && Collision(b, ps[i]) {
        var i :| 0 <= i < |ps| && Collision(b, ps[i]);
        if i < |init| {
          assert init[i] == ps[i];
        }
      }
    }
  }

  // ---------------------------------------------------------------------
  // Pipes and scoring

  /** One tick scrolls every pipe left by exactly 4 and changes nothing else
      about it but its `passed` flag, which never goes back from true; no
      pipe is added, removed or reordered. */
  lemma MoveScrollsPipes(w: World)
    requires w.bird.frames > 0
    ensures |AfterMove(w).pipes| == |w.pipes|
    ensures forall i :: 0 <= i < |w.pipes| ==>
      var p, q := w.pipes[i], AfterMove(w).pipes[i];
      q.x == p.x - 4 && q.y == p.y && q.width == p.width && q.height == p.height &&
      q.img == p.img && (p.passed ==> q.passed)
  {
  }

  /** How many `passed` flags went from false to true between two pipe lists
      of the same length. */
  function FlippedCount(before: seq<PipeState>, after: seq<PipeState>): (n: nat)
    requires |before| == |after|
    ensures n <= |before|
  {
    if |before| == 0 then 0
    else
      var k := |before| - 1;
      FlippedCount(before[..k], after[..k]) + (if !before[k].passed && after[k].passed then 1 else 0)
  }

  lemma CreditedSnoc(ps: seq<PipeState>, i: nat, birdX: int)
    requires i < |ps|
    ensures Credited(ps[..i + 1], birdX) == Credited(ps[..i], birdX) + (if Credits(ps[i], birdX) then 1 else 0)
  {
    assert ps[..i + 1][..i] == ps[..i];
  }

  lemma {:induction false} CreditedIsFlipped(ps: seq<PipeState>, birdX: int)
    ensures Credited(ps, birdX) == FlippedCount(ps, ScrollAll(ps, birdX))
  {
    if |ps| > 0 {
      var k := |ps| - 1;
      assert ScrollAll(ps, birdX)[..k] == ScrollAll(ps[..k], birdX);
      CreditedIsFlipped(ps[..k], birdX);
    }
  }

  lemma {:induction false} CountPassedScrolled(ps: seq<PipeState>, birdX: int)
    ensures CountPassed(ScrollAll(ps, birdX)) == CountPassed(ps) + Credited(ps, birdX)
  {
    if |ps| > 0 {
      var k := |ps| - 1;
      assert ScrollAll(ps, birdX)[..k] == ScrollAll(ps[..k], birdX);
      CountPassedScrolled(ps[..k], birdX);
    }
  }

  /** A tick only credits pipes not yet passed, at most once each. */
  lemma {:induction false} CreditedOnlyUnpassed(ps: seq<PipeState>, birdX: int)
    ensures Credited(ps, birdX) <= |ps| - CountPassed(ps)
  {
    if |ps| > 0 {
      CreditedOnlyUnpassed(ps[..|ps| - 1], birdX);
    }
  }

  /** The score grows by exactly half a point for each pipe whose `passed`
      flag flips in the tick, so it never decreases; afterwards the number of
      passed pipes has grown by exactly as much. */
  lemma MoveScoring(w: World)
    requires w.bird.frames > 0
    ensures AfterMove(w).score == w.score + FlippedCount(w.pipes, AfterMove(w).pipes)
    ensures AfterMove(w).score >= w.score
    ensures CountPassed(AfterMove(w).pipes) == CountPassed(w.pipes) + FlippedCount(w.pipes, AfterMove(w).pipes)
  {
    CreditedIsFlipped(w.pipes, w.bird.x);
    CountPassedScrolled(w.pipes, w.bird.x);
  }

  /** No pipe is credited twice: in every reachable state the score counts
      exactly the pipes flagged as passed, one half-point each, so it never
      exceeds the number of pipes, and a tick credits only pipes that were
      not yet passed. */
  lemma ScoreCreditsEachPipeOnce(w: World)
    requires Inv(w)
    ensures w.score == CountPassed(w.pipes) <= |w.pipes|
    ensures AfterMove(w).score - w.score <= |w.pipes| - CountPassed(w.pipes)
    ensures AfterMove(w).score == CountPassed(AfterMove(w).pipes) <= |w.pipes|
  {
    CreditedOnlyUnpassed(w.pipes, w.bird.x);
    CountPassedScrolled(w.pipes, w.bird.x);
  }

  /** `move` never clears `gameOver`: it sets it when some pipe, after
      scrolling, collides with the moved bird, or when the bird is below the
      board, and otherwise leaves it as it was. */
  lemma MoveGameOver(w: World)
    requires w.bird.frames > 0
    ensures AfterMove(w).gameOver <==>
      (w.gameOver ||
       (exists i :: 0 <= i < |AfterMove(w).pipes| && Collision(AfterMove(w).bird, AfterMove(w).pipes[i])) ||
       AfterMove(w).bird.y > BoardHeight)
  {
    AnyCollisionIff(AfterMove(w).bird, AfterMove(w).pipes);
  }

  /** Once the bird is below the board the game is over, with or without
      pipes. */
  lemma FallingOffEndsGame(w: World)
    requires w.bird.frames > 0
    requires w.bird.y + w.velocityY + Gravity > BoardHeight
    ensures AfterMove(w).gameOver
  {
  }

  // ---------------------------------------------------------------------
  // Spawning

  /** `placePipes` appends exactly a top and a bottom pipe, both at the right
      edge of the board, unpassed, 64 wide and 512 high, the bottom one 712
      below the top one, the top one between -383 and -128; the pipes already
      there and the rest of the state are untouched. */
  lemma PlacePipesAppendsPair(w: World, r: int)
    requires 0 <= r < PipeHeight / 2
    ensures var w' := AfterPlacePipes(w, r);
      |w'.pipes| == |w.pipes| + 2 && w'.pipes[..|w.pipes|] == w.pipes &&
      w'.(pipes := w.pipes) == w
    ensures var ps := AfterPlacePipes(w, r).pipes;
      var top, bottom := ps[|ps| - 2], ps[|ps| - 1];
      top.x == 500 && bottom.x == 500 && !top.passed && !bottom.passed &&
      top.width == 64 && bottom.width == 64 && top.height == 512 && bottom.height == 512 &&
      top.img == TopPipeImage && bottom.img == BottomPipeImage &&
      bottom.y - top.y == 712 && -383 <= top.y <= -128 && top.y == -(128 + r)
  {
    var ps := AfterPlacePipes(w, r).pipes;
    assert ps[..|w.pipes|] == w.pipes;
  }

  lemma AppendPair(ps: seq<PipeState>, top: PipeState, bottom: PipeState)
    requires PairsValid(ps) && PairOk(top, bottom)
    ensures PairsValid(ps + [top, bottom])
  {
    assert (ps + [top, bottom])[..|ps|] == ps;
  }

  lemma {:induction false} ScrollKeepsPairs(ps: seq<PipeState>, birdX: int)
    requires PairsValid(ps)
    ensures PairsValid(ScrollAll(ps, birdX))
  {
    if |ps| > 0 {
      var k := |ps| - 2;
      assert ScrollAll(ps, birdX)[..k] == ScrollAll(ps[..k], birdX);
      ScrollKeepsPairs(ps[..k], birdX);
    }
  }

  /** Pair layout, index by index: the list has even length, and every pipe
      at an even index is the top pipe of a pair whose bottom pipe follows
      it, 712 lower, at the same x. */
  lemma {:induction false} PairsValidMeans(ps: seq<PipeState>)
    requires PairsValid(ps)
    ensures |ps| % 2 == 0
    ensures forall i :: 0 <= i < |ps| && i % 2 == 0 ==>
      PairOk(ps[i], ps[i + 1]) && ps[i + 1].y - ps[i].y == 712 && ps[i + 1].x == ps[i].x
  {
    if |ps| > 0 {
      var k := |ps| - 2;
      PairsValidMeans(ps[..k]);
      forall i | 0 <= i < |ps| && i % 2 == 0
        ensures PairOk(ps[i], ps[i + 1])
      {
        if i < k {
          assert ps[i] == ps[..k][i] && ps[i + 1] == ps[..k][i + 1];
        }
      }
    }
  }

  /** Both pipes of a pair are credited on the same tick, so the score is
      always a whole number of points: one point per cleared pair. */
  lemma {:induction false} PassedPipesComeInPairs(ps: seq<PipeState>)
    requires PairsValid(ps)
    ensures CountPassed(ps) % 2 == 0
  {
    if |ps| > 0 {
      var k := |ps| - 2;
      assert ps[..|ps| - 1][..k] == ps[..k];
      PassedPipesComeInPairs(ps[..k]);
    }
  }

  lemma ScoreIsWholePoints(w: World)
    requires Inv(w)
    ensures w.score % 2 == 0
  {
    PassedPipesComeInPairs(w.pipes);
  }

  // ---------------------------------------------------------------------
  // Keys and timers

  /** Any key but space changes nothing. */
  lemma OtherKeyChangesNothing(w: World, keyCode: int)
    requires keyCode != SpaceKey
    ensures AfterKeyPressed(w, keyCode) == w
  {
  }

  /** Space during a game sets the velocity to -9, whatever it was, and
      changes nothing else. */
  lemma SpaceJumps(w: World)
    requires !w.gameOver
    ensures AfterKeyPressed(w, SpaceKey).velocityY == -9
    ensures AfterKeyPressed(w, SpaceKey).(velocityY := w.velocityY) == w
  {
  }

  /** Space after the game is over restarts it: the bird back at height 250
      at rest, no pipes, score 0, the game and both timers running; only the
      bird's animation counters and geometry are kept. */
  lemma SpaceRestarts(w: World)
    requires w.gameOver
    ensures var w' := AfterKeyPressed(w, SpaceKey);
      w'.bird.y == 250 && w'.velocityY == 0 && w'.pipes == [] && w'.score == 0 &&
      !w'.gameOver && w'.running &&
      w'.bird.(y := w.bird.y) == w.bird
  {
  }

  /** A tick while the timers are stopped changes nothing. */
  lemma TickWhileStopped(w: World)
    requires w.bird.frames > 0 && !w.running
    ensures AfterTick(w) == w
  {
  }

  /** A running tick is one `move`, and the tick that ends the game stops
      the timers. */
  lemma TickStopsOnGameOver(w: World)
    requires w.bird.frames > 0 && w.running
    ensures AfterTick(w).(running := true) == AfterMove(w).(running := true)
    ensures !AfterTick(w).running <==> AfterMove(w).gameOver
  {
  }

  // ---------------------------------------------------------------------
  // The invariant of reachable states

  lemma InitialInv()
    ensures Inv(InitialWorld()) && Live(InitialWorld())
  {
  }

  lemma MovePreservesInv(w: World)
    requires Inv(w)
    ensures Inv(AfterMove(w))
  {
    var bird := AfterMove(w).bird;
    AnimationPhase(w.bird.(y := Max(w.bird.y + w.velocityY + Gravity, 0)));
    ScrollKeepsPairs(w.pipes, bird.x);
    CountPassedScrolled(w.pipes, bird.x);
  }

  lemma PlacePipesPreservesInv(w: World, r: int)
    requires Inv(w) && 0 <= r < PipeHeight / 2
    ensures Inv(AfterPlacePipes(w, r))
  {
    var ps := AfterPlacePipes(w, r).pipes;
    AppendPair(w.pipes, ps[|ps| - 2], ps[|ps| - 1]);
    assert ps[..|ps| - 1][..|w.pipes|] == w.pipes;
  }

  lemma KeyPressedPreservesInv(w: World, keyCode: int)
    requires Inv(w)
    ensures Inv(AfterKeyPressed(w, keyCode))
    ensures Live(w) ==> Live(AfterKeyPressed(w, keyCode))
  {
  }

  lemma TickPreservesInv(w: World)
    requires Inv(w) && Live(w)
    ensures Inv(AfterTick(w)) && Live(AfterTick(w))
  {
    MovePreservesInv(w);
  }

  lemma SpawnPreservesInv(w: World, r: int)
    requires Inv(w) && Live(w) && 0 <= r < PipeHeight / 2
    ensures Inv(AfterSpawn(w, r)) && Live(AfterSpawn(w, r))
  {
    if w.running {
      PlacePipesPreservesInv(w, r);
    }
  }

  // ---------------------------------------------------------------------
  // Free fall

  /** `n` consecutive calls of `move`. */
  function Moves(w: World, n: nat): (r: World)
    requires w.bird.frames > 0
    ensures r.bird.frames == w.bird.frames
  {
    if n == 0 then w else AfterMove(Moves(w, n - 1))
  }

  /** 1 + 2 + ... + n. */
  function Triangle(n: nat): nat {
    if n == 0 then 0 else Triangle(n - 1) + n
  }

  /** Falling from rest with no pipes, the bird drops by 1, 2, 3, ... units
      in successive ticks. */
  lemma {:induction false} FreeFall(w: World, n: nat)
    requires w.bird.frames > 0 && w.pipes == [] && w.velocityY == 0 && w.bird.y >= 0
    ensures Moves(w, n).velocityY == n && Moves(w, n).pipes == []
    ensures Moves(w, n).bird.y == w.bird.y + Triangle(n)
  {
    if n > 0 {
      FreeFall(w, n - 1);
    }
  }

  /** Five ticks from rest move the bird down by 1+2+3+4+5 = 15. */
  lemma FiveTicksFromRest(w: World)
    requires w.bird.frames > 0 && w.pipes == [] && w.velocityY == 0 && w.bird.y >= 0
    ensures Moves(w, 5).bird.y == w.bird.y + 15
  {
    FreeFall(w, 5);
  }
}

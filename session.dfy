/**
 * The `Game` frame: the item table, lives, score and the tick state machine
 * `setup_game` -> `start_game` -> `game_loop` (repeated) -> lost ball back
 * to `setup_game`, or the end of the game, won or lost.
 */
module Session {
  import opened Geometry
  import opened Screen
  import opened Objects
  import opened Scoring
  import opened Layout

  /** Which callback the game is waiting for. */
  datatype Phase =
    | Setup     // ball docked on the paddle; space starts the game
    | Running   // the next `game_loop` is scheduled
    | BallLost  // a ball fell; `setup_game` is scheduled
    | Won       // no brick left; nothing is scheduled
    | Lost      // the last ball fell; nothing is scheduled

  const GAME_WIDTH: int := 830
  const GAME_HEIGHT: int := 400
  const START_LIVES: int := 1
  const PADDLE_Y: real := 326.0
  const SERVE_Y: real := 310.0
  const COLUMNS: nat := 11

  /**
   * The decision `game_loop` takes once collisions are resolved, from the
   * number of bricks on the canvas, the bottom of the ball's box, the window
   * height and the lives: the phase it leaves the game in and the new lives.
   */
  function Decide(bricksLeft: nat, ballBottom: real, height: real, lives: int): (r: (Phase, int))
    ensures r.0 != Setup && (r.1 == lives || r.1 == lives - 1)
    ensures r.0 == Lost <==> r.1 < 0 && r.1 < lives
  {
    if bricksLeft == 0 then (Won, lives)
    else if ballBottom >= height then
      (if lives - 1 < 0 then Lost else BallLost, lives - 1)
    else (Running, lives)
  }

  /**
   * The game is won exactly when no brick is left, keeps running exactly when
   * bricks are left and the ball is above the floor, and otherwise loses one
   * life; it is over exactly when that leaves fewer than zero.
   */
  lemma DecideOutcomes(bricksLeft: nat, ballBottom: real, height: real, lives: int)
    ensures var (p, l) := Decide(bricksLeft, ballBottom, height, lives);
      p != Setup &&
      (p == Won <==> bricksLeft == 0) &&
      (p == Running <==> bricksLeft > 0 && ballBottom < height) &&
      (p == BallLost || p == Lost <==> bricksLeft > 0 && ballBottom >= height) &&
      (p == Lost <==> bricksLeft > 0 && ballBottom >= height && lives < 1) &&
      (p == BallLost || p == Lost ==> l == lives - 1) &&
      (p == Won || p == Running ==> l == lives)
  {
  }

  /** With one life to start with, the first ball that falls is replaced and the second one ends the game. */
  lemma SecondLostBallEndsGame(bricksLeft: nat, bottom1: real, bottom2: real, height: real)
    requires bricksLeft > 0 && bottom1 >= height && bottom2 >= height
    ensures Decide(bricksLeft, bottom1, height, START_LIVES) == (BallLost, 0)
    ensures Decide(bricksLeft, bottom2, height, Decide(bricksLeft, bottom1, height, START_LIVES).1) == (Lost, -1)
  {
  }

  /** The paddle's box: 50 wide, 10 high, centred on y = 326. */
  predicate PaddleShape(b: Box)
  {
    Width(b) == PADDLE_WIDTH && b.y0 == PADDLE_Y - PADDLE_HEIGHT / 2.0 && b.y1 == PADDLE_Y + PADDLE_HEIGHT / 2.0
  }

  /** A canvas table once `ball.delete()` has removed the previous ball, if there was one. */
  function WithoutBall<V>(m: map<int, V>, b: Ball?): map<int, V>
  {
    if b == null then m else m - {b.item}
  }

  class Game {
    const canvas: Canvas
    const paddle: Paddle
    const width: int
    const height: int
    var ball: Ball?
    /** `self.items`: the paddle and every brick, by canvas id; never pruned. */
    var items: map<int, Item>
    var lives: int
    var score: int
    /** The lives and score the HUD texts show. */
    var hudLives: int
    var hudScore: int
    var phase: Phase
    /** Every brick ever added. */
    ghost var bricks: set<Brick>
    ghost var ballsLost: nat

    /** The item table: each entry under its own id, which the canvas handed out; the paddle and bricks of the game in it. */
    ghost predicate ItemsOk()
      reads this`items, this`bricks, canvas`nextId, canvas`tagged
    {
      paddle.item in items && items[paddle.item] == PaddleObj(paddle) &&
      (forall id | id in items ::
        ItemId(items[id]) == id && 1 <= id < canvas.nextId && (items[id].BrickObj? ==> items[id].b in bricks)) &&
      (forall id | id in canvas.tagged :: id in items && items[id].BrickObj?)
    }

    /** The paddle is on the canvas with its shape. */
    ghost predicate PlacedOk()
      reads canvas`boxes
    {
      paddle.item in canvas.boxes && PaddleShape(canvas.boxes[paddle.item])
    }

    /**
     * Every brick of the game is in the item table under its id, is tagged
     * 'brick' while it is on the canvas, and what the canvas shows of it
     * agrees with its hits left.
     */
    ghost predicate BricksOk()
      reads this`items, this`bricks, bricks, canvas`boxes, canvas`fills, canvas`tagged
    {
      forall b | b in bricks ::
        b.item in items && items[b.item] == BrickObj(b) && b.canvas == canvas &&
        (b.item in canvas.boxes ==> b.item in canvas.tagged) && b.Consistent()
    }

    ghost predicate CountersOk()
      reads this`score, this`lives, this`ballsLost
    {
      0 <= score && lives == START_LIVES - ballsLost && ballsLost <= 2
    }

    /** The invariant of the item table, the bricks and the counters. */
    ghost predicate Core()
      reads this`items, this`bricks, canvas, bricks
    {
      width == GAME_WIDTH && height == GAME_HEIGHT && paddle.canvas == canvas &&
      canvas.Valid() && ItemsOk() && PlacedOk() && BricksOk()
    }

    /** The current ball is on the canvas, 20 by 20, heading diagonally, and is not in the item table. */
    ghost predicate BallOk()
      reads this`ball, this`items, ball, canvas`boxes
    {
      ball != null && ball.canvas == canvas && ball.item in canvas.boxes && ball.item !in items &&
      Width(canvas.boxes[ball.item]) == 2.0 * BALL_RADIUS && Height(canvas.boxes[ball.item]) == 2.0 * BALL_RADIUS &&
      IsUnit(ball.Direction())
    }

    /** The ball waits on the paddle: same centre, resting 10 above it, heading up and to the right. */
    ghost predicate Docked()
      reads this`ball, ball, canvas`boxes
    {
      ball != null && ball.item in canvas.boxes && paddle.item in canvas.boxes &&
      CenterX(canvas.boxes[ball.item]) == CenterX(canvas.boxes[paddle.item]) &&
      canvas.boxes[ball.item].y0 == SERVE_Y - BALL_RADIUS &&
      ball.Direction() == Dir(1, -1)
    }

    /** What each phase means for the ball, the lives and the HUD. */
    ghost predicate PhaseOk()
      reads this`ball, this`phase, this`lives, this`hudLives, ball, paddle`ball,
        canvas`boxes, canvas`tagged
    {
      ball != null &&
      match phase
      case Setup =>
        paddle.ball == ball && ball.speed == Some(BALL_SPEED) && Docked() && lives >= 0 && hudLives == lives
      case Running =>
        paddle.ball == null && ball.speed == Some(BALL_SPEED) && lives >= 0 && hudLives == lives
      case BallLost =>
        paddle.ball == null && ball.speed == None && lives >= 0 && hudLives == lives + 1
      case Won =>
        paddle.ball == null && ball.speed == None && lives >= 0 && hudLives == lives && canvas.tagged == {}
      case Lost =>
        paddle.ball == null && ball.speed == None && lives == -1 && hudLives == 0
    }

    ghost predicate Valid()
      reads this, canvas, paddle`ball, ball, bricks
    {
      Core() && CountersOk() && BallOk() && PhaseOk() && hudScore == score
    }

    /** Brick `id` is in the table, on the canvas and still brick-tagged, at (x, y) with `hits` hits left. */
    ghost predicate BrickAt(id: int, x: real, y: real, hits: int)
      reads this`items, this`bricks, bricks, canvas`boxes, canvas`tagged
    {
      id in items && items[id].BrickObj? && items[id].b in bricks && items[id].b.hits == hits &&
      id in canvas.boxes && canvas.boxes[id] == BoxAround(x, y, BRICK_WIDTH / 2.0, BRICK_HEIGHT / 2.0) &&
      id in canvas.tagged
    }

    /** The brick of column `k`, row `r` of the initial wall; ids are 1 for the paddle, then column by column. */
    ghost predicate WallBrick(k: int, r: int)
      reads this`items, this`bricks, bricks, canvas`boxes, canvas`tagged
    {
      0 <= r < ROWS && BrickAt(2 + ROWS * k + r, ColumnX(k), RowY(r), ROW_HITS[r])
    }

    /** The objects whose canvas items overlap the ball's box, in stacking order, as `check_collisions` collects them. */
    ghost function Overlapped(): (r: seq<Item>)
      reads this`ball, this`items, canvas`boxes, canvas`nextId
      requires ball != null && ball.item in canvas.boxes
      ensures |r| <= |canvas.Overlapping(canvas.boxes[ball.item])|
      ensures forall o | o in r :: o in items.Values
    {
      ObjectsAt(canvas.Overlapping(canvas.boxes[ball.item]), items)
    }

    /**
     * `Game(master)`: one life, no score, the paddle centred at the bottom,
     * eleven columns of eight bricks, then `setup_game`.
     */
    constructor ()
      ensures Valid() && phase == Setup
      ensures lives == START_LIVES && score == 0 && hudLives == START_LIVES && hudScore == 0
      ensures canvas.BrickCount() == COLUMNS * ROWS
      ensures forall k, r | 0 <= k < COLUMNS && 0 <= r < ROWS :: WallBrick(k, r)
      ensures canvas.boxes[paddle.item] == BoxAround(415.0, PADDLE_Y, PADDLE_WIDTH / 2.0, PADDLE_HEIGHT / 2.0)
      ensures canvas.boxes[ball.item] == BoxAround(415.0, SERVE_Y, BALL_RADIUS, BALL_RADIUS)
      ensures paddle.item == 1 && ball.item == 2 + ROWS * COLUMNS && canvas.nextId == 3 + ROWS * COLUMNS
      ensures forall id :: id in items <==> 1 <= id < 2 + ROWS * COLUMNS
      ensures forall id | id in items :: id == paddle.item || items[id].BrickObj?
      ensures forall id :: id in canvas.boxes <==> 1 <= id < 3 + ROWS * COLUMNS
    {
      width, height := GAME_WIDTH, GAME_HEIGHT;
      lives, score := START_LIVES, 0;
      var c := new Canvas();
      canvas := c;
      ball := null;
      var p := new Paddle(c, GAME_WIDTH as real / 2.0, PADDLE_Y);
      paddle := p;
      items := map[p.item := PaddleObj(p)];
      hudLives, hudScore := 0, 0;
      phase := Setup;
      bricks, ballsLost := {}, 0;
      new;
      BuildWall();
      SetupGame();
      NewGameItems();
    }

    /**
     * What `Game.__init__` leaves: the table holds the paddle on id 1 and
     * the 88 bricks on ids 2 to 89, and the canvas shows those and the ball on id 90.
     */
    lemma NewGameItems()
      requires Core() && BallOk() && paddle.item == 1
      requires canvas.nextId == 3 + ROWS * COLUMNS && ball.item == 2 + ROWS * COLUMNS
      requires forall k, r | 0 <= k < COLUMNS && 0 <= r < ROWS :: WallBrick(k, r)
      ensures forall id :: id in items <==> 1 <= id < 2 + ROWS * COLUMNS
      ensures forall id | id in items :: id == paddle.item || items[id].BrickObj?
      ensures forall id :: id in canvas.boxes <==> 1 <= id < 3 + ROWS * COLUMNS
    {
      forall id | 2 <= id < 2 + ROWS * COLUMNS
        ensures id in items && items[id].BrickObj? && id in canvas.boxes
      {
        assert WallBrick((id - 2) / ROWS, (id - 2) % ROWS);
      }
    }

    /** The wall loop of `Game.__init__`: a column every 75 units from x = 5 while x < width - 5. */
    method BuildWall()
      requires Core() && canvas.nextId == 2 && canvas.tagged == {}
      modifies this`items, this`bricks, canvas
      ensures Core() && canvas.BrickCount() == COLUMNS * ROWS && canvas.nextId == 2 + ROWS * COLUMNS
      ensures forall k, r | 0 <= k < COLUMNS && 0 <= r < ROWS :: WallBrick(k, r)
      ensures forall id | id in old(canvas.boxes) :: id in canvas.boxes && canvas.boxes[id] == old(canvas.boxes)[id]
      ensures forall id | id in old(canvas.fills) :: id in canvas.fills && canvas.fills[id] == old(canvas.fills)[id]
    {
      var x := COLUMN_START;
      ghost var k := 0;
      ColumnCount();
      while x < width - 5
        invariant Core()
        invariant 0 <= k && x == COLUMN_START + COLUMN_STEP * k && canvas.nextId == 2 + ROWS * k
        invariant k + RangeLen(x, width - 5, COLUMN_STEP) == COLUMNS
        invariant forall id | id in old(canvas.boxes) :: id in canvas.boxes && canvas.boxes[id] == old(canvas.boxes)[id]
        invariant forall id | id in old(canvas.fills) :: id in canvas.fills && canvas.fills[id] == old(canvas.fills)[id]
        invariant |canvas.tagged| == ROWS * k
        invariant forall k', r | 0 <= k' < k && 0 <= r < ROWS :: WallBrick(k', r)
      {
        AddColumn(x, k);
        x := x + COLUMN_STEP;
        k := k + 1;
      }
    }

    /**
     * The eight `add_brick` calls of one pass of the wall loop, for the column
     * whose left edge is `x`: row `r` at height `RowY(r)` with `ROW_HITS[r]` hits.
     */
    method AddColumn(x: int, ghost k: int)
      requires Core()
      requires x == COLUMN_START + COLUMN_STEP * k && canvas.nextId == 2 + ROWS * k
      modifies this`items, this`bricks, canvas
      ensures Core()
      ensures canvas.nextId == old(canvas.nextId) + ROWS && |canvas.tagged| == |old(canvas.tagged)| + ROWS
      ensures forall r | 0 <= r < ROWS :: WallBrick(k, r)
      ensures forall k', r | old(WallBrick(k', r)) :: WallBrick(k', r)
      ensures forall id | id in old(canvas.boxes) :: id in canvas.boxes && canvas.boxes[id] == old(canvas.boxes)[id]
      ensures forall id | id in old(canvas.fills) :: id in canvas.fills && canvas.fills[id] == old(canvas.fills)[id]
    {
      var cx := x as real + 37.5;
      var r := 0;
      while r < ROWS
        invariant 0 <= r <= ROWS && Core()
        invariant canvas.nextId == old(canvas.nextId) + r && |canvas.tagged| == |old(canvas.tagged)| + r
        invariant forall r' | 0 <= r' < r :: WallBrick(k, r')
        invariant forall k', r' | old(WallBrick(k', r')) :: WallBrick(k', r')
        invariant forall id | id in old(canvas.boxes) :: id in canvas.boxes && canvas.boxes[id] == old(canvas.boxes)[id]
        invariant forall id | id in old(canvas.fills) :: id in canvas.fills && canvas.fills[id] == old(canvas.fills)[id]
      {
        RowHitsHaveColors(r);
        AddBrick(cx, RowY(r), ROW_HITS[r]);
        r := r + 1;
      }
    }

    /** `add_brick(x, y, hits)`: a new brick at (x, y), entered in the item table under its canvas id. */
    method AddBrick(x: real, y: real, hits: int)
      requires Core() && hits in COLORS
      modifies this`items, this`bricks, canvas
      ensures Core()
      ensures canvas.nextId == old(canvas.nextId) + 1
      ensures canvas.tagged == old(canvas.tagged) + {old(canvas.nextId)} && old(canvas.nextId) !in old(canvas.tagged)
      ensures BrickAt(old(canvas.nextId), x, y, hits)
      ensures forall k', r | old(WallBrick(k', r)) :: WallBrick(k', r)
      ensures canvas.boxes == old(canvas.boxes)[old(canvas.nextId) := BoxAround(x, y, BRICK_WIDTH / 2.0, BRICK_HEIGHT / 2.0)]
      ensures canvas.fills == old(canvas.fills)[old(canvas.nextId) := COLORS[hits]]
      ensures items == old(items)[old(canvas.nextId) := items[old(canvas.nextId)]]
    {
      var brick := new Brick(canvas, x, y, hits);
      items := items[brick.item := BrickObj(brick)];
      bricks := bricks + {brick};
      forall b | b in old(bricks) ensures b.Consistent() {
        assert b.item != brick.item;
        assert old(b.Consistent());
      }
    }

    /** `add_ball`: delete the old ball, if any, and dock a fresh one above the paddle's centre. */
    method AddBall()
      requires Core()
      requires ball != null ==> ball.canvas == canvas && ball.item !in items && ball.item < canvas.nextId
      modifies this`ball, canvas, paddle`ball
      ensures Core() && BallOk() && Docked() && fresh(ball)
      ensures paddle.ball == ball && ball.speed == Some(BALL_SPEED)
      ensures old(ball) != null ==> old(ball).item !in canvas.boxes
      ensures ball.item == old(canvas.nextId) && canvas.nextId == old(canvas.nextId) + 1
      ensures canvas.boxes == WithoutBall(old(canvas.boxes), old(ball))[ball.item :=
        BoxAround(CenterX(old(canvas.boxes[paddle.item])), SERVE_Y, BALL_RADIUS, BALL_RADIUS)]
      ensures canvas.fills == WithoutBall(old(canvas.fills), old(ball))[ball.item := BALL_FILL]
      ensures canvas.tagged == old(canvas.tagged)
      ensures forall id | id in items ::
        (id in canvas.boxes <==> id in old(canvas.boxes)) && (id in canvas.boxes ==> canvas.boxes[id] == old(canvas.boxes)[id])
    {
      if ball != null {
        ball.Delete();
      }
      var paddleCoords := canvas.boxes[paddle.item];
      var x := (paddleCoords.x0 + paddleCoords.x1) * 0.5;
      var b := new Ball(canvas, x, SERVE_Y);
      ball := b;
      paddle.SetBall(b);
    }

    /** `update_hud`: the HUD shows the current lives and score. */
    method UpdateHud()
      modifies this`hudLives, this`hudScore
      ensures hudLives == lives && hudScore == score
    {
      hudLives, hudScore := lives, score;
    }

    /** `setup_game`: a fresh docked ball, the HUD refreshed, and space bound to `start_game`. */
    method SetupGame()
      requires Core() && CountersOk() && lives >= 0
      requires ball != null ==> ball.canvas == canvas && ball.item !in items && ball.item < canvas.nextId
      modifies this`ball, this`hudLives, this`hudScore, this`phase, canvas, paddle`ball
      ensures Valid() && phase == Setup && fresh(ball)
      ensures hudLives == lives && hudScore == score
      ensures old(ball) != null ==> old(ball).item !in canvas.boxes
      ensures ball.item == old(canvas.nextId) && canvas.nextId == old(canvas.nextId) + 1
      ensures canvas.boxes == WithoutBall(old(canvas.boxes), old(ball))[ball.item :=
        BoxAround(CenterX(old(canvas.boxes[paddle.item])), SERVE_Y, BALL_RADIUS, BALL_RADIUS)]
      ensures canvas.fills == WithoutBall(old(canvas.fills), old(ball))[ball.item := BALL_FILL]
      ensures canvas.tagged == old(canvas.tagged)
      ensures forall id | id in items ::
        (id in canvas.boxes <==> id in old(canvas.boxes)) && (id in canvas.boxes ==> canvas.boxes[id] == old(canvas.boxes)[id])
      ensures forall k, r | old(WallBrick(k, r)) :: WallBrick(k, r)
    {
      AddBall();
      UpdateHud();
      phase := Setup;
    }

    /** Every object of `objs` is the table entry of its own id, each id once; a lone object is on the canvas. */
    ghost predicate Listed(objs: seq<Item>)
      reads this`items, canvas`boxes
    {
      DistinctIds(objs) && (forall o | o in objs :: ItemId(o) in items && items[ItemId(o)] == o) &&
      (|objs| == 1 ==> ItemId(objs[0]) in canvas.boxes)
    }

    /** The objects `check_collisions` collects are listed entries of the table. */
    lemma OverlappedListed()
      requires ItemsOk() && ball != null && ball.item in canvas.boxes
      ensures Listed(Overlapped())
    {
      assert SelfIndexed(items);
      var ids := canvas.Overlapping(canvas.boxes[ball.item]);
      ObjectsAtEntries(ids, items);
      IncreasingDistinct(ObjectsAt(ids, items));
      if |Overlapped()| == 1 {
        assert Overlapped()[0] in Overlapped();
      }
    }

    /** The bricks of a listed sequence are bricks of the game, and no other brick shares an id with them. */
    lemma ListedBricks(objs: seq<Item>)
      requires ItemsOk() && BricksOk() && Listed(objs)
      ensures BricksOf(objs) <= bricks
      ensures forall k | 0 <= k < |objs| && objs[k].BrickObj? :: objs[k].b.canvas == canvas
      ensures forall b | b in bricks && b !in BricksOf(objs) :: b.item !in BrickIds(objs)
    {
      forall b | b in BricksOf(objs) ensures b in bricks {
        var k :| 0 <= k < |objs| && objs[k].BrickObj? && objs[k].b == b;
        assert objs[k] in objs;
      }
      forall k | 0 <= k < |objs| && objs[k].BrickObj? ensures objs[k].b.canvas == canvas {
        assert objs[k].b in BricksOf(objs);
      }
    }

    /** `self.ball.collide(objects)`, with the bricks kept consistent with what the canvas shows. */
    method CollideBall(objs: seq<Item>)
      requires Valid() && phase == Running && Listed(objs)
      modifies canvas`fills, ball`dirX, ball`dirY, BricksOf(objs)
      ensures Valid()
      ensures BricksOf(objs) <= bricks
      ensures canvas.boxes == old(canvas.boxes) && canvas.tagged == old(canvas.tagged)
      ensures ball.Direction() == Collided(old(ball.Direction()), canvas.boxes[ball.item], ItemIds(objs), canvas.boxes)
      ensures forall b | b in bricks ::
        b.hits == old(b.hits) - (if b in BricksOf(objs) then 1 else 0) &&
        b.deletesPending == old(b.deletesPending) + (if b in BricksOf(objs) && b.hits <= 0 then 1 else 0)
      ensures HitsLeft(objs) == Decremented(old(HitsLeft(objs)))
      ensures canvas.fills.Keys == old(canvas.fills).Keys
      ensures forall id | id in canvas.fills && id !in BrickIds(objs) :: canvas.fills[id] == old(canvas.fills)[id]
      ensures forall k | 0 <= k < |objs| && objs[k].BrickObj? ::
        var b := objs[k].b;
        b.item in canvas.fills ==> canvas.fills[b.item] == if b.hits >= 1 then ColorFor(b.hits) else old(canvas.fills)[b.item]
    {
      ListedBricks(objs);
      ball.Collide(objs);
      forall b | b in bricks
        ensures b.Consistent()
        ensures b.deletesPending == old(b.deletesPending) + (if b in BricksOf(objs) && b.hits <= 0 then 1 else 0)
      {
        if b in BricksOf(objs) {
          var k :| 0 <= k < |objs| && objs[k].BrickObj? && objs[k].b == b;
        }
      }
    }

    /** The scoring loop of `check_collisions`: 10 points a brick, 10 more for a destroyed one, the HUD refreshed after each. */
    method ScoreHits(objs: seq<Item>)
      requires Valid() && phase == Running
      modifies this`score, this`hudScore, this`hudLives
      ensures Valid() && score == old(score) + ScoreFor(old(HitsLeft(objs)))
    {
      AddPoints(objs);
    }

    /** The loop of `ScoreHits` on the counters alone. */
    method AddPoints(objs: seq<Item>)
      requires hudScore == score && hudLives == lives
      modifies this`score, this`hudScore, this`hudLives
      ensures score == old(score) + ScoreFor(old(HitsLeft(objs))) && hudScore == score && hudLives == lives
    {
      var i := 0;
      ghost var done: seq<int> := [];
      while i < |objs|
        invariant 0 <= i <= |objs|
        invariant done == HitsLeft(objs[..i])
        invariant score == old(score) + ScoreFor(done)
        invariant hudScore == score && hudLives == lives
      {
        HitsLeftPrefix(objs, i);
        if objs[i].BrickObj? {
          var brick := objs[i].b;
          ScoreForAppend(done, brick.hits);
          done := done + [brick.hits];
          ScoreBrick(brick.hits);
        }
        i := i + 1;
      }
      assert objs[..|objs|] == objs;
      HitsLeftUnchanged(objs);
    }

    /** The body of the scoring loop for one brick with `hits` hits left: 10 points, 10 more if it is destroyed, then the HUD. */
    method ScoreBrick(hits: int)
      requires hudLives == lives
      modifies this`score, this`hudScore, this`hudLives
      ensures score == old(score) + Points(hits) && hudScore == score && hudLives == lives
    {
      score := score + 10;
      if hits <= 0 {
        score := score + 10;
      }
      UpdateHud();
    }

    /** The first half of `check_collisions`: collect the objects the ball overlaps and `self.ball.collide` them. */
    method CollideOverlapping() returns (objs: seq<Item>)
      requires Valid() && phase == Running
      modifies canvas`fills, ball`dirX, ball`dirY, bricks
      ensures Valid()
      ensures objs == old(Overlapped()) && BricksOf(objs) <= bricks
      ensures |objs| == 1 ==> ItemId(objs[0]) in canvas.boxes
      ensures ball.Direction() == Collided(old(ball.Direction()), canvas.boxes[ball.item], ItemIds(objs), canvas.boxes)
      ensures HitsLeft(objs) == Decremented(old(HitsLeft(objs)))
      ensures forall b | b in bricks ::
        b.hits == old(b.hits) - (if b in BricksOf(objs) then 1 else 0) &&
        b.deletesPending == old(b.deletesPending) + (if b in BricksOf(objs) && b.hits <= 0 then 1 else 0)
      ensures canvas.boxes == old(canvas.boxes) && canvas.tagged == old(canvas.tagged)
      ensures canvas.fills.Keys == old(canvas.fills).Keys
      ensures forall id | id in canvas.fills && id !in BrickIds(objs) :: canvas.fills[id] == old(canvas.fills)[id]
      ensures forall k | 0 <= k < |objs| && objs[k].BrickObj? ::
        var b := objs[k].b;
        b.item in canvas.fills ==> canvas.fills[b.item] == if b.hits >= 1 then ColorFor(b.hits) else old(canvas.fills)[b.item]
    {
      var ballCoords := canvas.boxes[ball.item];
      var ids := canvas.Overlapping(ballCoords);
      objs := ObjectsAt(ids, items);
      OverlappedListed();
      ListedBricks(objs);
      CollideBall(objs);
    }

    /**
     * `check_collisions`: collide the ball with the objects it overlaps, then
     * score every brick among them; `objs` is the list it collected.
     */
    method CheckCollisions() returns (ghost objs: seq<Item>)
      requires Valid() && phase == Running
      modifies this`score, this`hudScore, this`hudLives, canvas`fills, ball`dirX, ball`dirY, bricks
      ensures Valid()
      ensures objs == old(Overlapped()) && BricksOf(objs) <= bricks
      ensures |objs| == 1 ==> ItemId(objs[0]) in canvas.boxes
      ensures ball.Direction() == Collided(old(ball.Direction()), canvas.boxes[ball.item], ItemIds(objs), canvas.boxes)
      ensures score == old(score) + ScoreFor(Decremented(old(HitsLeft(objs))))
      ensures forall b | b in bricks ::
        b.hits == old(b.hits) - (if b in BricksOf(objs) then 1 else 0) &&
        b.deletesPending == old(b.deletesPending) + (if b in BricksOf(objs) && b.hits <= 0 then 1 else 0)
      ensures ball == old(ball) && canvas.boxes == old(canvas.boxes) && canvas.tagged == old(canvas.tagged)
      ensures lives == old(lives)
      ensures canvas.fills.Keys == old(canvas.fills).Keys
      ensures forall id | id in canvas.fills && id !in BrickIds(objs) :: canvas.fills[id] == old(canvas.fills)[id]
      ensures forall k | 0 <= k < |objs| && objs[k].BrickObj? ::
        var b := objs[k].b;
        b.item in canvas.fills ==> canvas.fills[b.item] == if b.hits >= 1 then ColorFor(b.hits) else old(canvas.fills)[b.item]
    {
      var objects := CollideOverlapping();
      ScoreHits(objects);
      objs := objects;
    }

    /**
     * `check_collisions` when the ball overlaps one brick and nothing else:
     * the brick takes a hit and is worth 10 points, or 20 and a pending
     * deletion when that hit was its last.
     */
    method CollideOneBrick(b: Brick) returns (ghost objs: seq<Item>)
      requires Valid() && phase == Running && Overlapped() == [BrickObj(b)]
      modifies this`score, this`hudScore, this`hudLives, canvas`fills, ball`dirX, ball`dirY, bricks
      ensures Valid() && b in bricks
      ensures b.hits == old(b.hits) - 1
      ensures score == old(score) + (if b.hits <= 0 then 20 else 10)
      ensures b.deletesPending == old(b.deletesPending) + (if b.hits <= 0 then 1 else 0)
    {
      LoneBrick(b);
      ScoreOfLoneBrick(b.hits);
      objs := CheckCollisions();
    }

    /** `game_loop` with no brick left: the ball stops and the game is won. */
    method StopWon()
      requires Valid() && phase == Running && canvas.BrickCount() == 0
      modifies ball`speed, this`phase
      ensures Valid() && phase == Won && ball.speed == None
    {
      ball.speed := None;
      phase := Won;
    }

    /** `game_loop` with the ball on the floor: it stops and a life is lost; losing the last one ends the game. */
    method LoseBall()
      requires Valid() && phase == Running
      modifies ball`speed, this`lives, this`ballsLost, this`phase
      ensures Valid() && ball.speed == None && lives == old(lives) - 1
      ensures phase == if lives < 0 then Lost else BallLost
    {
      ball.speed := None;
      lives := lives - 1;
      ballsLost := ballsLost + 1;
      if lives < 0 {
        phase := Lost;
      } else {
        phase := BallLost;
      }
    }

    /** `game_loop` otherwise: `self.ball.update()`, and the game keeps running. */
    method MoveBall(canvasWidth: real)
      requires Valid() && phase == Running
      modifies ball`dirX, ball`dirY, canvas`boxes
      ensures Valid()
      ensures ball.Direction() == Bounced(old(ball.Direction()), old(canvas.boxes[ball.item]), canvasWidth)
      ensures canvas.boxes == old(canvas.boxes)[ball.item := Translate(old(canvas.boxes[ball.item]),
        Step(ball.Direction(), BALL_SPEED).0, Step(ball.Direction(), BALL_SPEED).1)]
    {
      ball.Update(canvasWidth);
    }

    /**
     * The rest of `game_loop`, once collisions are resolved: stop the ball
     * when no brick is left; stop it and lose a life when it reached the
     * floor; otherwise move it and keep running.
     */
    method Advance(canvasWidth: real)
      requires Valid() && phase == Running
      modifies this`lives, this`ballsLost, this`phase, ball`speed, ball`dirX, ball`dirY, canvas`boxes
      ensures Valid()
      ensures (phase, lives) == Decide(old(canvas.BrickCount()), old(canvas.boxes[ball.item]).y1, height as real, old(lives))
      ensures phase == Running ==>
        ball.Direction() == Bounced(old(ball.Direction()), old(canvas.boxes[ball.item]), canvasWidth) &&
        canvas.boxes == old(canvas.boxes)[ball.item := Translate(old(canvas.boxes[ball.item]),
          Step(ball.Direction(), BALL_SPEED).0, Step(ball.Direction(), BALL_SPEED).1)]
      ensures phase != Running ==>
        ball.Direction() == old(ball.Direction()) && ball.speed == None && canvas.boxes == old(canvas.boxes)
      ensures forall b | b in bricks :: b.hits == old(b.hits)
      ensures ball == old(ball) && bricks == old(bricks) && canvas.tagged == old(canvas.tagged)
      ensures canvas.boxes == old(canvas.boxes)[ball.item := canvas.boxes[ball.item]]
    {
      if canvas.BrickCount() == 0 {
        StopWon();
      } else if canvas.boxes[ball.item].y1 >= height as real {
        LoseBall();
      } else {
        MoveBall(canvasWidth);
      }
    }

    /**
     * `game_loop`: resolve collisions; then the game is won if no brick is
     * left, a ball is lost if it reached the floor, and otherwise the ball
     * moves and the next tick is scheduled. `objs` is the overlap list.
     */
    method Tick(canvasWidth: real) returns (ghost objs: seq<Item>)
      requires Valid() && phase == Running
      modifies this`score, this`hudScore, this`hudLives, this`lives, this`ballsLost, this`phase, canvas`boxes, canvas`fills, ball, bricks
      ensures Valid() && old(score) <= score
      ensures objs == old(Overlapped())
      ensures score == old(score) + ScoreFor(Decremented(old(HitsLeft(objs))))
      ensures (phase, lives) == Decide(old(canvas.BrickCount()), old(canvas.boxes[ball.item]).y1, height as real, old(lives))
      ensures forall b | b in bricks :: b.hits == old(b.hits) - (if b in BricksOf(objs) then 1 else 0)
      ensures ball == old(ball) && bricks == old(bricks) && canvas.tagged == old(canvas.tagged)
      ensures canvas.boxes == old(canvas.boxes)[ball.item := canvas.boxes[ball.item]]
    {
      objs := CheckCollisions();
      Advance(canvasWidth);
    }

    /** `start_game`: undock the ball and run the first tick; `objs` is that tick's overlap list. */
    method StartGame(canvasWidth: real) returns (ghost objs: seq<Item>)
      requires Valid() && phase == Setup
      modifies this`score, this`hudScore, this`hudLives, this`lives, this`ballsLost, this`phase, canvas`boxes, canvas`fills,
        paddle`ball, ball, bricks
      ensures Valid() && paddle.ball == null && old(score) <= score
      ensures objs == old(Overlapped())
      ensures score == old(score) + ScoreFor(Decremented(old(HitsLeft(objs))))
      ensures (phase, lives) == Decide(old(canvas.BrickCount()), old(canvas.boxes[ball.item]).y1, height as real, old(lives))
      ensures forall b | b in bricks :: b.hits == old(b.hits) - (if b in BricksOf(objs) then 1 else 0)
      ensures ball == old(ball) && bricks == old(bricks) && canvas.tagged == old(canvas.tagged)
      ensures canvas.boxes == old(canvas.boxes)[ball.item := canvas.boxes[ball.item]]
    {
      Serve();
      HitsLeftUnchanged(Overlapped());
      objs := Tick(canvasWidth);
    }

    /** The first two statements of `start_game`: the ball leaves the paddle and the game runs. */
    method Serve()
      requires Valid() && phase == Setup
      modifies paddle`ball, this`phase
      ensures Valid() && phase == Running && paddle.ball == null
    {
      paddle.SetBall(null);
      phase := Running;
    }

    /** The arrow-key handlers: `paddle.move(offset)` on a window `canvasWidth` wide. */
    method MovePaddle(offset: real, canvasWidth: real)
      requires Valid()
      modifies canvas`boxes
      ensures Valid()
      ensures canvas.boxes[paddle.item] == PaddleAfter(old(canvas.boxes[paddle.item]), offset, canvasWidth)
      ensures canvas.boxes[ball.item] ==
        if phase == Setup && CanShift(old(canvas.boxes[paddle.item]), offset, canvasWidth)
        then Translate(old(canvas.boxes[ball.item]), offset, 0.0)
        else old(canvas.boxes[ball.item])
      ensures canvas.boxes.Keys == old(canvas.boxes).Keys && canvas.tagged == old(canvas.tagged)
      ensures forall id | id in old(canvas.boxes) && id != paddle.item && id != ball.item :: canvas.boxes[id] == old(canvas.boxes[id])
    {
      paddle.Move(offset, canvasWidth);
    }

    /** The delayed `self.delete()` of a destroyed brick fires: its item leaves the canvas. */
    method FireBrickDelete(b: Brick)
      requires Valid() && b in bricks && b.deletesPending > 0
      modifies b`deletesPending, canvas`boxes, canvas`fills, canvas`tagged
      ensures Valid()
      ensures b.deletesPending == old(b.deletesPending) - 1 && b.item !in canvas.boxes
      ensures canvas.tagged == old(canvas.tagged) - {b.item}
      ensures canvas.fills == old(canvas.fills) - {b.item}
      ensures forall id | id in old(canvas.boxes) && id != b.item :: id in canvas.boxes && canvas.boxes[id] == old(canvas.boxes[id])
    {
      b.FireDelete();
    }
  }
}

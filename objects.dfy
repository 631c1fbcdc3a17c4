/**
 * The three kinds of game object: the ball, the paddle and the bricks.
 * Each one is an object holding the id of its canvas item; its position is
 * whatever the canvas table says for that id.
 */
module Objects {
  import opened Geometry
  import opened Screen
  import opened Scoring

  datatype Option<T> = None | Some(value: T)

  /** The ball's `direction` list `[dx, dy]`. */
  datatype Dir = Dir(x: int, y: int)

  predicate IsUnit(d: Dir)
  {
    (d.x == 1 || d.x == -1) && (d.y == 1 || d.y == -1)
  }

  const BALL_RADIUS: real := 10.0
  const BALL_SPEED: int := 10
  const BALL_FILL: Color := "#B6FFFA"
  const PADDLE_WIDTH: real := 50.0
  const PADDLE_HEIGHT: real := 10.0
  const PADDLE_FILL: Color := "#6528F7"
  const BRICK_WIDTH: real := 75.0
  const BRICK_HEIGHT: real := 20.0

  /** `Brick.COLORS`: remaining hits to fill colour. */
  const COLORS: map<int, Color> := map[1 := "#15F5BA", 2 := "#836FFF", 3 := "#211951", 4 := "#000000"]

  /** `Brick.COLORS.get(hits, '')`. */
  function ColorFor(hits: int): (c: Color)
    ensures 1 <= hits <= 4 ==> c == COLORS[hits] && c != ""
    ensures (hits < 1 || hits > 4) ==> c == ""
  {
    if hits in COLORS then COLORS[hits] else ""
  }

  // ----- Ball.update: the wall bounce -----

  /** The left or right edge of the ball's box is on or past a side wall. */
  predicate AtSideWall(b: Box, width: real)
  {
    b.x0 <= 0.0 || b.x1 >= width
  }

  /** The top edge of the ball's box is on or past the top wall. */
  predicate AtTopWall(b: Box)
  {
    b.y0 <= 0.0
  }

  /** The direction `Ball.update` moves with, given the box before the move. */
  function Bounced(d: Dir, b: Box, width: real): (r: Dir)
    ensures IsUnit(d) ==> IsUnit(r)
    ensures r.x == d.x || r.x == -d.x
    ensures r.y == d.y || r.y == -d.y
  {
    Dir(if AtSideWall(b, width) then -d.x else d.x, if AtTopWall(b) then -d.y else d.y)
  }

  /** The step `Ball.update` moves the box by. */
  function Step(d: Dir, speed: int): (real, real)
  {
    ((d.x * speed) as real, (d.y * speed) as real)
  }

  lemma BounceExactlyAtWalls(d: Dir, b: Box, width: real)
    requires IsUnit(d)
    ensures Bounced(d, b, width).x == -d.x <==> AtSideWall(b, width)
    ensures Bounced(d, b, width).x == d.x <==> !AtSideWall(b, width)
    ensures Bounced(d, b, width).y == -d.y <==> AtTopWall(b)
    ensures Bounced(d, b, width).y == d.y <==> !AtTopWall(b)
  {
  }

  /** The move keeps the ball's size: only its position changes. */
  lemma UpdateKeepsSize(d: Dir, b: Box, speed: int)
    ensures var (dx, dy) := Step(d, speed);
      Width(Translate(b, dx, dy)) == Width(b) && Height(Translate(b, dx, dy)) == Height(b)
  {
  }

  // ----- Ball.collide: the new direction -----

  /**
   * The direction after `Ball.collide`, given the ids of the overlapping
   * objects in order and the box of each id.
   */
  function Collided(d: Dir, ball: Box, ids: seq<int>, boxes: map<int, Box>): (r: Dir)
    requires |ids| == 1 ==> ids[0] in boxes
    ensures IsUnit(d) ==> IsUnit(r)
    ensures |ids| != 1 ==> r.x == d.x
    ensures r.y == d.y || r.y == -d.y
  {
    if |ids| > 1 then Dir(d.x, -d.y)
    else if |ids| == 1 then
      var other := boxes[ids[0]];
      var x := CenterX(ball);
      if x > other.x1 then Dir(1, d.y)
      else if x < other.x0 then Dir(-1, d.y)
      else Dir(d.x, -d.y)
    else d
  }

  lemma CollideWithNothing(d: Dir, ball: Box, boxes: map<int, Box>)
    ensures Collided(d, ball, [], boxes) == d
  {
  }

  lemma CollideWithSeveral(d: Dir, ball: Box, ids: seq<int>, boxes: map<int, Box>)
    requires |ids| > 1
    ensures Collided(d, ball, ids, boxes) == Dir(d.x, -d.y)
  {
  }

  /**
   * With one object exactly one of three things happens: the ball is sent
   * right when its centre is past the object's right edge, left when it is
   * before the left edge, and otherwise its vertical direction is reversed.
   */
  lemma CollideWithOne(d: Dir, ball: Box, id: int, boxes: map<int, Box>)
    requires IsUnit(d) && id in boxes
    ensures var r := Collided(d, ball, [id], boxes);
      var x, other := CenterX(ball), boxes[id];
      (x > other.x1 ==> r == Dir(1, d.y)) &&
      (x < other.x0 && x <= other.x1 ==> r == Dir(-1, d.y)) &&
      (other.x0 <= x <= other.x1 ==> r == Dir(d.x, -d.y)) &&
      (r.y == -d.y <==> other.x0 <= x <= other.x1)
  {
  }

  /** A centre exactly on the object's right edge is not past it: the strict test sends it to the vertical reversal. */
  lemma CollideCentreOnRightEdge(d: Dir, ball: Box, id: int, boxes: map<int, Box>)
    requires id in boxes && boxes[id].x0 <= boxes[id].x1 && CenterX(ball) == boxes[id].x1
    ensures Collided(d, ball, [id], boxes) == Dir(d.x, -d.y)
  {
  }

  // ----- The objects -----

  /** An entry of the game's item table: the paddle or a brick. */
  datatype Item = PaddleObj(p: Paddle) | BrickObj(b: Brick)

  function ItemId(o: Item): int
  {
    match o
    case PaddleObj(p) => p.item
    case BrickObj(b) => b.item
  }

  function ItemIds(objs: seq<Item>): (r: seq<int>)
    ensures |r| == |objs| && forall k | 0 <= k < |objs| :: r[k] == ItemId(objs[k])
  {
    seq(|objs|, k requires 0 <= k < |objs| => ItemId(objs[k]))
  }

  /** No two objects of the list share an id. */
  predicate DistinctIds(objs: seq<Item>)
  {
    forall i, j | 0 <= i < j < |objs| :: Apart(objs, i, j)
  }

  /** The `i`-th and `j`-th objects have different ids. */
  predicate Apart(objs: seq<Item>, i: int, j: int)
    requires 0 <= i < |objs| && 0 <= j < |objs|
  {
    ItemId(objs[i]) != ItemId(objs[j])
  }

  function BricksOf(objs: seq<Item>): set<Brick>
  {
    set k | 0 <= k < |objs| && objs[k].BrickObj? :: objs[k].b
  }

  function BrickIds(objs: seq<Item>): set<int>
  {
    set k | 0 <= k < |objs| && objs[k].BrickObj? :: objs[k].b.item
  }

  /** The hits left of each brick of `objs`, in order; the paddle contributes nothing. */
  ghost function HitsLeft(objs: seq<Item>): (r: seq<int>)
    reads set k | 0 <= k < |objs| && objs[k].BrickObj? :: objs[k].b
  {
    if objs == [] then []
    else
      var last := objs[|objs| - 1];
      if last.BrickObj? then HitsLeft(objs[..|objs| - 1]) + [last.b.hits] else HitsLeft(objs[..|objs| - 1])
  }

  /** A list holding one brick names that brick and its hits, and nothing else. */
  lemma LoneBrick(b: Brick)
    ensures BricksOf([BrickObj(b)]) == {b} && HitsLeft([BrickObj(b)]) == [b.hits]
  {
    var objs := [BrickObj(b)];
    assert objs[0].b == b;
    assert objs[..0] == [];
  }

  /** Hitting every brick of `objs` once takes one hit off each entry of `HitsLeft(objs)`. */
  twostate lemma {:induction false} HitsLeftAfterHit(objs: seq<Item>)
    requires forall k | 0 <= k < |objs| && objs[k].BrickObj? :: objs[k].b.hits == old(objs[k].b.hits) - 1
    ensures HitsLeft(objs) == Decremented(old(HitsLeft(objs)))
  {
    if objs != [] {
      var front, last := objs[..|objs| - 1], objs[|objs| - 1];
      HitsLeftAfterHit(front);
      if last.BrickObj? {
        DecrementedAppend(old(HitsLeft(front)), old(last.b.hits));
      }
    }
  }

  /** `HitsLeft(objs)` depends on the bricks' hits alone. */
  twostate lemma {:induction false} HitsLeftUnchanged(objs: seq<Item>)
    requires forall k | 0 <= k < |objs| && objs[k].BrickObj? :: objs[k].b.hits == old(objs[k].b.hits)
    ensures HitsLeft(objs) == old(HitsLeft(objs))
  {
    if objs != [] {
      HitsLeftUnchanged(objs[..|objs| - 1]);
    }
  }

  /** One more object of `objs` adds its hits left, if it is a brick. */
  lemma HitsLeftPrefix(objs: seq<Item>, i: int)
    requires 0 <= i < |objs|
    ensures objs[i].BrickObj? ==> HitsLeft(objs[..i + 1]) == HitsLeft(objs[..i]) + [objs[i].b.hits]
    ensures !objs[i].BrickObj? ==> HitsLeft(objs[..i + 1]) == HitsLeft(objs[..i])
  {
    assert objs[..i + 1][..i] == objs[..i];
  }

  /** Items seen through their own ids: every entry stores the object of that id. */
  ghost predicate SelfIndexed(items: map<int, Item>)
  {
    forall id | id in items :: ItemId(items[id]) == id
  }

  /** `[self.items[x] for x in ids if x in self.items]`. */
  function ObjectsAt(ids: seq<int>, items: map<int, Item>): (objs: seq<Item>)
    ensures |objs| <= |ids|
    ensures forall o | o in objs :: o in items.Values
  {
    if ids == [] then []
    else (if ids[0] in items then [items[ids[0]]] else []) + ObjectsAt(ids[1..], items)
  }

  /**
   * Over a self-indexed table, the objects found are exactly the entries of
   * the listed ids, each one once and in the order of the ids.
   */
  lemma {:induction false} ObjectsAtEntries(ids: seq<int>, items: map<int, Item>)
    requires SelfIndexed(items)
    ensures forall o | o in ObjectsAt(ids, items) :: ItemId(o) in ids && ItemId(o) in items && items[ItemId(o)] == o
    ensures forall id | id in ids && id in items :: items[id] in ObjectsAt(ids, items)
    ensures Increasing(ids) ==> Increasing(ItemIds(ObjectsAt(ids, items)))
  {
    if ids != [] {
      ObjectsAtEntries(ids[1..], items);
      var rest := ObjectsAt(ids[1..], items);
      var objs := ObjectsAt(ids, items);
      var head := if ids[0] in items then [items[ids[0]]] else [];
      assert objs == head + rest;
      forall o | o in objs ensures ItemId(o) in ids && ItemId(o) in items && items[ItemId(o)] == o {
        if o in head {
          assert o == items[ids[0]];
          assert ItemId(items[ids[0]]) == ids[0];
        } else {
          assert o in rest;
          assert ItemId(o) in ids[1..];
        }
      }
      forall id | id in ids && id in items ensures items[id] in objs {
        if id != ids[0] {
          assert id in ids[1..];
        }
      }
      if Increasing(ids) {
        assert Increasing(ids[1..]);
        forall i, j | 0 <= i < j < |objs| ensures ItemId(objs[i]) < ItemId(objs[j]) {
          if i < |head| {
            assert ItemId(objs[i]) == ids[0];
            assert rest[j - 1] in rest;
            assert ItemId(rest[j - 1]) in ids[1..];
          } else {
            assert ItemIds(rest)[i - |head|] < ItemIds(rest)[j - |head|];
          }
        }
      }
    }
  }

  lemma IncreasingDistinct(objs: seq<Item>)
    requires Increasing(ItemIds(objs))
    ensures DistinctIds(objs)
  {
    forall i, j | 0 <= i < j < |objs| ensures ItemId(objs[i]) != ItemId(objs[j]) {
      assert ItemIds(objs)[i] < ItemIds(objs)[j];
    }
  }

  class Ball {
    const canvas: Canvas
    const item: int
    const radius: real
    var dirX: int
    var dirY: int
    /** `None` once the game has frozen the ball. */
    var speed: Option<int>

    function Direction(): Dir
      reads this
    {
      Dir(dirX, dirY)
    }

    /** `Ball(canvas, x, y)`: an oval of radius 10 centred on (x, y), heading up and to the right. */
    constructor (canvas: Canvas, x: real, y: real)
      requires canvas.Valid()
      modifies canvas
      ensures this.canvas == canvas && canvas.Valid()
      ensures item == old(canvas.nextId) && item !in old(canvas.boxes) && canvas.nextId == item + 1
      ensures canvas.boxes == old(canvas.boxes)[item := BoxAround(x, y, BALL_RADIUS, BALL_RADIUS)]
      ensures canvas.fills == old(canvas.fills)[item := BALL_FILL] && canvas.tagged == old(canvas.tagged)
      ensures Direction() == Dir(1, -1) && speed == Some(BALL_SPEED) && radius == BALL_RADIUS
    {
      var id := canvas.Create(BoxAround(x, y, BALL_RADIUS, BALL_RADIUS), BALL_FILL, false);
      this.canvas := canvas;
      item := id;
      radius := BALL_RADIUS;
      dirX, dirY := 1, -1;
      speed := Some(BALL_SPEED);
    }

    /** `GameObject.move`. */
    method Move(dx: real, dy: real)
      requires canvas.Valid()
      modifies canvas`boxes
      ensures canvas.Valid()
      ensures canvas.boxes == Moved(old(canvas.boxes), item, dx, dy)
      ensures canvas.fills == old(canvas.fills) && canvas.tagged == old(canvas.tagged) && canvas.nextId == old(canvas.nextId)
    {
      canvas.Move(item, dx, dy);
    }

    /** `GameObject.delete`. */
    method Delete()
      requires canvas.Valid()
      modifies canvas`boxes, canvas`fills, canvas`tagged
      ensures canvas.Valid()
      ensures canvas.boxes == old(canvas.boxes) - {item} && canvas.fills == old(canvas.fills) - {item}
      ensures canvas.tagged == old(canvas.tagged) - {item} && canvas.nextId == old(canvas.nextId)
    {
      canvas.Delete(item);
    }

    /** `Ball.update`: bounce off the side and top walls, then move one step. */
    method Update(canvasWidth: real)
      requires canvas.Valid() && item in canvas.boxes && speed.Some?
      modifies this`dirX, this`dirY, canvas`boxes
      ensures canvas.Valid()
      ensures Direction() == Bounced(old(Direction()), old(canvas.boxes[item]), canvasWidth)
      ensures var (dx, dy) := Step(Direction(), speed.value);
        canvas.boxes == old(canvas.boxes)[item := Translate(old(canvas.boxes[item]), dx, dy)]
      ensures canvas.fills == old(canvas.fills) && canvas.tagged == old(canvas.tagged) && canvas.nextId == old(canvas.nextId)
    {
      var coords := canvas.boxes[item];
      if coords.x0 <= 0.0 || coords.x1 >= canvasWidth {
        dirX := -dirX;
      }
      if coords.y0 <= 0.0 {
        dirY := -dirY;
      }
      var x := dirX * speed.value;
      var y := dirY * speed.value;
      Move(x as real, y as real);
    }

    /** The first half of `Ball.collide`: the new direction from the overlapping objects. */
    method Bounce(objs: seq<Item>)
      requires canvas.Valid() && item in canvas.boxes
      requires |objs| == 1 ==> ItemId(objs[0]) in canvas.boxes
      modifies this`dirX, this`dirY
      ensures Direction() == Collided(old(Direction()), canvas.boxes[item], ItemIds(objs), canvas.boxes)
    {
      var coords := canvas.boxes[item];
      var x := (coords.x0 + coords.x1) * 0.5;
      if |objs| > 1 {
        dirY := -dirY;
      } else if |objs| == 1 {
        var other := canvas.boxes[ItemId(objs[0])];
        if x > other.x1 {
          dirX := 1;
        } else if x < other.x0 {
          dirX := -1;
        } else {
          dirY := -dirY;
        }
      }
    }

    /**
     * `Ball.collide(objs)`: turn the overlapping objects into a new direction,
     * then hit every brick among them once.
     */
    method Collide(objs: seq<Item>)
      requires canvas.Valid() && item in canvas.boxes
      requires |objs| == 1 ==> ItemId(objs[0]) in canvas.boxes
      requires DistinctIds(objs)
      requires forall k | 0 <= k < |objs| && objs[k].BrickObj? :: objs[k].b.canvas == canvas
      modifies this`dirX, this`dirY, canvas`fills, BricksOf(objs)
      ensures canvas.Valid()
      ensures canvas.boxes == old(canvas.boxes) && canvas.tagged == old(canvas.tagged) && canvas.nextId == old(canvas.nextId)
      ensures Direction() == Collided(old(Direction()), canvas.boxes[item], ItemIds(objs), canvas.boxes)
      ensures canvas.fills.Keys == old(canvas.fills).Keys
      ensures forall id | id in canvas.fills && id !in BrickIds(objs) :: canvas.fills[id] == old(canvas.fills)[id]
      ensures forall k | 0 <= k < |objs| && objs[k].BrickObj? ::
        var b := objs[k].b;
        b.hits == old(b.hits) - 1 &&
        b.deletesPending == old(b.deletesPending) + (if b.hits <= 0 then 1 else 0) &&
        (b.item in canvas.fills ==> canvas.fills[b.item] == if b.hits >= 1 then ColorFor(b.hits) else old(canvas.fills)[b.item])
      ensures HitsLeft(objs) == Decremented(old(HitsLeft(objs)))
    {
      Bounce(objs);
      HitBricks(objs, canvas);
      HitsLeftAfterHit(objs);
    }
  }

  /**
   * The closing loop of `Ball.collide`: `hit()` every brick of `objs`, once
   * each, in order.
   */
  method HitBricks(objs: seq<Item>, canvas: Canvas)
    requires canvas.Valid()
    requires DistinctIds(objs)
    requires forall k | 0 <= k < |objs| && objs[k].BrickObj? :: objs[k].b.canvas == canvas
    modifies canvas`fills, BricksOf(objs)
    ensures canvas.Valid()
    ensures canvas.boxes == old(canvas.boxes) && canvas.tagged == old(canvas.tagged) && canvas.nextId == old(canvas.nextId)
    ensures canvas.fills.Keys == old(canvas.fills).Keys
    ensures forall id | id in canvas.fills && id !in BrickIds(objs) :: canvas.fills[id] == old(canvas.fills)[id]
    ensures forall k | 0 <= k < |objs| && objs[k].BrickObj? ::
      var b := objs[k].b;
      b.hits == old(b.hits) - 1 &&
      b.deletesPending == old(b.deletesPending) + (if b.hits <= 0 then 1 else 0) &&
      (b.item in canvas.fills ==> canvas.fills[b.item] == if b.hits >= 1 then ColorFor(b.hits) else old(canvas.fills)[b.item])
  {
    var i := 0;
    while i < |objs|
      invariant 0 <= i <= |objs|
      invariant canvas.Valid()
      invariant canvas.boxes == old(canvas.boxes) && canvas.tagged == old(canvas.tagged) && canvas.nextId == old(canvas.nextId)
      invariant canvas.fills.Keys == old(canvas.fills).Keys
      invariant forall id | id in canvas.fills && id !in BrickIds(objs) :: canvas.fills[id] == old(canvas.fills)[id]
      invariant forall k | 0 <= k < |objs| && objs[k].BrickObj? ::
        var b, hit := objs[k].b, k < i;
        b.hits == old(b.hits) - (if hit then 1 else 0) &&
        b.deletesPending == old(b.deletesPending) + (if hit && b.hits <= 0 then 1 else 0) &&
        (b.item in canvas.fills ==> canvas.fills[b.item] == if hit && b.hits >= 1 then ColorFor(b.hits) else old(canvas.fills)[b.item])
    {
      if objs[i].BrickObj? {
        var b := objs[i].b;
        assert forall k | 0 <= k < |objs| && k != i && objs[k].BrickObj? :: objs[k].b.item != b.item by {
          forall k | 0 <= k < |objs| && k != i && objs[k].BrickObj? ensures objs[k].b.item != b.item {
            if k < i { assert Apart(objs, k, i); } else { assert Apart(objs, i, k); }
          }
        }
        b.Hit();
      }
      i := i + 1;
    }
  }

  class Paddle {
    const canvas: Canvas
    const item: int
    const width: real
    const height: real
    /** The ball docked on the paddle before the serve, if any. */
    var ball: Ball?

    /** `Paddle(canvas, x, y)`: a 50 by 10 rectangle centred on (x, y), with no ball docked. */
    constructor (canvas: Canvas, x: real, y: real)
      requires canvas.Valid()
      modifies canvas
      ensures this.canvas == canvas && canvas.Valid()
      ensures item == old(canvas.nextId) && item !in old(canvas.boxes) && canvas.nextId == item + 1
      ensures canvas.boxes == old(canvas.boxes)[item := BoxAround(x, y, PADDLE_WIDTH / 2.0, PADDLE_HEIGHT / 2.0)]
      ensures canvas.fills == old(canvas.fills)[item := PADDLE_FILL] && canvas.tagged == old(canvas.tagged)
      ensures ball == null && width == PADDLE_WIDTH && height == PADDLE_HEIGHT
    {
      var id := canvas.Create(BoxAround(x, y, PADDLE_WIDTH / 2.0, PADDLE_HEIGHT / 2.0), PADDLE_FILL, false);
      this.canvas := canvas;
      item := id;
      width, height := PADDLE_WIDTH, PADDLE_HEIGHT;
      ball := null;
    }

    method SetBall(b: Ball?)
      modifies this`ball
      ensures ball == b
    {
      ball := b;
    }

    /** `Paddle.move(offset)`: move sideways unless an edge would leave [0, width]; a docked ball follows. */
    method Move(offset: real, canvasWidth: real)
      requires canvas.Valid() && item in canvas.boxes
      requires ball != null ==> ball.canvas == canvas
      modifies canvas`boxes
      ensures canvas.Valid()
      ensures var b := old(canvas.boxes[item]);
        canvas.boxes ==
          if CanShift(b, offset, canvasWidth) then
            var moved := old(canvas.boxes)[item := Translate(b, offset, 0.0)];
            if ball == null then moved else Moved(moved, ball.item, offset, 0.0)
          else old(canvas.boxes)
      ensures canvas.fills == old(canvas.fills) && canvas.tagged == old(canvas.tagged) && canvas.nextId == old(canvas.nextId)
    {
      var coords := canvas.boxes[item];
      if coords.x0 + offset >= 0.0 && coords.x1 + offset <= canvasWidth {
        canvas.Move(item, offset, 0.0);
        if ball != null {
          ball.Move(offset, 0.0);
        }
      }
    }
  }

  /** The test of `Paddle.move`. */
  predicate CanShift(b: Box, offset: real, canvasWidth: real)
  {
    b.x0 + offset >= 0.0 && b.x1 + offset <= canvasWidth
  }

  /** Where `Paddle.move` leaves the paddle's box. */
  function PaddleAfter(b: Box, offset: real, canvasWidth: real): (r: Box)
    ensures r.y0 == b.y0 && r.y1 == b.y1 && Width(r) == Width(b)
    ensures r == b || (r.x0 == b.x0 + offset && 0.0 <= r.x0 && r.x1 <= canvasWidth)
  {
    if CanShift(b, offset, canvasWidth) then Translate(b, offset, 0.0) else b
  }

  /** A paddle inside [0, width] stays inside, at the same height, moved by the offset or not at all. */
  lemma PaddleStaysOnScreen(b: Box, offset: real, canvasWidth: real)
    requires 0.0 <= b.x0 && b.x1 <= canvasWidth
    ensures var r := PaddleAfter(b, offset, canvasWidth);
      0.0 <= r.x0 && r.x1 <= canvasWidth && r.y0 == b.y0 && r.y1 == b.y1 && Width(r) == Width(b) &&
      (r == b || r.x0 == b.x0 + offset)
  {
  }

  /** A paddle touching the left wall ignores a move to the left. */
  lemma PaddleAtLeftWall(b: Box, offset: real, canvasWidth: real)
    requires b.x0 == 0.0 && offset < 0.0
    ensures PaddleAfter(b, offset, canvasWidth) == b
  {
  }

  class Brick {
    const canvas: Canvas
    const item: int
    const width: real
    const height: real
    var hits: int
    /** Deletions scheduled by `animate_delete` that have not fired yet. */
    var deletesPending: nat

    /** What the canvas shows agrees with the hits left. */
    ghost predicate Consistent()
      reads this`hits, this`deletesPending, canvas`boxes, canvas`fills
    {
      hits <= 4 &&
      (deletesPending > 0 ==> hits <= 0) &&
      (item in canvas.boxes && hits <= 0 ==> deletesPending > 0) &&
      (item !in canvas.boxes ==> hits <= 0) &&
      (item in canvas.boxes && hits >= 1 ==> item in canvas.fills && canvas.fills[item] == ColorFor(hits))
    }

    /** `Brick(canvas, x, y, hits)`: a 75 by 20 rectangle tagged 'brick', coloured `COLORS[hits]`. */
    constructor (canvas: Canvas, x: real, y: real, hits: int)
      requires canvas.Valid() && hits in COLORS
      modifies canvas
      ensures this.canvas == canvas && canvas.Valid()
      ensures item == old(canvas.nextId) && item !in old(canvas.boxes) && canvas.nextId == item + 1
      ensures canvas.boxes == old(canvas.boxes)[item := BoxAround(x, y, BRICK_WIDTH / 2.0, BRICK_HEIGHT / 2.0)]
      ensures canvas.fills == old(canvas.fills)[item := COLORS[hits]] && canvas.tagged == old(canvas.tagged) + {item}
      ensures this.hits == hits && deletesPending == 0 && width == BRICK_WIDTH && height == BRICK_HEIGHT
      ensures Consistent()
    {
      var color := COLORS[hits];
      var id := canvas.Create(BoxAround(x, y, BRICK_WIDTH / 2.0, BRICK_HEIGHT / 2.0), color, true);
      this.canvas := canvas;
      item := id;
      width, height := BRICK_WIDTH, BRICK_HEIGHT;
      this.hits := hits;
      deletesPending := 0;
    }

    /** `Brick.hit`: one hit fewer; destroyed bricks get a deletion scheduled, the others a new colour. */
    method Hit()
      requires canvas.Valid()
      modifies this`hits, this`deletesPending, canvas`fills
      ensures canvas.Valid()
      ensures hits == old(hits) - 1
      ensures deletesPending == old(deletesPending) + (if hits <= 0 then 1 else 0)
      ensures canvas.fills == if hits <= 0 then old(canvas.fills) else Recolored(old(canvas.fills), item, ColorFor(hits))
      ensures canvas.boxes == old(canvas.boxes) && canvas.tagged == old(canvas.tagged) && canvas.nextId == old(canvas.nextId)
      ensures old(Consistent()) ==> Consistent()
    {
      hits := hits - 1;
      if hits <= 0 {
        deletesPending := deletesPending + 1;
      } else {
        var newColor := ColorFor(hits);
        canvas.SetFill(item, newColor);
      }
    }

    /** The scheduled `self.delete()` of `animate_delete` fires. */
    method FireDelete()
      requires canvas.Valid() && deletesPending > 0
      modifies this`deletesPending, canvas`boxes, canvas`fills, canvas`tagged
      ensures canvas.Valid()
      ensures hits == old(hits) && deletesPending == old(deletesPending) - 1
      ensures canvas.boxes == old(canvas.boxes) - {item} && canvas.fills == old(canvas.fills) - {item}
      ensures canvas.tagged == old(canvas.tagged) - {item} && canvas.nextId == old(canvas.nextId)
      ensures old(Consistent()) ==> Consistent()
    {
      deletesPending := deletesPending - 1;
      canvas.Delete(item);
    }
  }
}

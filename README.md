# GameBreaker gameplay model

This project models the gameplay core of `GameBreaker.py`, a brick breaker built on a tkinter canvas, in Dafny.

The canvas is a class, `Screen.Canvas`. It holds three things:
- a table from item id to bounding box `(x0, y0, x1, y1)`;
- the fill of each item;
- the set of items tagged `'brick'`.

Ids start at 1, as on a fresh tkinter canvas. `find_overlapping` is the closed-box intersection over the ids on the canvas, in creation (stacking) order.

The game objects are classes that hold their canvas id. Each one updates its own fields in place:
- the ball's `direction` and `speed`;
- a brick's `hits`;
- the paddle's docked ball.

`Session.Game` holds the item table `items`, `lives`, `score` and the numbers the HUD shows. It runs the tick state machine:
- `setup_game` docks a ball;
- `start_game` undocks it;
- `game_loop` repeats until the game is won, or a ball is lost, which leads back to `setup_game` or to the end of the game.

The timers `after(...)` schedules become data:
- `Game.phase` records which callback the game waits for: `Setup`, `Running`, `BallLost`, `Won` or `Lost`.
- Each brick counts the deletions its `animate_delete` has scheduled (`deletesPending`). `FireBrickDelete` is the callback that fires one of them.

`Game.Valid()` is the invariant every game operation keeps. It says:
- the table maps each id to its own object;
- the paddle keeps its shape;
- every brick's canvas colour agrees with its hits left;
- a brick is off the canvas only once it is destroyed;
- the ball is a 20 by 20 box whose direction components are in {-1, 1};
- lives equal 1 minus the balls lost, and the score is never negative;
- each phase has its own meaning for the ball's speed, the docked ball and the HUD.

Modules:
- `geometry.dfy`: boxes and translation.
- `screen.dfy`: the canvas.
- `scoring.dfy`: the points for a list of hits left.
- `objects.dfy`: `Ball`, `Paddle`, `Brick`, and the direction rules of `update` and `collide`.
- `layout.dfy`: the brick wall.
- `session.dfy`: `Game`.

## Model

| member | source | states |
|---|---|---|
| Geometry.BoxAround | GameBreaker.py:28-30 | the box of a shape centred on (x, y) has that centre and twice the half-extents as width and height |
| Geometry.Translate | GameBreaker.py:13-15 | moving a box keeps its width and height and shifts its corner and centre by the offsets |
| Geometry.TranslateUndone | GameBreaker.py:13-15 | a move by (-dx, -dy) undoes a move by (dx, dy) |
| Screen.Moved | GameBreaker.py:15 | `canvas.move` changes only the moved item's box, by a translation; an id not on the canvas is ignored |
| Screen.Recolored | GameBreaker.py:116 | `itemconfig(fill=...)` changes only that item's fill; an id not on the canvas is ignored |
| Screen.OverlapIds | GameBreaker.py:237 | an id is in the result exactly when it is on the canvas, in range, and its closed box meets the area; the result is strictly increasing |
| Screen.Canvas.constructor | GameBreaker.py:134-136 | a new canvas is empty and hands out id 1 first |
| Screen.Canvas.Create | GameBreaker.py:28-30 | a created item gets the next fresh id, its box and its fill, and the brick tag if asked; nothing else changes |
| Screen.Canvas.Move | GameBreaker.py:15 | the boxes become `Moved(old boxes, id, dx, dy)`; fills, tags and ids are unchanged |
| Screen.Canvas.SetFill | GameBreaker.py:116 | the fills become `Recolored(old fills, id, c)`; boxes, tags and ids are unchanged |
| Screen.Canvas.Delete | GameBreaker.py:19 | the item leaves the boxes, the fills and the brick tag; deleting a missing id changes nothing |
| Screen.Canvas.Overlapping | GameBreaker.py:237 | `find_overlapping` is exactly the ids ever handed out that are still on the canvas and meet the area, increasing |
| Screen.Canvas.BrickCount | GameBreaker.py:212 | `len(find_withtag('brick'))` is zero exactly when no item carries the brick tag |
| Objects.ColorFor | GameBreaker.py:115 | `COLORS.get(hits, '')`: the table colour for hits 1 to 4, the empty fill otherwise |
| Objects.Bounced | GameBreaker.py:37-40 | each direction component is kept or negated, and unit directions stay unit |
| Objects.BounceExactlyAtWalls | GameBreaker.py:37-40 | dx is negated exactly when the box touches a side wall, and dy exactly when it touches the top |
| Objects.UpdateKeepsSize | GameBreaker.py:41-43 | the step of `update` keeps the ball's width and height |
| Objects.Collided | GameBreaker.py:45-59 | dx is unchanged unless exactly one object is hit; dy is kept or negated; unit directions stay unit |
| Objects.CollideWithNothing | GameBreaker.py:45-59 | an empty overlap list leaves the direction unchanged |
| Objects.CollideWithSeveral | GameBreaker.py:49-50 | with more than one object only dy is negated |
| Objects.CollideWithOne | GameBreaker.py:51-59 | with one object: dx becomes 1 past its right edge, else -1 before its left edge, else dy is negated; dy flips exactly when the centre is within the object |
| Objects.CollideCentreOnRightEdge | GameBreaker.py:54-59 | a ball centre exactly on the object's right edge reverses dy and keeps dx |
| Objects.HitsLeftAfterHit | GameBreaker.py:61-63 | hitting every brick of a list once lowers every entry of its hits-left list by one |
| Objects.ObjectsAt | GameBreaker.py:238 | the list comprehension yields at most one object per id, and each object it yields is an entry of the table |
| Objects.ObjectsAtEntries | GameBreaker.py:238 | over a table that stores each object under its own id, the objects found are exactly the entries of the listed ids, in increasing id order |
| Objects.Ball.constructor | GameBreaker.py:24-31 | a radius-10 oval at (x, y) on a fresh id, direction [1, -1], speed 10 |
| Objects.Ball.Move | GameBreaker.py:13-15 | the ball's box is translated; nothing else on the canvas changes |
| Objects.Ball.Delete | GameBreaker.py:17-19 | the ball's item leaves the canvas |
| Objects.Ball.Update | GameBreaker.py:33-43 | the new direction is `Bounced` of the old one at the old box, and the box moves by the new direction times the speed; nothing else changes |
| Objects.Ball.Bounce | GameBreaker.py:47-59 | the new direction is `Collided` of the old direction, the ball's box and the boxes of the overlapping objects |
| Objects.Ball.Collide | GameBreaker.py:45-63 | the new direction is `Collided`; every brick in the list loses exactly one hit, a deletion is scheduled for each destroyed one, each survivor gets its new colour, a destroyed one keeps its fill, and no other fill changes |
| Objects.HitBricks | GameBreaker.py:61-63 | every brick of the list has `hit()` applied exactly once: one hit fewer, a deletion scheduled if destroyed, the new colour if it survives and the old fill if not; no other fill changes, and canvas boxes and tags are unchanged |
| Objects.Paddle.constructor | GameBreaker.py:68-77 | a 50 by 10 rectangle centred on (x, y) on a fresh id, with no ball docked |
| Objects.Paddle.SetBall | GameBreaker.py:79-81 | the docked ball becomes the argument |
| Objects.Paddle.Move | GameBreaker.py:83-90 | the paddle, and a docked ball with it, moves by the offset exactly when both edges stay within [0, width]; otherwise nothing moves |
| Objects.PaddleAfter | GameBreaker.py:83-90 | the box `Paddle.move` leaves keeps its height and width and either stays or is shifted by the offset to a place within [0, width] |
| Objects.PaddleStaysOnScreen | GameBreaker.py:83-90 | a paddle inside [0, width] stays inside at the same height and width, moved by the offset or not at all |
| Objects.PaddleAtLeftWall | GameBreaker.py:87 | a paddle touching the left wall ignores a move to the left |
| Objects.Brick.constructor | GameBreaker.py:97-107 | a 75 by 20 rectangle tagged 'brick' with fill `COLORS[hits]` and `hits` hits left |
| Objects.Brick.Hit | GameBreaker.py:109-116 | hits drop by one; at zero or below a deletion is scheduled and the fill is kept, otherwise the fill becomes the colour for the new hits; consistency with the canvas is kept |
| Objects.Brick.FireDelete | GameBreaker.py:123 | the scheduled `self.delete()` removes the brick's item from the canvas and from the brick tag |
| Scoring.Points | GameBreaker.py:242-244 | a brick earns 10, or 20 exactly when it has no hits left |
| Scoring.ScoreFor | GameBreaker.py:240-245 | a list of n bricks earns between 10n and 20n points |
| Scoring.ScoreForConcat | GameBreaker.py:240-245 | the points of two lists put together add up |
| Scoring.ScoreAllDestroyed | GameBreaker.py:240-245 | the list earns 20 a brick exactly when every brick in it is destroyed |
| Scoring.ScoreNoneDestroyed | GameBreaker.py:240-245 | the list earns 10 a brick exactly when no brick in it is destroyed |
| Scoring.ScoreOfOneHit | GameBreaker.py:239-245 | counted from the hits before the collision, the collision earns 20 a brick exactly when each brick had at most one hit left, and 10 a brick exactly when each had at least two |
| Scoring.ScoreOfLoneBrick | GameBreaker.py:240-245 | one brick hit alone scores 20 when it had at most one hit left before the collision, and 10 otherwise |
| Layout.RowHitsHaveColors | GameBreaker.py:144-152 | every row's hit count is 1 to 4 and a key of `COLORS`, so `Brick.__init__`'s lookup succeeds |
| Layout.ColumnCount | GameBreaker.py:144 | `range(5, 825, 75)` has 11 values; `BuildWall`'s loop counts down over them |
| Session.Decide | GameBreaker.py:212-223 | the decision of `game_loop` never returns to `Setup`, keeps the lives or takes one, and ends the game exactly when it takes the last one |
| Session.DecideOutcomes | GameBreaker.py:212-226 | after collisions the game is won exactly when no brick is left and keeps running exactly when bricks are left and the ball is above the floor; otherwise one life is lost, and the game is over exactly when fewer than zero remain |
| Session.SecondLostBallEndsGame | GameBreaker.py:216-223 | starting with one life, the first lost ball is replaced and the second one ends the game |
| Session.Game.constructor | GameBreaker.py:128-155 | the new game is valid and in `Setup` with one life, no score, the HUD showing both, 88 bricks, and each brick of column k, row r at its place with 4, 4, 3, 3, 2, 2, 1, 1 hits by row; the paddle at (390, 321, 440, 331) and the first ball at (405, 300, 425, 320); the paddle is item 1, the table holds exactly ids 1 to 89, the paddle and bricks only, the canvas exactly ids 1 to 90, the ball is 90 and the next id 91 |
| Session.Game.NewGameItems | GameBreaker.py:142-155 | once the paddle, the wall and the first ball are made, the table's keys are exactly 1 to 89, every entry but the paddle's is a brick, and the canvas holds exactly ids 1 to 90 |
| Session.Game.BuildWall | GameBreaker.py:144-152 | the wall loop runs once per value of `range(5, 825, 75)` and adds 11 columns of 8 bricks on ids 2 to 89, each at its place with its hits, keeping the invariant, and leaves the next id at 90; every box and every fill already on the canvas stays |
| Session.Game.AddColumn | GameBreaker.py:145-152 | one pass of the wall loop adds the 8 bricks of its column and keeps those added earlier; every box and every fill already on the canvas stays |
| Session.Game.AddBrick | GameBreaker.py:179-182 | the new brick is in the table under its fresh id, on the canvas at (x, y) with fill `COLORS[hits]`, tagged, with its hits; the table, the boxes and the fills change only at that id, and bricks added earlier stay |
| Session.Game.AddBall | GameBreaker.py:170-177 | the old ball, if any, leaves the canvas; a fresh ball on the next id is docked with its box centred on the paddle's centre at y = 310, heading (1, -1) at speed 10; boxes and fills change only at those two ids, and no tag changes |
| Session.Game.UpdateHud | GameBreaker.py:190-200 | the HUD shows the current lives and score |
| Session.Game.SetupGame | GameBreaker.py:162-168 | the game is valid and in `Setup` with the HUD refreshed and a fresh docked ball, placed as `AddBall` says; boxes and fills change only at the old and new ball ids, and bricks and paddle are untouched |
| Session.Game.Overlapped | GameBreaker.py:236-238 | the objects `check_collisions` collects are table entries, at most one per overlapping id |
| Session.Game.OverlappedListed | GameBreaker.py:236-238 | the collected objects are table entries under their own ids, each once; a lone one is on the canvas |
| Session.Game.CollideBall | GameBreaker.py:239 | `self.ball.collide` keeps the invariant, sets the direction to `Collided`, and takes one hit off exactly the bricks in the list; each of them schedules one deletion exactly when that hit leaves it with none, and shows `ColorFor` of its new hits while it has some; no other fill changes and no fill appears or goes; boxes and tags are unchanged |
| Session.Game.ScoreHits | GameBreaker.py:240-245 | the scoring loop raises the score by `ScoreFor` of the listed bricks' hits left and keeps the invariant |
| Session.Game.AddPoints | GameBreaker.py:240-245 | the loop adds `ScoreFor` of the hits left and leaves the HUD showing the new score |
| Session.Game.ScoreBrick | GameBreaker.py:242-245 | one brick adds `Points` of its hits left (10, or 20 when none are left) and the HUD shows the new score |
| Session.Game.CollideOverlapping | GameBreaker.py:236-239 | the list is exactly the overlapped table entries; the direction is `Collided`; exactly those bricks lose one hit, with the deletions and fills of `CollideBall`; no other fill changes; boxes and tags are unchanged |
| Session.Game.CheckCollisions | GameBreaker.py:234-245 | as `CollideOverlapping`, and the score rises by `ScoreFor` of the listed bricks' hits after the collision; the ball, boxes, tags and lives are unchanged |
| Session.Game.CollideOneBrick | GameBreaker.py:234-245 | when the ball overlaps one brick alone, that brick loses a hit, and the score rises by 20 and one deletion is scheduled when that was its last hit, by 10 and none otherwise |
| Session.Game.StopWon | GameBreaker.py:213-215 | with no brick left the ball stops and the game is won |
| Session.Game.LoseBall | GameBreaker.py:216-223 | the ball stops and lives drop by one; the game is lost exactly when fewer than zero remain, otherwise `setup_game` is due |
| Session.Game.MoveBall | GameBreaker.py:224-226 | the ball bounces and moves as in `update`; the game keeps running |
| Session.Game.Advance | GameBreaker.py:212-226 | phase and lives are `Decide` of the brick count, the ball's bottom, the height and the lives; a running ball moves as `update` says, and a stopped one neither turns nor moves; no brick's hits, no tag and the current ball change, and no box but the ball's |
| Session.Game.Tick | GameBreaker.py:209-226 | one `game_loop`: the invariant is kept, the score never falls and rises by the points of the overlapped bricks, and phase and lives are `Decide` of the state before the tick; exactly the overlapped bricks lose one hit, every other brick keeps its hits, and the ball and the brick tags are unchanged; the box table keeps its ids and every box but the ball's |
| Session.Game.Serve | GameBreaker.py:204-206 | the space key leads to the running phase with no ball docked, keeping the invariant |
| Session.Game.StartGame | GameBreaker.py:202-207 | the ball is undocked and the first tick runs, with the guarantees of `Tick`: the score, phase and lives as `Tick` says, one hit off exactly the overlapped bricks, ball and tags unchanged, and every box but the ball's kept |
| Session.Game.MovePaddle | GameBreaker.py:157-160 | the paddle moves as `Paddle.move` says; before the serve the ball moves with it, otherwise only the paddle moves |
| Session.Game.FireBrickDelete | GameBreaker.py:123 | a destroyed brick leaves the canvas, its fill and the brick tag, so it no longer counts; nothing else moves |

## Left out

- Window plumbing is not modelled: the Frame, `pack`, `mainloop`, `focus_set`, key `bind`/`unbind` and the `__main__` block. The key handlers become the methods `MovePaddle` and `StartGame`.
- `winfo_width()` is I/O. It becomes the parameter `canvasWidth` of `Ball.Update`, `Paddle.Move`, `MovePaddle`, `MoveBall`, `Advance`, `Tick` and `StartGame`.
- Text items are not put on the canvas table. They are the HUD, the start prompt and the end messages of `draw_text`, `update_hud` and `game_loop`. `start_game`'s `canvas.delete(self.text)` is left out with them. A text item is never in `self.items` and never tagged, so it could only add ids that `check_collisions` filters out. Leaving them out does shift later ids: in the code the two HUD texts and the start prompt take ids 91 to 93 and the ball that the next `setup_game` creates is 94, where the model gives it 91. Ids only order the result of `find_overlapping`, and the paddle, the bricks and the ball keep the same relative order, so the collisions are the same.
- The HUD is modelled as a snapshot of the lives and score it shows (`hudLives`, `hudScore`), not as text.
- The red flashes of `Brick.animate_delete` and `Game.animate_ball_fall` are cosmetic timer callbacks and are left out.
- The timers are not modelled as such. A brick's delayed `delete` is the counter `deletesPending` plus `FireBrickDelete`. The 50 ms and 1000 ms callbacks of `game_loop` are `Game.phase`.
- Fill colours are opaque strings. Only the key lookup matters.
- `Objects.Ball.Update` requires a speed. The code would raise on `self.direction[0] * self.speed` once the speed is `None`. That call never happens: once `game_loop` sets the speed to `None`, it schedules no further `update`.
- `Session.Game.Tick` does not restate the ball's new direction and box, nor the new fills and pending deletions. `CollideOverlapping`/`CheckCollisions` state the collision bounce, the fills and the deletions, and `Advance` states the wall bounce and the move; `Tick` is their sequence.
- `Session.Game.StartGame`: the same as `Tick`.
- `Session.Game.CheckCollisions` states the score change against the hits after the collision. `ScoreOfOneHit` restates it in terms of the hits before.
- Some operations are split into several methods, for proof size only. `Game.__init__` becomes the constructor, `BuildWall` and `AddColumn`. `check_collisions` becomes `CollideOverlapping` and `ScoreHits`/`AddPoints`/`ScoreBrick`. `Ball.collide` becomes `Bounce` and `HitBricks`. `start_game` becomes `Serve` followed by `Tick`. The three branches of `game_loop` are `StopWon`, `LoseBall` and `MoveBall`. The statements run in the same order as in the source.
- Two points of the code where a reader might expect otherwise. The model does what the code does:
  - The single-object rule of `collide` (GameBreaker.py:51-59) applies to any one object, brick or paddle.
  - The comparisons of that rule are strict. A ball centre exactly on the object's right edge reverses the vertical direction and keeps the horizontal one (`CollideCentreOnRightEdge`).
- Python integers are unbounded, and so are the model's. There is no wrap-around to model.
- `tempCodeRunnerFile.py` is not part of this model. It is an unused fragment that does not parse.

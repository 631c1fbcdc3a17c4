/**
 * The drawing surface the game objects live on: a table from item id to
 * bounding box, the fill of each item and the set of items tagged 'brick'.
 * Ids are handed out from 1 upwards, as a fresh tkinter canvas does.
 */
module Screen {
  import opened Geometry

  /** Fill colours are opaque tokens. */
  type Color = string

  /** `canvas.move(id, dx, dy)`: an id that is not on the canvas is ignored. */
  function Moved(boxes: map<int, Box>, id: int, dx: real, dy: real): (r: map<int, Box>)
    ensures r.Keys == boxes.Keys
    ensures forall k | k in boxes && k != id :: r[k] == boxes[k]
    ensures id in boxes ==> r[id] == Translate(boxes[id], dx, dy)
  {
    if id in boxes then boxes[id := Translate(boxes[id], dx, dy)] else boxes
  }

  /** `canvas.itemconfig(id, fill=c)`: an id that is not on the canvas is ignored. */
  function Recolored(fills: map<int, Color>, id: int, c: Color): (r: map<int, Color>)
    ensures r.Keys == fills.Keys
    ensures forall k | k in fills && k != id :: r[k] == fills[k]
    ensures id in fills ==> r[id] == c
  {
    if id in fills then fills[id := c] else fills
  }

  predicate Increasing(s: seq<int>)
  {
    forall i, j | 0 <= i < j < |s| :: s[i] < s[j]
  }

  /**
   * `find_overlapping(*area)` over the ids lo .. hi-1: the ids on the canvas
   * whose closed box meets `area`, in stacking (= creation) order.
   */
  function OverlapIds(boxes: map<int, Box>, area: Box, lo: int, hi: int): (r: seq<int>)
    decreases hi - lo
    ensures forall id :: id in r <==> lo <= id < hi && id in boxes && Overlaps(boxes[id], area)
    ensures forall k | 0 <= k < |r| :: lo <= r[k] < hi
    ensures Increasing(r)
  {
    if lo >= hi then []
    else
      var rest := OverlapIds(boxes, area, lo + 1, hi);
      if lo in boxes && Overlaps(boxes[lo], area) then [lo] + rest else rest
  }

  class Canvas {
    var boxes: map<int, Box>
    var fills: map<int, Color>
    /** Items created with `tags='brick'`. */
    var tagged: set<int>
    /** The id the next created item gets. */
    var nextId: int

    ghost predicate Valid()
      reads this
    {
      1 <= nextId &&
      fills.Keys == boxes.Keys &&
      tagged <= boxes.Keys &&
      forall id | id in boxes :: 1 <= id < nextId
    }

    constructor ()
      ensures Valid()
      ensures boxes == map[] && fills == map[] && tagged == {} && nextId == 1
    {
      boxes, fills, tagged, nextId := map[], map[], {}, 1;
    }

    /** `create_oval` / `create_rectangle`: a new item with a fresh id. */
    method Create(b: Box, fill: Color, brick: bool) returns (id: int)
      requires Valid()
      modifies this
      ensures Valid()
      ensures id == old(nextId) && id !in old(boxes) && nextId == id + 1
      ensures boxes == old(boxes)[id := b] && fills == old(fills)[id := fill]
      ensures tagged == if brick then old(tagged) + {id} else old(tagged)
    {
      id := nextId;
      boxes := boxes[id := b];
      fills := fills[id := fill];
      if brick {
        tagged := tagged + {id};
      }
      nextId := nextId + 1;
    }

    method Move(id: int, dx: real, dy: real)
      requires Valid()
      modifies this`boxes
      ensures Valid()
      ensures boxes == Moved(old(boxes), id, dx, dy)
      ensures fills == old(fills) && tagged == old(tagged) && nextId == old(nextId)
    {
      boxes := Moved(boxes, id, dx, dy);
    }

    method SetFill(id: int, c: Color)
      requires Valid()
      modifies this`fills
      ensures Valid()
      ensures fills == Recolored(old(fills), id, c)
      ensures boxes == old(boxes) && tagged == old(tagged) && nextId == old(nextId)
    {
      fills := Recolored(fills, id, c);
    }

    /** `canvas.delete(id)`: deleting an id that is already gone does nothing. */
    method Delete(id: int)
      requires Valid()
      modifies this`boxes, this`fills, this`tagged
      ensures Valid()
      ensures boxes == old(boxes) - {id} && fills == old(fills) - {id}
      ensures tagged == old(tagged) - {id} && nextId == old(nextId)
    {
      boxes := boxes - {id};
      fills := fills - {id};
      tagged := tagged - {id};
    }

    /** `find_overlapping(*area)` over every id ever handed out. */
    function Overlapping(area: Box): (r: seq<int>)
      reads this`boxes, this`nextId
      ensures forall id :: id in r <==> id in boxes && 1 <= id < nextId && Overlaps(boxes[id], area)
      ensures Increasing(r)
    {
      OverlapIds(boxes, area, 1, nextId)
    }

    /** `len(find_withtag('brick'))`. */
    function BrickCount(): (r: nat)
      reads this`tagged
      ensures r == 0 <==> tagged == {}
    {
      |tagged|
    }
  }
}

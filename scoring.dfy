/**
 * The points `Game.check_collisions` awards: 10 for every brick in the
 * overlap list, and 10 more for each one that the hit left with no hits.
 */
module Scoring {

  const HIT_POINTS: int := 10
  const DESTROY_BONUS: int := 10

  /** Points for one brick, given the hits it has left after the collision. */
  function Points(hitsLeft: int): (p: int)
    ensures p == HIT_POINTS || p == HIT_POINTS + DESTROY_BONUS
    ensures p == HIT_POINTS + DESTROY_BONUS <==> hitsLeft <= 0
  {
    HIT_POINTS + (if hitsLeft <= 0 then DESTROY_BONUS else 0)
  }

  /** The points for a list of bricks, given the hits each one has left; earned in list order. */
  function ScoreFor(hs: seq<int>): (r: int)
    ensures 10 * |hs| <= r <= 20 * |hs|
  {
    if hs == [] then 0 else ScoreFor(hs[..|hs| - 1]) + Points(hs[|hs| - 1])
  }

  lemma ScoreForAppend(hs: seq<int>, h: int)
    ensures ScoreFor(hs + [h]) == ScoreFor(hs) + Points(h)
  {
    assert (hs + [h])[..|hs|] == hs;
  }

  /** The hits left of each brick after one more hit. */
  function Decremented(hs: seq<int>): (r: seq<int>)
    ensures |r| == |hs| && forall k | 0 <= k < |hs| :: r[k] == hs[k] - 1
  {
    if hs == [] then [] else Decremented(hs[..|hs| - 1]) + [hs[|hs| - 1] - 1]
  }

  lemma DecrementedAppend(hs: seq<int>, h: int)
    ensures Decremented(hs + [h]) == Decremented(hs) + [h - 1]
  {
    assert (hs + [h])[..|hs|] == hs;
  }

  /** Scores of two lists add up, so splitting the list changes nothing. */
  lemma {:induction false} ScoreForConcat(a: seq<int>, b: seq<int>)
    ensures ScoreFor(a + b) == ScoreFor(a) + ScoreFor(b)
    decreases |b|
  {
    if b == [] {
      assert a + b == a;
    } else {
      var front, last := b[..|b| - 1], b[|b| - 1];
      assert a + b == (a + front) + [last];
      assert b == front + [last];
      ScoreForConcat(a, front);
      ScoreForAppend(a + front, last);
      ScoreForAppend(front, last);
    }
  }

  /** The top score, 20 a brick, is reached exactly when every brick in the list was destroyed. */
  lemma {:induction false} ScoreAllDestroyed(hs: seq<int>)
    ensures ScoreFor(hs) == 20 * |hs| <==> forall k | 0 <= k < |hs| :: hs[k] <= 0
  {
    if hs != [] {
      var front := hs[..|hs| - 1];
      ScoreAllDestroyed(front);
      if forall k | 0 <= k < |hs| :: hs[k] <= 0 {
        assert forall k | 0 <= k < |front| :: front[k] <= 0 by {
          forall k | 0 <= k < |front| ensures front[k] <= 0 {
            assert front[k] == hs[k];
          }
        }
      } else if forall k | 0 <= k < |front| :: front[k] <= 0 {
        assert hs[|hs| - 1] > 0 by {
          var j :| 0 <= j < |hs| && hs[j] > 0;
          if j < |front| {
            assert front[j] == hs[j];
          }
        }
      } else {
        var j :| 0 <= j < |front| && front[j] > 0;
      }
    }
  }

  /** The bottom score, 10 a brick, is reached exactly when no brick in the list was destroyed. */
  lemma {:induction false} ScoreNoneDestroyed(hs: seq<int>)
    ensures ScoreFor(hs) == 10 * |hs| <==> forall k | 0 <= k < |hs| :: hs[k] >= 1
  {
    if hs != [] {
      var front := hs[..|hs| - 1];
      ScoreNoneDestroyed(front);
      if forall k | 0 <= k < |hs| :: hs[k] >= 1 {
        assert forall k | 0 <= k < |front| :: front[k] >= 1 by {
          forall k | 0 <= k < |front| ensures front[k] >= 1 {
            assert front[k] == hs[k];
          }
        }
      } else if forall k | 0 <= k < |front| :: front[k] >= 1 {
        assert hs[|hs| - 1] < 1 by {
          var j :| 0 <= j < |hs| && hs[j] < 1;
          if j < |front| {
            assert front[j] == hs[j];
          }
        }
      } else {
        var j :| 0 <= j < |front| && front[j] < 1;
      }
    }
  }

  /**
   * In terms of the hits the bricks had before the collision: the collision
   * earns 20 a brick exactly when every brick had at most one hit left, and
   * 10 a brick exactly when every one had at least two.
   */
  lemma ScoreOfOneHit(hs: seq<int>)
    ensures ScoreFor(Decremented(hs)) == 20 * |hs| <==> forall k | 0 <= k < |hs| :: hs[k] <= 1
    ensures ScoreFor(Decremented(hs)) == 10 * |hs| <==> forall k | 0 <= k < |hs| :: hs[k] >= 2
  {
    var d := Decremented(hs);
    assert |d| == |hs|;
    ScoreAllDestroyed(d);
    ScoreNoneDestroyed(d);
    assert (forall k | 0 <= k < |d| :: d[k] <= 0) <==> (forall k | 0 <= k < |hs| :: hs[k] <= 1) by {
      assert forall k | 0 <= k < |hs| :: d[k] == hs[k] - 1;
    }
    assert (forall k | 0 <= k < |d| :: d[k] >= 1) <==> (forall k | 0 <= k < |hs| :: hs[k] >= 2) by {
      assert forall k | 0 <= k < |hs| :: d[k] == hs[k] - 1;
    }
  }

  /** One brick hit alone scores 20 when that hit was its last and 10 otherwise. */
  lemma ScoreOfLoneBrick(h: int)
    ensures ScoreFor(Decremented([h])) == if h <= 1 then 20 else 10
  {
    ScoreForAppend([], h - 1);
    assert [] + [h - 1] == [h - 1];
  }
}

/** Falling balls: the catch rule and the pure parts of one physics tick. */
module Physics {

  import opened Board

  /** A falling object: `id` and `x` are fixed at spawn, `y` grows by the falling speed every tick. */
  datatype Ball = Ball(id: nat, x: int, y: int)

  /** Top edge of the paddle, the `playerY` of the catch test. */
  const PlayerY: int := BoardHeight - BallHeight

  /** A ball whose y reaches this bound has left the board. */
  const OffBoardY: int := BoardHeight - BallHeight

  /** The closed intervals [lo1, hi1] and [lo2, hi2] share a point. */
  predicate IntervalsMeet(lo1: int, hi1: int, lo2: int, hi2: int) {
    lo1 <= hi2 && lo2 <= hi1
  }

  /**
   * A ball is caught when its bottom edge has reached the paddle's top edge and its horizontal
   * extent touches the paddle's. In numbers: one ball width of tolerance on the left, none on the right.
   */
  function DetectCollision(ball: Ball, playerX: int): (caught: bool)
    ensures caught <==> (ball.y + BallHeight >= PlayerY
                         && IntervalsMeet(ball.x, ball.x + BallWidth, playerX, playerX + PlayerWidth))
    ensures caught <==> (ball.y >= 560 && playerX - 20 <= ball.x <= playerX + 100)
  {
    ball.y >= PlayerY - BallHeight && ball.x >= playerX - BallWidth && ball.x <= playerX + PlayerWidth
  }

  /** The two boundary cases worked out for the catch rule (ball at x = 90, y = 579). */
  lemma CollisionExamples()
    ensures !DetectCollision(Ball(0, 90, 579), 200)
    ensures DetectCollision(Ball(0, 90, 579), 80)
    ensures DetectCollision(Ball(0, 80, 560), 100) && !DetectCollision(Ball(0, 79, 560), 100)
    ensures DetectCollision(Ball(0, 200, 560), 100) && !DetectCollision(Ball(0, 201, 560), 100)
    ensures !DetectCollision(Ball(0, 100, 559), 100)
  {
  }

  /** Every ball moved down by `fallingSpeed`, keeping its id and x. */
  function Moved(balls: seq<Ball>, fallingSpeed: int): (moved: seq<Ball>)
    ensures |moved| == |balls|
    ensures forall i :: 0 <= i < |balls| ==>
              moved[i].id == balls[i].id && moved[i].x == balls[i].x && moved[i].y == balls[i].y + fallingSpeed
  {
    seq(|balls|, i requires 0 <= i < |balls| => balls[i].(y := balls[i].y + fallingSpeed))
  }

  /** A moved ball stays on the board: it is above the bottom bound and not caught. */
  predicate Remains(ball: Ball, playerX: int) {
    ball.y < OffBoardY && !DetectCollision(ball, playerX)
  }

  /** The balls the tick's filter keeps, in order. */
  function Survivors(moved: seq<Ball>, playerX: int): (kept: seq<Ball>)
    ensures |kept| <= |moved|
    ensures forall k :: 0 <= k < |kept| ==> Remains(kept[k], playerX)
  {
    if moved == [] then []
    else (if Remains(moved[0], playerX) then [moved[0]] else []) + Survivors(moved[1..], playerX)
  }

  /** How many balls the tick's filter counts as caught: each adds one to the score. */
  function CaughtCount(moved: seq<Ball>, playerX: int): (caught: nat)
    ensures caught <= |moved|
    ensures (forall i :: 0 <= i < |moved| ==> !DetectCollision(moved[i], playerX)) ==> caught == 0
  {
    if moved == [] then 0
    else (if DetectCollision(moved[0], playerX) then 1 else 0) + CaughtCount(moved[1..], playerX)
  }

  /** How many balls the filter drops only because they left the board. */
  function MissedCount(moved: seq<Ball>, playerX: int): (missed: nat)
    ensures missed <= |moved|
    ensures (forall i :: 0 <= i < |moved| ==> moved[i].y < OffBoardY) ==> missed == 0
  {
    if moved == [] then 0
    else (if moved[0].y >= OffBoardY && !DetectCollision(moved[0], playerX) then 1 else 0)
         + MissedCount(moved[1..], playerX)
  }

  /** `a` is `b` with some elements deleted: order is kept. */
  predicate IsSubsequence<T(==)>(a: seq<T>, b: seq<T>)
    decreases |b|
  {
    if a == [] then true
    else if b == [] then false
    else (a[0] == b[0] && IsSubsequence(a[1..], b[1..])) || IsSubsequence(a, b[1..])
  }

  /** Ids strictly increase along the sequence; in particular they are unique. */
  predicate IdsIncreasing(balls: seq<Ball>) {
    forall i, j :: 0 <= i < j < |balls| ==> balls[i].id < balls[j].id
  }

  /** Balls as the spawner makes them: increasing ids below the next id, x in the spawn range. */
  predicate Spawned(balls: seq<Ball>, nextId: nat) {
    IdsIncreasing(balls)
    && forall i :: 0 <= i < |balls| ==> balls[i].id < nextId && 0 <= balls[i].x < SpawnRange
  }

  /** Every live ball is above the bottom bound. */
  predicate OnBoard(balls: seq<Ball>) {
    forall i :: 0 <= i < |balls| ==> balls[i].y < OffBoardY
  }

  /** The invariant of the engine's live balls. */
  predicate BallsWellFormed(balls: seq<Ball>, nextId: nat) {
    Spawned(balls, nextId) && OnBoard(balls)
  }

  /** The filter and the catch count distribute over concatenation, so a loop may run them ball by ball. */
  lemma {:induction false} SurvivorsAppend(a: seq<Ball>, b: seq<Ball>, playerX: int)
    ensures Survivors(a + b, playerX) == Survivors(a, playerX) + Survivors(b, playerX)
    ensures CaughtCount(a + b, playerX) == CaughtCount(a, playerX) + CaughtCount(b, playerX)
  {
    if a == [] {
      assert a + b == b;
    } else {
      assert (a + b)[0] == a[0];
      assert (a + b)[1..] == a[1..] + b;
      SurvivorsAppend(a[1..], b, playerX);
    }
  }

  /** A ball survives the tick iff it was among the moved balls and remains on the board. */
  lemma {:induction false} SurvivorsMembership(moved: seq<Ball>, playerX: int, ball: Ball)
    ensures ball in Survivors(moved, playerX) <==> ball in moved && Remains(ball, playerX)
  {
    if moved != [] {
      SurvivorsMembership(moved[1..], playerX, ball);
      assert moved == [moved[0]] + moved[1..];
    }
  }

  /** Surviving balls keep their relative order. */
  lemma {:induction false} SurvivorsInOrder(moved: seq<Ball>, playerX: int)
    ensures IsSubsequence(Survivors(moved, playerX), moved)
  {
    if moved != [] {
      SurvivorsInOrder(moved[1..], playerX);
      var rest := Survivors(moved[1..], playerX);
      if Remains(moved[0], playerX) {
        var kept := [moved[0]] + rest;
        assert kept[0] == moved[0] && kept[1..] == rest;
      } else {
        assert Survivors(moved, playerX) == rest;
        assert rest != [] ==> IsSubsequence(rest, moved[1..]);
      }
    }
  }

  /** Every moved ball is kept, caught or missed: the score counts only the caught ones. */
  lemma {:induction false} TickAccounting(moved: seq<Ball>, playerX: int)
    ensures |moved| == |Survivors(moved, playerX)| + CaughtCount(moved, playerX) + MissedCount(moved, playerX)
  {
    if moved != [] {
      TickAccounting(moved[1..], playerX);
    }
  }

  /** Ids above a bound stay above it after filtering. */
  lemma {:induction false} SurvivorsIdsAbove(moved: seq<Ball>, playerX: int, bound: int)
    requires forall i :: 0 <= i < |moved| ==> moved[i].id > bound
    ensures forall k :: 0 <= k < |Survivors(moved, playerX)| ==> Survivors(moved, playerX)[k].id > bound
  {
    if moved != [] {
      SurvivorsIdsAbove(moved[1..], playerX, bound);
    }
  }

  /** Filtering spawned balls keeps them spawned and leaves only balls on the board. */
  lemma {:induction false} SurvivorsWellFormed(moved: seq<Ball>, playerX: int, nextId: nat)
    requires Spawned(moved, nextId)
    ensures BallsWellFormed(Survivors(moved, playerX), nextId)
  {
    if moved != [] {
      var tail := moved[1..];
      assert Spawned(tail, nextId) by {
        forall i, j | 0 <= i < j < |tail| ensures tail[i].id < tail[j].id {
          assert tail[i] == moved[i + 1] && tail[j] == moved[j + 1];
        }
      }
      SurvivorsWellFormed(tail, playerX, nextId);
      var rest := Survivors(tail, playerX);
      if Remains(moved[0], playerX) {
        SurvivorsIdsAbove(tail, playerX, moved[0].id);
        var kept := [moved[0]] + rest;
        assert forall k :: 1 <= k < |kept| ==> kept[k] == rest[k - 1];
      }
    }
  }

  /** One tick's movement and filtering keeps the live balls well formed. */
  lemma TickPreservesWellFormed(balls: seq<Ball>, fallingSpeed: int, playerX: int, nextId: nat)
    requires BallsWellFormed(balls, nextId)
    ensures BallsWellFormed(Survivors(Moved(balls, fallingSpeed), playerX), nextId)
  {
    SurvivorsWellFormed(Moved(balls, fallingSpeed), playerX, nextId);
  }

  /** A spawn at a legal x with the next id keeps the live balls well formed. */
  lemma SpawnPreservesWellFormed(balls: seq<Ball>, nextId: nat, x: int)
    requires BallsWellFormed(balls, nextId) && 0 <= x < SpawnRange
    ensures BallsWellFormed(balls + [Ball(nextId, x, 0)], nextId + 1)
  {
  }
}

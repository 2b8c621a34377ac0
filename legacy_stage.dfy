/** The older, unchecked XY stage of stage.py: no initialization interlock,
    no lower bound, and an upper bound tested only by `goto`. The stepper
    pulses and limit switches are not modelled; whether a motor holds current
    is the ghost flag energizedX / energizedY. */
module LegacyStage {

  datatype Pos = Pos(x: int, y: int)

  function Dist(a: int, b: int): nat
  {
    if a <= b then b - a else a - b
  }

  /** The positions met walking one unit at a time from `from` to `to`,
      both included. */
  function Walk(from: int, to: int): seq<int>
    decreases Dist(from, to)
  {
    if from == to then [from]
    else [from] + Walk(if from < to then from + 1 else from - 1, to)
  }

  /** The positions `goto` passes through: X walked first with Y held, then
      Y walked with X held at its target. */
  function Staircase(from: Pos, to: Pos): seq<Pos>
  {
    var xs, ys := Walk(from.x, to.x), Walk(from.y, to.y);
    seq(|xs|, k requires 0 <= k < |xs| => Pos(xs[k], from.y))
      + seq(|ys| - 1, k requires 0 <= k < |ys| - 1 => Pos(to.x, ys[k + 1]))
  }

  /** A walk has one position per unit of distance plus one, starts and
      ends where asked, and moves by exactly one unit towards the target at
      each position. */
  lemma {:induction false} WalkShape(from: int, to: int)
    ensures |Walk(from, to)| == Dist(from, to) + 1
    ensures Walk(from, to)[0] == from && Walk(from, to)[Dist(from, to)] == to
    ensures forall k :: 0 <= k < Dist(from, to) ==>
      Walk(from, to)[k + 1] == Walk(from, to)[k] + (if from < to then 1 else -1)
    decreases Dist(from, to)
  {
    if from != to {
      var next := if from < to then from + 1 else from - 1;
      WalkShape(next, to);
      var w := Walk(from, to);
      assert w == [from] + Walk(next, to);
      forall k | 0 <= k < Dist(from, to)
        ensures w[k + 1] == w[k] + (if from < to then 1 else -1)
      {
        if k > 0 {
          assert w[k + 1] == Walk(next, to)[k] && w[k] == Walk(next, to)[k - 1];
        }
      }
    }
  }

  /** One more unit step in the walk's direction extends the walk by the new
      position. */
  lemma {:induction false} WalkExtend(from: int, to: int, next: int)
    requires next == to + 1 || next == to - 1
    requires Dist(from, next) == Dist(from, to) + 1
    ensures Walk(from, next) == Walk(from, to) + [next]
    decreases Dist(from, to)
  {
    if from != to {
      var step := if from < to then from + 1 else from - 1;
      assert step == (if from < next then from + 1 else from - 1);
      WalkExtend(step, to, next);
    } else {
      assert Walk(from, next) == [from] + Walk(next, next);
    }
  }

  /** `goto`'s path is |dx| + |dy| unit steps: first along X at the old Y,
      then along Y at the new X. */
  lemma StaircaseShape(from: Pos, to: Pos)
    ensures var p := Staircase(from, to);
      |p| == Dist(from.x, to.x) + Dist(from.y, to.y) + 1 &&
      p[0] == from && p[|p| - 1] == to &&
      (forall k :: 0 <= k <= Dist(from.x, to.x) ==> p[k].y == from.y) &&
      (forall k :: Dist(from.x, to.x) <= k < |p| ==> p[k].x == to.x) &&
      (forall k :: 0 < k < |p| ==> Dist(p[k - 1].x, p[k].x) + Dist(p[k - 1].y, p[k].y) == 1)
  {
    WalkShape(from.x, to.x);
    WalkShape(from.y, to.y);
    var p := Staircase(from, to);
    var xs, ys := Walk(from.x, to.x), Walk(from.y, to.y);
    var dx := Dist(from.x, to.x);
    forall k | 0 < k < |p|
      ensures Dist(p[k - 1].x, p[k].x) + Dist(p[k - 1].y, p[k].y) == 1
    {
      if k <= dx {
        assert p[k - 1] == Pos(xs[k - 1], from.y) && p[k] == Pos(xs[k], from.y);
      } else if k == dx + 1 {
        assert p[k - 1] == Pos(xs[dx], from.y) && p[k] == Pos(to.x, ys[1]);
      } else {
        assert p[k - 1] == Pos(to.x, ys[k - 1 - dx]) && p[k] == Pos(to.x, ys[k - dx]);
      }
    }
  }

  class Stage {
    var posX: int
    var posY: int
    var maxX: int
    var maxY: int
    /** true from a pulse until the motor is released */
    ghost var energizedX: bool
    ghost var energizedY: bool

    /** Both steppers released, at the origin. */
    constructor ()
      ensures posX == 0 && posY == 0
      ensures maxX == 40000 && maxY == 30000
      ensures Released()
    {
      energizedX, energizedY := false, false;
      posX, posY := 0, 0;
      maxX, maxY := 40000, 30000;
    }

    ghost predicate Released()
      reads this
    {
      !energizedX && !energizedY
    }

    /** `initialize_stage`: X is stepped until its limit switch fires (after
        probesX pulses), then declared to be at 0; then the same for Y. The
        pulses are not followed by a release, so a motor that was stepped is
        left energized. */
    method InitializeStage(probesX: nat, probesY: nat)
      modifies this`posX, this`posY, this`energizedX, this`energizedY
      ensures posX == 0 && posY == 0
      ensures energizedX == (old(energizedX) || probesX > 0)
      ensures energizedY == (old(energizedY) || probesY > 0)
    {
      for k := 0 to probesX
        invariant energizedX == (old(energizedX) || k > 0) && energizedY == old(energizedY)
      {
        energizedX := true;
      }
      posX := 0;
      for k := 0 to probesY
        invariant energizedY == (old(energizedY) || k > 0) && energizedX == (old(energizedX) || probesX > 0)
        invariant posX == 0
      {
        energizedY := true;
      }
      posY := 0;
    }

    /** `moveX`: nSteps unit pulses with no bounds check, then release. */
    method MoveX(nSteps: int)
      modifies this`posX, this`energizedX
      ensures posX == old(posX) + nSteps && !energizedX
    {
      if nSteps > 0 {
        for k := 0 to nSteps
          invariant posX == old(posX) + k
        {
          energizedX := true;
          posX := posX + 1;
        }
      }
      if nSteps < 0 {
        for k := 0 to -nSteps
          invariant posX == old(posX) - k
        {
          energizedX := true;
          posX := posX - 1;
        }
      }
      energizedX := false;
    }

    /** `moveY`: nSteps unit pulses with no bounds check, then release. */
    method MoveY(nSteps: int)
      modifies this`posY, this`energizedY
      ensures posY == old(posY) + nSteps && !energizedY
    {
      if nSteps > 0 {
        for k := 0 to nSteps
          invariant posY == old(posY) + k
        {
          energizedY := true;
          posY := posY + 1;
        }
      }
      if nSteps < 0 {
        for k := 0 to -nSteps
          invariant posY == old(posY) - k
        {
          energizedY := true;
          posY := posY - 1;
        }
      }
      energizedY := false;
    }

    /** `goto`: rejected, with nothing changed, only when a target exceeds
        the axis length; negative targets are accepted. Otherwise X is
        walked one unit move at a time to x, then Y to y. `path` is every
        position the stage stands at, the start included. */
    method Goto(x: int, y: int) returns (ghost path: seq<Pos>)
      modifies this`posX, this`posY, this`energizedX, this`energizedY
      ensures x > maxX || y > maxY ==>
        posX == old(posX) && posY == old(posY) && path == [Pos(posX, posY)] &&
        energizedX == old(energizedX) && energizedY == old(energizedY)
      ensures x <= maxX && y <= maxY ==>
        posX == x && posY == y && path == Staircase(Pos(old(posX), old(posY)), Pos(x, y)) &&
        energizedX == (old(energizedX) && old(posX) == x) &&
        energizedY == (old(energizedY) && old(posY) == y)
      ensures old(Released()) ==> Released()
    {
      path := [Pos(posX, posY)];
      if x > maxX || y > maxY {
        return;
      }
      ghost var x0, y0 := posX, posY;
      ghost var xs := WalkXTo(x);
      ghost var ys := WalkYTo(y);
      path := seq(|xs|, k requires 0 <= k < |xs| => Pos(xs[k], y0))
        + seq(|ys| - 1, k requires 0 <= k < |ys| - 1 => Pos(x, ys[k + 1]));
    }

    /** The X half of `goto`: unit moves towards x until posX == x. `xs` is
        every X position met, the start included. */
    method WalkXTo(x: int) returns (ghost xs: seq<int>)
      modifies this`posX, this`energizedX
      ensures posX == x && xs == Walk(old(posX), x)
      ensures energizedX == (old(energizedX) && old(posX) == x)
    {
      ghost var x0 := posX;
      xs := [x0];
      if posX < x {
        while posX < x
          invariant x0 <= posX <= x
          invariant xs == Walk(x0, posX)
          invariant energizedX == (old(energizedX) && posX == x0)
          decreases x - posX
        {
          MoveX(1);
          WalkExtend(x0, posX - 1, posX);
          xs := xs + [posX];
        }
      } else if posX > x {
        while posX > x
          invariant x <= posX <= x0
          invariant xs == Walk(x0, posX)
          invariant energizedX == (old(energizedX) && posX == x0)
          decreases posX - x
        {
          MoveX(-1);
          WalkExtend(x0, posX + 1, posX);
          xs := xs + [posX];
        }
      }
    }

    /** The Y half of `goto`, the same on the other axis. */
    method WalkYTo(y: int) returns (ghost ys: seq<int>)
      modifies this`posY, this`energizedY
      ensures posY == y && ys == Walk(old(posY), y)
      ensures energizedY == (old(energizedY) && old(posY) == y)
    {
      ghost var y0 := posY;
      ys := [y0];
      if posY < y {
        while posY < y
          invariant y0 <= posY <= y
          invariant ys == Walk(y0, posY)
          invariant energizedY == (old(energizedY) && posY == y0)
          decreases y - posY
        {
          MoveY(1);
          WalkExtend(y0, posY - 1, posY);
          ys := ys + [posY];
        }
      } else if posY > y {
        while posY > y
          invariant y <= posY <= y0
          invariant ys == Walk(y0, posY)
          invariant energizedY == (old(energizedY) && posY == y0)
          decreases posY - y
        {
          MoveY(-1);
          WalkExtend(y0, posY + 1, posY);
          ys := ys + [posY];
        }
      }
    }
  }
}

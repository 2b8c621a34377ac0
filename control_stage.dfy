/** The checked XY stage of control/stage.py: position in steps, soft limits
    [0, maxX] x [0, maxY], and one initialization interlock per axis. The
    stepper pulses and the limit switches are not modelled; whether a motor
    holds current is the ghost flag energizedX / energizedY. */
module ControlStage {

  function Abs(n: int): nat { if n < 0 then -n else n }

  class Stage {
    var posX: int
    var posY: int
    var maxX: int
    var maxY: int
    var isInitializedX: bool
    var isInitializedY: bool
    /** true from a pulse until the motor is released */
    ghost var energizedX: bool
    ghost var energizedY: bool

    /** Both steppers released, at the origin, neither axis homed. */
    constructor ()
      ensures posX == 0 && posY == 0
      ensures maxX == 7000 && maxY == 7000
      ensures !isInitializedX && !isInitializedY
      ensures Released()
    {
      energizedX, energizedY := false, false;
      posX, posY := 0, 0;
      maxX, maxY := 7000, 7000;
      isInitializedX, isInitializedY := false, false;
    }

    ghost predicate Released()
      reads this
    {
      !energizedX && !energizedY
    }

    predicate InBounds(x: int, y: int)
      reads this
    {
      0 <= x <= maxX && 0 <= y <= maxY
    }

    /** `_check_move_valid`: the X interlock is tested first, then the Y
        interlock, then the soft limits. An interlock only blocks a target
        that changes its axis. */
    function CheckMoveValid(newX: int, newY: int): (ok: bool)
      reads this
      ensures ok <==>
        (newX == posX || isInitializedX) && (newY == posY || isInitializedY) && InBounds(newX, newY)
    {
      if newX != posX && !isInitializedX then false
      else if newY != posY && !isInitializedY then false
      else if newX > maxX || newX < 0 || newY > maxY || newY < 0 then false
      else true
    }

    /** `moveX`: unless overridden, a rejected target is a no-op (the motor is
        not touched). Otherwise one pulse per unit step, each moving posX by
        one towards the target, and the motor is released afterwards. */
    method MoveX(nSteps: int, override: bool) returns (ghost pulses: nat)
      modifies this`posX, this`energizedX
      ensures !override && !old(CheckMoveValid(posX + nSteps, posY)) ==>
        posX == old(posX) && pulses == 0 && energizedX == old(energizedX)
      ensures override || old(CheckMoveValid(posX + nSteps, posY)) ==>
        posX == old(posX) + nSteps && pulses == Abs(nSteps) && !energizedX
      ensures !override && old(InBounds(posX, posY)) ==> InBounds(posX, posY)
    {
      pulses := 0;
      if !override {
        if !CheckMoveValid(posX + nSteps, posY) {
          return;
        }
      }
      if nSteps > 0 {
        for k := 0 to nSteps
          invariant posX == old(posX) + k && pulses == k
        {
          energizedX := true;
          posX := posX + 1;
          pulses := pulses + 1;
        }
      }
      if nSteps < 0 {
        for k := 0 to -nSteps
          invariant posX == old(posX) - k && pulses == k
        {
          energizedX := true;
          posX := posX - 1;
          pulses := pulses + 1;
        }
      }
      // the `finally` clause
      energizedX := false;
    }

    /** `moveY`, the same as MoveX on the other axis. */
    method MoveY(nSteps: int, override: bool) returns (ghost pulses: nat)
      modifies this`posY, this`energizedY
      ensures !override && !old(CheckMoveValid(posX, posY + nSteps)) ==>
        posY == old(posY) && pulses == 0 && energizedY == old(energizedY)
      ensures override || old(CheckMoveValid(posX, posY + nSteps)) ==>
        posY == old(posY) + nSteps && pulses == Abs(nSteps) && !energizedY
      ensures !override && old(InBounds(posX, posY)) ==> InBounds(posX, posY)
    {
      pulses := 0;
      if !override {
        if !CheckMoveValid(posX, posY + nSteps) {
          return;
        }
      }
      if nSteps > 0 {
        for k := 0 to nSteps
          invariant posY == old(posY) + k && pulses == k
        {
          energizedY := true;
          posY := posY + 1;
          pulses := pulses + 1;
        }
      }
      if nSteps < 0 {
        for k := 0 to -nSteps
          invariant posY == old(posY) - k && pulses == k
        {
          energizedY := true;
          posY := posY - 1;
          pulses := pulses + 1;
        }
      }
      energizedY := false;
    }

    /** `initialize_stage`: X is driven +50 at a time until its max limit
        switch fires (after probesX probes), backed off 100 and declared to be
        at maxX; unless xOnly, Y is driven -200 at a time until its min switch
        fires (after probesY probes), backed off 800 and declared to be at 0.
        All these moves override the checks. */
    method InitializeStage(xOnly: bool, probesX: nat, probesY: nat)
      modifies this`posX, this`posY, this`energizedX, this`energizedY
      modifies this`isInitializedX, this`isInitializedY
      ensures posX == maxX && isInitializedX && !energizedX
      ensures !xOnly ==> posY == 0 && isInitializedY && !energizedY
      ensures xOnly ==>
        posY == old(posY) && isInitializedY == old(isInitializedY) && energizedY == old(energizedY)
    {
      ghost var pulses: nat;
      for k := 0 to probesX
        invariant posY == old(posY) && energizedY == old(energizedY)
        invariant isInitializedY == old(isInitializedY)
      {
        pulses := MoveX(50, true);
      }
      pulses := MoveX(-100, true);
      posX := maxX;
      isInitializedX := true;

      if !xOnly {
        for k := 0 to probesY
          invariant posX == maxX && isInitializedX && !energizedX
        {
          pulses := MoveY(-200, true);
        }
        pulses := MoveY(800, true);
        posY := 0;
        isInitializedY := true;
      }
    }

    /** `goto`: the whole target is validated before either axis moves; then
        X moves by x - posX and Y by y - posY, each through its own checked
        move. From an in-bounds position a valid target is always reached. */
    method Goto(x: int, y: int)
      modifies this`posX, this`posY, this`energizedX, this`energizedY
      ensures !old(CheckMoveValid(x, y)) ==>
        posX == old(posX) && posY == old(posY) && energizedX == old(energizedX) && energizedY == old(energizedY)
      ensures old(CheckMoveValid(x, y)) && old(InBounds(posX, posY)) ==>
        posX == x && posY == y && Released()
      ensures old(CheckMoveValid(x, y)) ==>
        posX == (if 0 <= old(posY) <= maxY then x else old(posX)) &&
        posY == (if 0 <= posX <= maxX then y else old(posY))
      ensures old(Released()) ==> Released()
    {
      if !CheckMoveValid(x, y) {
        return;
      }
      ghost var pulses := MoveX(x - posX, false);
      pulses := MoveY(y - posY, false);
    }
  }
}

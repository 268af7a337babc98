/** The one movement step of a player, internal/game/systems.go, and the promise it
    keeps: whatever came before, the player ends on the map and clear of the walls. */
module Movement {
  import opened Reals
  import opened Walls
  import opened Wire

  const PLAYER_SPEED := 300.0
  const INV_SQRT2 := 0.70710678
  const DASH_SPEED_MULT := 2.6
  const DASH_DURATION := 0.18
  const DASH_COOLDOWN := 2.5
  const INPUT_RATE := 60.0
  const INPUT_DT := 1.0 / INPUT_RATE

  const BTN_UP := 1
  const BTN_LEFT := 2
  const BTN_DOWN := 4
  const BTN_RIGHT := 8
  const BTN_FIRE := 16
  const ACT_DASH := 1

  datatype Input = Input(seq_: nat, buttons: U8, aim: U16, viewTick: nat, ackTick: nat, actions: U8)

  datatype MoveState = MoveState(x: real, y: real, vx: real, vy: real, dashCD: real, dashT: real)

  /** A countdown: down by dt, not below zero, and left alone once it is over. */
  function Countdown(v: real, dt: real): real {
    if v > 0.0 then (if v - dt < 0.0 then 0.0 else v - dt) else v
  }

  /** The movement direction of the buttons; opposite keys cancel, diagonals are shortened. */
  function Direction(buttons: U8): (real, real) {
    var dx := (if Has(buttons, BTN_RIGHT) then 1.0 else 0.0) - (if Has(buttons, BTN_LEFT) then 1.0 else 0.0);
    var dy := (if Has(buttons, BTN_DOWN) then 1.0 else 0.0) - (if Has(buttons, BTN_UP) then 1.0 else 0.0);
    if dx != 0.0 && dy != 0.0 then (Mul(dx, INV_SQRT2), Mul(dy, INV_SQRT2)) else (dx, dy)
  }

  predicate Moving(buttons: U8) {
    Direction(buttons) != (0.0, 0.0)
  }

  /** The dash timers after one step: both count down, then a dash may start. */
  function DashTimers(cd: real, t: real, buttons: U8, wants: bool, dt: real): (real, real) {
    var (cd', t') := (Countdown(cd, dt), Countdown(t, dt));
    if wants && cd' <= 0.0 && Moving(buttons) then (DASH_COOLDOWN, DASH_DURATION) else (cd', t')
  }

  function Speed(dashing: bool): real {
    if dashing then PLAYER_SPEED * DASH_SPEED_MULT else PLAYER_SPEED
  }

  /** Where a step leads: along the direction, clamped to the map, pushed out of walls. */
  function Advance(root: real -> real, x: real, y: real, vx: real, vy: real, dt: real): (real, real) {
    ResolvedBy(root,
               Clamp(x + Mul(vx, dt), PLAYER_RADIUS, MAP_SIZE - PLAYER_RADIUS),
               Clamp(y + Mul(vy, dt), PLAYER_RADIUS, MAP_SIZE - PLAYER_RADIUS), PLAYER_RADIUS, WALLS)
  }

  function Moved(root: real -> real, s: MoveState, inp: Input, dt: real): MoveState {
    var (cd, t) := DashTimers(s.dashCD, s.dashT, inp.buttons, Has(inp.actions, ACT_DASH), dt);
    var (dx, dy) := Direction(inp.buttons);
    var speed := Speed(t > 0.0);
    var (vx, vy) := (Mul(dx, speed), Mul(dy, speed));
    var (x, y) := Advance(root, s.x, s.y, vx, vy, dt);
    MoveState(x, y, vx, vy, cd, t)
  }

  lemma AdvanceIsLegal(root: real -> real, x: real, y: real, vx: real, vy: real, dt: real)
    requires IsRoot(root)
    ensures var p := Advance(root, x, y, vx, vy, dt); Legal(p.0, p.1)
  {
    hide IsRoot, Legal, ResolvedBy, Mul;
    ResolvedIsLegal(root,
                    Clamp(x + Mul(vx, dt), PLAYER_RADIUS, MAP_SIZE - PLAYER_RADIUS),
                    Clamp(y + Mul(vy, dt), PLAYER_RADIUS, MAP_SIZE - PLAYER_RADIUS));
  }

  /** One step lands in a legal place from any place at all. */
  lemma MovedIsLegal(root: real -> real, s: MoveState, inp: Input, dt: real)
    requires IsRoot(root)
    ensures var m := Moved(root, s, inp, dt); Legal(m.x, m.y)
  {
    hide IsRoot, Legal, Advance, Mul, DashTimers, Direction;
    var m := Moved(root, s, inp, dt);
    AdvanceIsLegal(root, s.x, s.y, m.vx, m.vy, dt);
  }

  // ----- what the buttons mean

  predicate HoldsUp(buttons: U8) {
    buttons % 2 == 1
  }

  predicate HoldsLeft(buttons: U8) {
    buttons / 2 % 2 == 1
  }

  predicate HoldsDown(buttons: U8) {
    buttons / 4 % 2 == 1
  }

  predicate HoldsRight(buttons: U8) {
    buttons / 8 % 2 == 1
  }

  /** Do the keys held leave a direction? */
  predicate Heads(buttons: U8) {
    HoldsLeft(buttons) != HoldsRight(buttons) || HoldsUp(buttons) != HoldsDown(buttons)
  }

  /** Left lowers x, right raises it, up lowers y, down raises it; opposite keys cancel. */
  ghost predicate Turns(buttons: U8, vx: real, vy: real) {
    && (vx < 0.0 <==> HoldsLeft(buttons) && !HoldsRight(buttons))
    && (vx > 0.0 <==> HoldsRight(buttons) && !HoldsLeft(buttons))
    && (vy < 0.0 <==> HoldsUp(buttons) && !HoldsDown(buttons))
    && (vy > 0.0 <==> HoldsDown(buttons) && !HoldsUp(buttons))
  }

  /** 300 units a second or 2.6 times as many, on a diagonal times 1 / sqrt 2 on either axis. */
  ghost predicate Paces(dashing: bool, vx: real, vy: real) {
    var v := if dashing then 780.0 else 300.0;
    && (vx != 0.0 && vy == 0.0 ==> vx == v || vx == -v)
    && (vx == 0.0 && vy != 0.0 ==> vy == v || vy == -v)
    && (vx != 0.0 && vy != 0.0 ==>
      (vx == v * 0.70710678 || vx == -v * 0.70710678) && (vy == v * 0.70710678 || vy == -v * 0.70710678))
  }

  /** A dash is asked for with action bit 0, granted when the wait is over and a direction is
      held, and then lasts 0.18 seconds with a wait of 2.5; otherwise both timers run down. */
  ghost predicate Dashes(s: MoveState, inp: Input, dt: real, cd: real, t: real) {
    if inp.actions % 2 == 1 && (s.dashCD <= 0.0 || s.dashCD <= dt) && Heads(inp.buttons) then cd == 2.5 && t == 0.18
    else RunsDown(s.dashCD, dt, cd) && RunsDown(s.dashT, dt, t)
  }

  ghost predicate RunsDown(v: real, dt: real, v': real) {
    if v <= 0.0 then v' == v else if v <= dt then v' == 0.0 else v' == v - dt
  }

  /** Where nothing is in the way, the new place is the old one plus velocity times dt. */
  ghost predicate Glides(s: MoveState, dt: real, m: MoveState) {
    var (x, y) := (s.x + Mul(m.vx, dt), s.y + Mul(m.vy, dt));
    Legal(x, y) ==> m.x == x && m.y == y
  }

  ghost predicate Obeys(s: MoveState, inp: Input, dt: real, m: MoveState) {
    && Turns(inp.buttons, m.vx, m.vy) && Paces(m.dashT > 0.0, m.vx, m.vy)
    && Dashes(s, inp, dt, m.dashCD, m.dashT) && Glides(s, dt, m)
  }

  lemma LeftBit(b: U8)
    ensures Has(b, BTN_LEFT) == HoldsLeft(b)
  {
  }

  lemma DownBit(b: U8)
    ensures Has(b, BTN_DOWN) == HoldsDown(b)
  {
  }

  lemma RightBit(b: U8)
    ensures Has(b, BTN_RIGHT) == HoldsRight(b)
  {
  }

  lemma KeyBits(b: U8)
    ensures Has(b, BTN_UP) == HoldsUp(b) && Has(b, BTN_LEFT) == HoldsLeft(b)
    ensures Has(b, BTN_DOWN) == HoldsDown(b) && Has(b, BTN_RIGHT) == HoldsRight(b)
  {
    LeftBit(b);
    DownBit(b);
    RightBit(b);
    hide HoldsLeft, HoldsDown, HoldsRight;
  }

  lemma DirectionTurns(buttons: U8, dashing: bool)
    ensures var (d, v) := (Direction(buttons), Speed(dashing));
      Turns(buttons, Mul(d.0, v), Mul(d.1, v)) && Paces(dashing, Mul(d.0, v), Mul(d.1, v))
  {
    KeyBits(buttons);
    hide Has, HoldsUp, HoldsLeft, HoldsDown, HoldsRight;
  }

  lemma TimersDash(s: MoveState, inp: Input, dt: real)
    ensures var (cd, t) := DashTimers(s.dashCD, s.dashT, inp.buttons, Has(inp.actions, ACT_DASH), dt);
      Dashes(s, inp, dt, cd, t)
  {
    KeyBits(inp.buttons);
    KeyBits(inp.actions);
    hide Has, HoldsLeft, HoldsDown, HoldsRight;
  }

  lemma AdvanceGlides(root: real -> real, s: MoveState, dt: real, m: MoveState)
    requires (m.x, m.y) == Advance(root, s.x, s.y, m.vx, m.vy, dt)
    ensures Glides(s, dt, m)
  {
    hide Legal, ResolvedBy, Clamp, Mul;
    LegalStays(root, s.x + Mul(m.vx, dt), s.y + Mul(m.vy, dt));
  }

  lemma LegalStays(root: real -> real, x: real, y: real)
    ensures Legal(x, y) ==>
      ResolvedBy(root, Clamp(x, PLAYER_RADIUS, MAP_SIZE - PLAYER_RADIUS),
                 Clamp(y, PLAYER_RADIUS, MAP_SIZE - PLAYER_RADIUS), PLAYER_RADIUS, WALLS) == (x, y)
  {
    if Legal(x, y) {
      NobodyPushed(root, x, y, PLAYER_RADIUS, WALLS);
      hide ResolvedBy, ClearOf;
    }
  }

  /** What a player may rely on at the keyboard. */
  lemma MovedObeys(root: real -> real, s: MoveState, inp: Input, dt: real)
    ensures Obeys(s, inp, dt, Moved(root, s, inp, dt))
  {
    hide Advance, Legal, Direction, Speed, DashTimers, Turns, Paces, Dashes, Glides, Mul;
    var m := Moved(root, s, inp, dt);
    DirectionTurns(inp.buttons, m.dashT > 0.0);
    TimersDash(s, inp, dt);
    AdvanceGlides(root, s, dt, m);
  }

  /** Movement under a stream of inputs, one by one. */
  function MovedAll(root: real -> real, m: MoveState, inputs: seq<Input>): MoveState {
    if inputs == [] then m else Moved(root, MovedAll(root, m, inputs[..|inputs| - 1]), inputs[|inputs| - 1], INPUT_DT)
  }

  lemma {:induction false} MovedConcat(root: real -> real, m: MoveState, a: seq<Input>, b: seq<Input>)
    ensures MovedAll(root, m, a + b) == MovedAll(root, MovedAll(root, m, a), b)
    decreases |b|
  {
    hide Moved;
    if b == [] {
      assert a + b == a;
    } else {
      MovedConcat(root, m, a, b[..|b| - 1]);
      assert (a + b)[..|a + b| - 1] == a + b[..|b| - 1];
    }
  }

  // ----- dashes over a run

  /** Does input `i` of the stream start a dash? */
  ghost predicate DashStarts(root: real -> real, m: MoveState, inputs: seq<Input>, i: nat)
    requires i < |inputs|
  {
    var s := MovedAll(root, m, inputs[..i]);
    var inp := inputs[i];
    && inp.actions % 2 == 1 && (s.dashCD <= 0.0 || s.dashCD <= INPUT_DT)
    && Heads(inp.buttons)
  }

  /** The timers `k` inputs after the one that started a dash. */
  lemma {:induction false} SinceDash(root: real -> real, m: MoveState, inputs: seq<Input>, i: nat, k: nat)
    requires i + k < |inputs| && k < 150 && DashStarts(root, m, inputs, i)
    ensures var s := MovedAll(root, m, inputs[..i + k + 1]);
      && s.dashCD == 2.5 - k as real / 60.0
      && s.dashT == if k <= 10 then 0.18 - k as real / 60.0 else 0.0
  {
    hide Moved, Turns, Paces, Glides;
    var n := i + k;
    if k > 0 {
      SinceDash(root, m, inputs, i, k - 1);
    }
    assert inputs[..n + 1][..n] == inputs[..n];
    MovedObeys(root, MovedAll(root, m, inputs[..n]), inputs[n], INPUT_DT);
  }

  /** Two dashes of a stream are at least 150 inputs apart, and each one speeds up exactly
      the 11 inputs from its first on. */
  lemma DashesAreApart(root: real -> real, m: MoveState, inputs: seq<Input>, i: nat, j: nat)
    requires i < j < |inputs| && DashStarts(root, m, inputs, i)
    ensures DashStarts(root, m, inputs, j) ==> j >= i + 150
    ensures j < i + 150 ==> (MovedAll(root, m, inputs[..j + 1]).dashT > 0.0 <==> j <= i + 10)
  {
    hide MovedAll;
    if j < i + 150 {
      SinceDash(root, m, inputs, i, j - i);
      SinceDash(root, m, inputs, i, j - 1 - i);
    }
  }

  /** The mutable part of an entity that `Step` writes through its pointer. */
  class Body {
    var x: real
    var y: real
    var vx: real
    var vy: real
    var dashCD: real
    var dashT: real

    constructor (m: MoveState)
      ensures State() == m
    {
      x, y, vx, vy, dashCD, dashT := m.x, m.y, m.vx, m.vy, m.dashCD, m.dashT;
    }

    ghost function State(): MoveState
      reads this
    {
      MoveState(x, y, vx, vy, dashCD, dashT)
    }

    method Step(root: real -> real, inp: Input, dt: real)
      requires IsRoot(root)
      modifies this
      ensures State() == Moved(root, old(State()), inp, dt)
      ensures Legal(x, y)
      ensures Obeys(old(State()), inp, dt, State())
    {
      MovedIsLegal(root, State(), inp, dt);
      MovedObeys(root, State(), inp, dt);
      hide IsRoot, Legal, Advance, Has, Mul, Direction, Obeys;
      if dashCD > 0.0 {
        dashCD := dashCD - dt;
        if dashCD < 0.0 {
          dashCD := 0.0;
        }
      }
      if dashT > 0.0 {
        dashT := dashT - dt;
        if dashT < 0.0 {
          dashT := 0.0;
        }
      }
      var dx, dy := Steer(inp.buttons);
      if Has(inp.actions, ACT_DASH) && dashCD <= 0.0 && (dx != 0.0 || dy != 0.0) {
        dashT := DASH_DURATION;
        dashCD := DASH_COOLDOWN;
      }
      var speed := PLAYER_SPEED;
      if dashT > 0.0 {
        speed := PLAYER_SPEED * DASH_SPEED_MULT;
      }
      vx, vy := Mul(dx, speed), Mul(dy, speed);
      x, y := Travel(root, x, y, vx, vy, dt);
    }
  }

  method Steer(buttons: U8) returns (dx: real, dy: real)
    ensures (dx, dy) == Direction(buttons)
  {
    hide Has, Mul;
    dx, dy := 0.0, 0.0;
    if Has(buttons, BTN_LEFT) {
      dx := dx - 1.0;
    }
    if Has(buttons, BTN_RIGHT) {
      dx := dx + 1.0;
    }
    if Has(buttons, BTN_UP) {
      dy := dy - 1.0;
    }
    if Has(buttons, BTN_DOWN) {
      dy := dy + 1.0;
    }
    if dx != 0.0 && dy != 0.0 {
      dx, dy := Mul(dx, INV_SQRT2), Mul(dy, INV_SQRT2);
    }
  }

  method Travel(root: real -> real, x: real, y: real, vx: real, vy: real, dt: real) returns (x': real, y': real)
    ensures (x', y') == Advance(root, x, y, vx, vy, dt)
  {
    hide ResolvedBy, Mul, Clamp;
    var nx := Clamp(x + Mul(vx, dt), PLAYER_RADIUS, MAP_SIZE - PLAYER_RADIUS);
    var ny := Clamp(y + Mul(vy, dt), PLAYER_RADIUS, MAP_SIZE - PLAYER_RADIUS);
    x', y' := ResolveWalls(root, nx, ny, PLAYER_RADIUS, WALLS);
  }
}

/** Client-side prediction, web/game.js: the browser repeats the server's movement step,
    remembers for each input only whether it was dashing, and replays what is not yet
    acknowledged over every snapshot. When, in one life of the player, nothing ever has to
    be corrected. */
module Prediction {
  import opened Wrappers
  import opened Reals
  import opened Walls
  import opened Wire
  import opened Movement

  // ----- the browser's step

  datatype Point = Point(x: real, y: real, vx: real, vy: real)

  function PointOf(m: MoveState): Point {
    Point(m.x, m.y, m.vx, m.vy)
  }

  /** `stepMove`: no timers, the caller says whether this frame dashes. */
  function StepMove(root: real -> real, p: Point, buttons: U8, dt: real, dashActive: bool): Point {
    var (dx, dy) := Direction(buttons);
    var (vx, vy) := (Mul(dx, Speed(dashActive)), Mul(dy, Speed(dashActive)));
    var (x, y) := Advance(root, p.x, p.y, vx, vy, dt);
    Point(x, y, vx, vy)
  }

  datatype Pending = Pending(seq_: nat, buttons: U8, dashActive: bool)

  datatype Dash = Dash(cd: real, t: real)

  const NO_DASH := Dash(0.0, 0.0)

  /** A snapshot as one player sees it: its own entity is missing while it is dead. */
  datatype Snap = Snap(tick: nat, ack: nat, at: Option<Point>)

  /** What the prediction keeps: where it is, its dash timers, the inputs not yet
      acknowledged, its last number, the newest snapshot seen, whether there is anything to
      predict from, and whether the player is known to be dead. */
  datatype Client = Client(
    pred: Point, dash: Dash, pending: seq<Pending>, seq_: nat, newest: int, ready: bool, dead: bool)

  function Ticked(v: real, dt: real): real {
    if v > 0.0 then Max(0.0, v - dt) else v
  }

  function UpdatedDash(d: Dash, buttons: U8, wants: bool): Dash {
    var (cd, t) := (Ticked(d.cd, INPUT_DT), Ticked(d.t, INPUT_DT));
    if wants && cd <= 0.0 && Moving(buttons) then Dash(DASH_COOLDOWN, DASH_DURATION) else Dash(cd, t)
  }

  /** One frame of the input loop: the dead only count on. */
  function Pressed(root: real -> real, c: Client, buttons: U8, wants: bool): Client {
    if c.dead then c.(seq_ := c.seq_ + 1)
    else
      var d := UpdatedDash(c.dash, buttons, wants);
      c.(pred := if c.ready then StepMove(root, c.pred, buttons, INPUT_DT, d.t > 0.0) else c.pred, dash := d,
         pending := c.pending + [Pending(c.seq_ + 1, buttons, d.t > 0.0)], seq_ := c.seq_ + 1)
  }

  /** The input that frame sends. */
  function Sending(c: Client, buttons: U8, wants: bool, aim: U16, viewTick: nat, ackTick: nat): Input {
    Input(c.seq_ + 1, buttons, aim, viewTick, ackTick, if wants && !c.dead then ACT_DASH else 0)
  }

  /** The message of the own spawn starts over at the spawn point. */
  function Spawned(c: Client, x: real, y: real): Client {
    c.(pred := Point(x, y, 0.0, 0.0), pending := [], dash := NO_DASH, ready := true, dead := false)
  }

  /** The message of the own death. */
  function Fallen(c: Client): Client {
    c.(pending := [], ready := false, dead := true)
  }

  /** `seqLE`: numbers of 32 bits that may have wrapped. */
  predicate SeqLE(a: nat, b: nat) {
    (b - a) % 0x1_0000_0000 < 0x8000_0000
  }

  /** Less than half the range apart, it compares the numbers before they wrapped. */
  lemma SeqLEIsOrder(a: nat, b: nat)
    requires -0x8000_0000 <= b - a < 0x8000_0000
    ensures SeqLE(a % 0x1_0000_0000, b % 0x1_0000_0000) <==> a <= b
  {
    var (d, m) := (b - a, 0x1_0000_0000);
    assert (b % m - a % m) % m == d % m;
    assert d % m == if d >= 0 then d else d + m;
  }

  function Unacked(ps: seq<Pending>, ack: nat): seq<Pending> {
    if ps != [] && ps[0].seq_ <= ack then Unacked(ps[1..], ack) else ps
  }

  function ReplayAll(root: real -> real, p: Point, ps: seq<Pending>): Point {
    if ps == [] then p
    else
      var last := ps[|ps| - 1];
      StepMove(root, ReplayAll(root, p, ps[..|ps| - 1]), last.buttons, INPUT_DT, last.dashActive)
  }

  /** A snapshot that is not newer than the newest is ignored, and one without the own
      player moves nothing; any other is the new base. */
  function Reconciled(root: real -> real, c: Client, s: Snap): Client {
    if s.tick <= c.newest then c
    else
      match s.at
      case None => c.(newest := s.tick)
      case Some(p) =>
        var rest := Unacked(c.pending, s.ack);
        c.(pred := ReplayAll(root, p, rest), pending := rest, newest := s.tick, ready := true)
  }

  /** A client that just joined: alive, but with nothing to predict from. */
  const JOINED := Client(Point(0.0, 0.0, 0.0, 0.0), NO_DASH, [], 0, -1, false, false)

  class Predictor {
    const root: real -> real
    var pred: Point
    var dash: Dash
    var pending: seq<Pending>
    var seq_: nat
    var newest: int
    var ready: bool
    var dead: bool

    constructor (root: real -> real)
      ensures this.root == root && State() == JOINED
    {
      this.root := root;
      pred, dash, pending, seq_, newest := Point(0.0, 0.0, 0.0, 0.0), NO_DASH, [], 0, -1;
      ready, dead := false, false;
    }

    ghost function State(): Client
      reads this
    {
      Client(pred, dash, pending, seq_, newest, ready, dead)
    }

    method UpdateDash(buttons: U8, wants: bool) returns (active: bool)
      modifies this`dash
      ensures dash == UpdatedDash(old(dash), buttons, wants) && active == (dash.t > 0.0)
    {
      hide Mul, Has;
      if dash.cd > 0.0 {
        dash := dash.(cd := Max(0.0, dash.cd - INPUT_DT));
      }
      if dash.t > 0.0 {
        dash := dash.(t := Max(0.0, dash.t - INPUT_DT));
      }
      var dx, dy := Steer(buttons);
      if wants && dash.cd <= 0.0 && (dx != 0.0 || dy != 0.0) {
        dash := Dash(DASH_COOLDOWN, DASH_DURATION);
      }
      active := dash.t > 0.0;
    }

    method Press(buttons: U8, wants: bool, aim: U16, viewTick: nat, ackTick: nat) returns (sent: Input)
      modifies this
      ensures State() == Pressed(root, old(State()), buttons, wants)
      ensures sent == Sending(old(State()), buttons, wants, aim, viewTick, ackTick)
    {
      hide StepMove, UpdatedDash;
      seq_ := seq_ + 1;
      var actions: U8 := 0;
      if !dead {
        var active := UpdateDash(buttons, wants);
        if wants {
          actions := ACT_DASH;
        }
        if ready {
          pred := StepMove(root, pred, buttons, INPUT_DT, active);
        }
        pending := pending + [Pending(seq_, buttons, active)];
      }
      sent := Input(seq_, buttons, aim, viewTick, ackTick, actions);
    }

    method OnSpawn(x: real, y: real)
      modifies this
      ensures State() == Spawned(old(State()), x, y)
    {
      dead := false;
      pred, pending, dash := Point(x, y, 0.0, 0.0), [], NO_DASH;
      ready := true;
    }

    method OnDeath()
      modifies this
      ensures State() == Fallen(old(State()))
    {
      dead, ready, pending := true, false, [];
    }

    method Reconcile(s: Snap)
      modifies this
      ensures State() == Reconciled(root, old(State()), s)
    {
      hide StepMove;
      if s.tick <= newest {
        return;
      }
      newest := s.tick;
      if s.at.None? {
        return;
      }
      while pending != [] && pending[0].seq_ <= s.ack
        invariant Unacked(pending, s.ack) == Unacked(old(pending), s.ack)
        invariant State() == old(State()).(pending := pending, newest := s.tick)
        decreases |pending|
      {
        pending := pending[1..];
      }
      var p := s.at.value;
      for i := 0 to |pending|
        invariant p == ReplayAll(root, s.at.value, pending[..i])
      {
        assert pending[..i + 1][..i] == pending[..i];
        p := StepMove(root, p, pending[i].buttons, INPUT_DT, pending[i].dashActive);
      }
      assert pending[..|pending|] == pending;
      pred, ready := p, true;
    }
  }

  lemma DashBit(wants: bool)
    ensures Has(if wants then ACT_DASH else 0, ACT_DASH) <==> wants
  {
  }

  // ----- the server's side of the same life

  /** Both ends of one life of one player: the client, everything it sent from the spawn
      on, how much of it reached the server's queue and how much of that was processed, the
      server's movement state, every snapshot ever sent, and how many inputs were sent
      before the client heard of the spawn. */
  datatype Life = Life(
    client: Client, sent: seq<Input>, arrived: nat, done: nat,
    server: MoveState, lastSeq: nat, tick: nat, snaps: seq<Snap>, early: nat, greeted: bool)

  /** Inputs arrive in order and none is dropped; snapshots may be lost, repeated and
      overtaken: any that was ever sent may be delivered at any time. `Greet` is the message
      of the own spawn. */
  datatype Happening =
    | Press(buttons: U8, wants: bool, aim: U16, viewTick: nat, ackTick: nat)
    | Arrive
    | Tick
    | Publish
    | Deliver(k: nat)
    | Greet

  /** How a life starts: at `m` on the server, whose last processed number is `last`, with
      `base` the last number sent that it will not process in this life. */
  datatype Birth = Birth(m: MoveState, base: nat, last: nat, tick: nat)

  function Live(root: real -> real, b: Birth, l: Life, h: Happening): Life {
    match h
    case Press(buttons, wants, aim, viewTick, ackTick) =>
      l.(client := Pressed(root, l.client, buttons, wants),
         sent := l.sent + [Sending(l.client, buttons, wants, aim, viewTick, ackTick)])
    case Arrive => if l.arrived < |l.sent| then l.(arrived := l.arrived + 1) else l
    case Tick =>
      if l.done <= l.arrived <= |l.sent| then
        l.(server := MovedAll(root, l.server, l.sent[l.done..l.arrived]),
           lastSeq := if l.done < l.arrived then l.sent[l.arrived - 1].seq_ else l.lastSeq,
           done := l.arrived, tick := l.tick + 1)
      else l
    case Publish =>
      if l.snaps == [] || l.snaps[|l.snaps| - 1].tick < l.tick
      then l.(snaps := l.snaps + [Snap(l.tick, l.lastSeq, Some(PointOf(l.server)))])
      else l
    case Deliver(k) => if k < |l.snaps| then l.(client := Reconciled(root, l.client, l.snaps[k])) else l
    case Greet =>
      if l.greeted then l
      else l.(client := Spawned(l.client, b.m.x, b.m.y), early := |l.sent|, greeted := true)
  }

  function LiveAll(root: real -> real, b: Birth, l: Life, hs: seq<Happening>): Life
    decreases |hs|
  {
    if hs == [] then l else LiveAll(root, b, Live(root, b, l, hs[0]), hs[1..])
  }

  lemma {:induction false} LiveConcat(root: real -> real, b: Birth, l: Life, hs: seq<Happening>, hs': seq<Happening>)
    ensures LiveAll(root, b, l, hs + hs') == LiveAll(root, b, LiveAll(root, b, l, hs), hs')
    decreases |hs|
  {
    hide Live;
    if hs == [] {
      assert hs + hs' == hs';
    } else {
      LiveConcat(root, b, Live(root, b, l, hs[0]), hs[1..], hs');
      assert (hs + hs')[1..] == hs[1..] + hs';
    }
  }

  // ----- births

  /** Inputs numbered from `base + 1` on. */
  ghost predicate Numbered(inputs: seq<Input>, base: nat) {
    forall k :: 0 <= k < |inputs| ==> inputs[k].seq_ == base + k + 1
  }

  ghost predicate Ascending(snaps: seq<Snap>) {
    forall i, j :: 0 <= i < j < |snaps| ==> snaps[i].tick < snaps[j].tick && snaps[i].ack <= snaps[j].ack
  }

  /** A spawn on the server, whatever the client was doing: inputs `sent` before it hears of
      the spawn are under way, and snapshots from before the spawn may still come in. */
  ghost predicate Reborn(b: Birth, l: Life) {
    && b.last <= b.base
    && l == Life(l.client, l.sent, 0, 0, b.m, b.last, b.tick, l.snaps, 0, false)
    && l.client.seq_ == b.base + |l.sent| && Numbered(l.sent, b.base) && l.client.newest < b.tick
    && Ascending(l.snaps) && (forall i :: 0 <= i < |l.snaps| ==> l.snaps[i].tick < b.tick && l.snaps[i].ack <= b.last)
  }

  /** The first join: nobody announces it, and the client starts from nothing. */
  ghost predicate FirstJoin(b: Birth, l: Life) {
    b.base == b.last == 0 && l == Life(JOINED, [], 0, 0, b.m, 0, b.tick, [], 0, true)
  }

  // ----- what holds throughout

  /** The server's state once the first `k` inputs are processed. */
  function At(root: real -> real, b: Birth, l: Life, k: nat): MoveState
    requires k <= |l.sent|
  {
    MovedAll(root, b.m, l.sent[..k])
  }

  /** How many of this life's inputs an acknowledgement covers. */
  function Covered(b: Birth, ack: nat): nat {
    if ack <= b.base then 0 else ack - b.base
  }

  function Later(i: nat, j: nat): nat {
    if i < j then j else i
  }

  ghost predicate ServerOk(root: real -> real, b: Birth, l: Life) {
    && b.last <= b.base && b.tick <= l.tick
    && l.done <= l.arrived <= |l.sent| && l.early <= |l.sent|
    && Numbered(l.sent, b.base) && l.client.seq_ == b.base + |l.sent|
    && l.server == At(root, b, l, l.done) && l.lastSeq == if l.done == 0 then b.last else b.base + l.done
  }

  /** A snapshot of this life shows the state at the input it acknowledges. */
  ghost predicate SnapOk(root: real -> real, b: Birth, l: Life, s: Snap) {
    && s.ack <= l.lastSeq && s.tick <= l.tick && Covered(b, s.ack) <= |l.sent|
    && (s.tick >= b.tick ==> s.at == Some(PointOf(At(root, b, l, Covered(b, s.ack)))))
  }

  ghost predicate SnapsOk(root: real -> real, b: Birth, l: Life) {
    && Ascending(l.snaps) && l.client.newest <= l.tick
    && forall i :: 0 <= i < |l.snaps| ==> SnapOk(root, b, l, l.snaps[i])
  }

  /** The flag kept with input `k` is the one the server will find. */
  ghost predicate PendingOk(root: real -> real, b: Birth, l: Life, k: nat, p: Pending)
    requires k < |l.sent|
  {
    && p.seq_ == l.sent[k].seq_ && p.buttons == l.sent[k].buttons
    && (p.dashActive <==> At(root, b, l, k + 1).dashT > 0.0)
  }

  /** `ps` are the inputs after the first `first`, each with the right flag. */
  ghost predicate PendingRun(root: real -> real, b: Birth, l: Life, first: nat, ps: seq<Pending>) {
    first + |ps| <= |l.sent| && forall i :: 0 <= i < |ps| ==> PendingOk(root, b, l, first + i, ps[i])
  }

  /** Timers that are over with the next frame. */
  ghost predicate Spent(cd: real, t: real) {
    0.0 <= cd <= INPUT_DT && 0.0 <= t <= INPUT_DT
  }

  /** Timers that will be the same from the next frame on. */
  ghost predicate Synced(d: Dash, m: MoveState) {
    d == Dash(m.dashCD, m.dashT) || (Spent(d.cd, d.t) && Spent(m.dashCD, m.dashT))
  }

  /** What the client remembers is what it sent and was not yet told about. */
  ghost predicate ClientOk(root: real -> real, b: Birth, l: Life) {
    var (n, c) := (|l.sent|, l.client);
    && l.greeted && !c.dead && |c.pending| <= n && l.early <= n - |c.pending| <= Later(l.done, l.early) <= n
    && PendingRun(root, b, l, n - |c.pending|, c.pending) && Synced(c.dash, At(root, b, l, n))
  }

  /** No snapshot that can still be accepted acknowledges less than was forgotten. */
  ghost predicate AcksOk(b: Birth, l: Life) {
    forall i :: 0 <= i < |l.snaps| && l.snaps[i].tick > l.client.newest ==>
      Later(Covered(b, l.snaps[i].ack), l.early) >= |l.sent| - |l.client.pending|
  }

  ghost predicate Tracks(root: real -> real, b: Birth, l: Life) {
    ClientOk(root, b, l) && AcksOk(b, l)
  }

  /** From a birth on: the server is right, and once the client knows and the early inputs
      left no dash running, the client keeps track. */
  ghost predicate Inv(root: real -> real, b: Birth, l: Life) {
    && ServerOk(root, b, l) && SnapsOk(root, b, l)
    && (l.greeted && Dashless(root, b, l) ==> Tracks(root, b, l))
  }

  ghost predicate Dashless(root: real -> real, b: Birth, l: Life)
    requires l.early <= |l.sent|
  {
    var m := At(root, b, l, l.early);
    Spent(m.dashCD, m.dashT)
  }

  /** The browser's step with the right flag is the server's step. */
  lemma StepMoveMirrors(root: real -> real, m: MoveState, inp: Input)
    ensures var m' := Moved(root, m, inp, INPUT_DT);
      StepMove(root, PointOf(m), inp.buttons, INPUT_DT, m'.dashT > 0.0) == PointOf(m')
  {
    hide Advance, Mul, Direction, DashTimers;
  }

  /** And its timers are the server's timers. */
  lemma DashMirrors(root: real -> real, d: Dash, m: MoveState, inp: Input, wants: bool)
    requires Synced(d, m) && (wants <==> Has(inp.actions, ACT_DASH))
    ensures var m' := Moved(root, m, inp, INPUT_DT);
      UpdatedDash(d, inp.buttons, wants) == Dash(m'.dashCD, m'.dashT)
  {
    hide Advance, Mul, Direction;
  }

  /** Replaying what is pending from input `k` on, over the state after input `k`. */
  lemma {:induction false} ReplayReaches(root: real -> real, b: Birth, l: Life, k: nat, ps: seq<Pending>)
    requires PendingRun(root, b, l, k, ps)
    ensures ReplayAll(root, PointOf(At(root, b, l, k)), ps) == PointOf(At(root, b, l, k + |ps|))
    decreases |ps|
  {
    hide StepMove, Moved;
    if ps != [] {
      var n := |ps| - 1;
      ReplayReaches(root, b, l, k, ps[..n]);
      assert l.sent[..k + n + 1][..k + n] == l.sent[..k + n];
      StepMoveMirrors(root, At(root, b, l, k + n), l.sent[k + n]);
      assert PendingOk(root, b, l, k + n, ps[n]);
    }
  }

  lemma {:induction false} UnackedIsSuffix(ps: seq<Pending>, ack: nat, first: nat, drop: nat)
    requires drop <= |ps| && forall i :: 0 <= i < |ps| ==> ps[i].seq_ == first + i
    requires if drop == 0 then ack < first else ack + 1 == first + drop
    ensures Unacked(ps, ack) == ps[drop..]
    decreases drop
  {
    if drop > 0 {
      UnackedIsSuffix(ps[1..], ack, first + 1, drop - 1);
      assert ps[1..][drop - 1..] == ps[drop..];
    }
  }

  lemma PendingSeqs(root: real -> real, b: Birth, l: Life, a: nat, ps: seq<Pending>)
    requires ServerOk(root, b, l) && PendingRun(root, b, l, a, ps)
    ensures forall i :: 0 <= i < |ps| ==> ps[i].seq_ == b.base + a + 1 + i
  {
    hide At;
    forall i | 0 <= i < |ps|
      ensures ps[i].seq_ == b.base + a + 1 + i
    {
      assert PendingOk(root, b, l, a + i, ps[i]);
    }
  }

  lemma PendingTail(root: real -> real, b: Birth, l: Life, a: nat, c: nat, ps: seq<Pending>)
    requires PendingRun(root, b, l, a, ps) && a <= c <= a + |ps|
    ensures PendingRun(root, b, l, c, ps[c - a..])
  {
    hide At;
    var rest := ps[c - a..];
    forall i | 0 <= i < |rest|
      ensures PendingOk(root, b, l, c + i, rest[i])
    {
      assert PendingOk(root, b, l, a + (c - a + i), ps[c - a + i]);
    }
  }

  /** What is left pending after an acknowledgement. */
  lemma Resumed(root: real -> real, b: Birth, l: Life, s: Snap)
    requires ServerOk(root, b, l) && ClientOk(root, b, l) && SnapOk(root, b, l, s)
    requires Later(Covered(b, s.ack), l.early) >= |l.sent| - |l.client.pending|
    ensures var (rest, c) := (Unacked(l.client.pending, s.ack), Later(Covered(b, s.ack), l.early));
      |rest| == |l.sent| - c && PendingRun(root, b, l, c, rest)
  {
    hide MovedAll, At, Unacked, PendingRun;
    var a := |l.sent| - |l.client.pending|;
    var c := Later(Covered(b, s.ack), l.early);
    PendingSeqs(root, b, l, a, l.client.pending);
    PendingTail(root, b, l, a, c, l.client.pending);
    UnackedIsSuffix(l.client.pending, s.ack, b.base + a + 1, c - a);
  }

  // ----- every happening keeps it

  lemma SentGrows(root: real -> real, b: Birth, l: Life, l': Life, k: nat)
    requires k <= |l.sent| <= |l'.sent| && l.sent == l'.sent[..|l.sent|]
    ensures At(root, b, l', k) == At(root, b, l, k)
  {
    assert l'.sent[..k] == l.sent[..k];
  }

  /** Pending inputs and snapshots stay right when more is sent. */
  lemma PendingStays(root: real -> real, b: Birth, l: Life, l': Life, first: nat, ps: seq<Pending>)
    requires |l.sent| <= |l'.sent| && l.sent == l'.sent[..|l.sent|] && PendingRun(root, b, l, first, ps)
    ensures PendingRun(root, b, l', first, ps)
  {
    hide MovedAll;
    forall i | 0 <= i < |ps|
      ensures PendingOk(root, b, l', first + i, ps[i])
    {
      assert PendingOk(root, b, l, first + i, ps[i]);
      SentGrows(root, b, l, l', first + i + 1);
    }
  }

  lemma SnapsStay(root: real -> real, b: Birth, l: Life, l': Life)
    requires SnapsOk(root, b, l) && |l.sent| <= |l'.sent| && l.sent == l'.sent[..|l.sent|] && l'.snaps == l.snaps
    requires l'.lastSeq >= l.lastSeq && l'.tick >= l.tick && l'.client.newest <= l'.tick
    ensures SnapsOk(root, b, l')
  {
    hide At, Ascending;
    forall i | 0 <= i < |l'.snaps|
      ensures SnapOk(root, b, l', l'.snaps[i])
    {
      assert SnapOk(root, b, l, l.snaps[i]);
      SentGrows(root, b, l, l', Covered(b, l.snaps[i].ack));
    }
  }

  function InputOf(l: Life, h: Happening): Input
    requires h.Press?
  {
    Sending(l.client, h.buttons, h.wants, h.aim, h.viewTick, h.ackTick)
  }

  lemma Pressing(root: real -> real, b: Birth, l: Life, h: Happening)
    requires h.Press? && !l.client.dead
    ensures var (l', d) := (Live(root, b, l, h), UpdatedDash(l.client.dash, h.buttons, h.wants));
      && l' == l.(client := l'.client, sent := l.sent + [InputOf(l, h)])
      && l'.client == l.client.(pred := l'.client.pred, dash := d, seq_ := l.client.seq_ + 1,
                                pending := l.client.pending + [Pending(l.client.seq_ + 1, h.buttons, d.t > 0.0)])
      && l'.client.pred ==
         if l.client.ready then StepMove(root, l.client.pred, h.buttons, INPUT_DT, d.t > 0.0) else l.client.pred
  {
    hide StepMove, UpdatedDash;
  }

  lemma NextAt(root: real -> real, b: Birth, l: Life, l': Life, inp: Input)
    requires l'.sent == l.sent + [inp]
    ensures At(root, b, l', |l'.sent|) == Moved(root, At(root, b, l, |l.sent|), inp, INPUT_DT)
  {
    var n := |l.sent|;
    assert l.sent[..n] == l.sent && l'.sent[..n + 1] == l'.sent && l'.sent[..n] == l.sent;
    hide Moved;
  }

  /** The new input's flag is right, and the timers stay in step. */
  lemma PressFlag(root: real -> real, b: Birth, l: Life, h: Happening)
    requires h.Press? && ServerOk(root, b, l) && !l.client.dead && Synced(l.client.dash, At(root, b, l, |l.sent|))
    ensures var (l', d) := (Live(root, b, l, h), UpdatedDash(l.client.dash, h.buttons, h.wants));
      && |l'.sent| == |l.sent| + 1
      && PendingOk(root, b, l', |l.sent|, Pending(l.client.seq_ + 1, h.buttons, d.t > 0.0))
      && Synced(l'.client.dash, At(root, b, l', |l'.sent|))
  {
    Pressing(root, b, l, h);
    var l' := Live(root, b, l, h);
    NextAt(root, b, l, l', InputOf(l, h));
    DashBit(h.wants);
    DashMirrors(root, l.client.dash, At(root, b, l, |l.sent|), InputOf(l, h), h.wants);
    hide Live, Moved, At, UpdatedDash, Has;
  }

  lemma PressTracks(root: real -> real, b: Birth, l: Life, h: Happening)
    requires h.Press? && ServerOk(root, b, l) && ClientOk(root, b, l)
    ensures ClientOk(root, b, Live(root, b, l, h))
  {
    var first := |l.sent| - |l.client.pending|;
    assert first >= 0 && PendingRun(root, b, l, first, l.client.pending);
    assert !l.client.dead && Synced(l.client.dash, At(root, b, l, |l.sent|));
    assert l.greeted && l.early <= first <= Later(l.done, l.early) <= |l.sent|;
    hide *;
    var (l', d) := (Live(root, b, l, h), UpdatedDash(l.client.dash, h.buttons, h.wants));
    Pressing(root, b, l, h);
    PressFlag(root, b, l, h);
    var p := Pending(l.client.seq_ + 1, h.buttons, d.t > 0.0);
    PressedRun(root, b, l, l', first, l.client.pending, p, InputOf(l, h));
    ClientParts(root, b, l', first);
  }

  lemma ClientParts(root: real -> real, b: Birth, l: Life, first: nat)
    requires l.greeted && !l.client.dead && first + |l.client.pending| == |l.sent|
    requires l.early <= first <= Later(l.done, l.early) <= |l.sent|
    requires PendingRun(root, b, l, first, l.client.pending) && Synced(l.client.dash, At(root, b, l, |l.sent|))
    ensures ClientOk(root, b, l)
  {
    hide PendingRun, Synced, At;
  }

  lemma PressedRun(
    root: real -> real, b: Birth, l: Life, l': Life, first: nat, ps: seq<Pending>, p: Pending, inp: Input)
    requires PendingRun(root, b, l, first, ps) && first + |ps| == |l.sent| && l'.sent == l.sent + [inp]
    requires PendingOk(root, b, l', |l.sent|, p)
    ensures PendingRun(root, b, l', first, ps + [p])
  {
    assert l'.sent[..|l.sent|] == l.sent;
    hide PendingRun, PendingOk, At;
    PendingStays(root, b, l, l', first, ps);
    PendingMore(root, b, l', first, ps, p);
  }

  lemma PendingMore(root: real -> real, b: Birth, l: Life, first: nat, ps: seq<Pending>, p: Pending)
    requires PendingRun(root, b, l, first, ps) && first + |ps| < |l.sent| && PendingOk(root, b, l, first + |ps|, p)
    ensures PendingRun(root, b, l, first, ps + [p])
  {
    hide PendingOk;
  }

  lemma PressKeeps(root: real -> real, b: Birth, l: Life, h: Happening)
    requires h.Press? && Inv(root, b, l)
    ensures Inv(root, b, Live(root, b, l, h))
  {
    var l' := Live(root, b, l, h);
    PressedFields(root, l.client, h.buttons, h.wants);
    SentGrows(root, b, l, l', l.done);
    SentGrows(root, b, l, l', l.early);
    hide MovedAll, At, Pressed, ClientOk, SnapOk;
    SnapsStay(root, b, l, l');
    if l.greeted && Dashless(root, b, l) {
      PressTracks(root, b, l, h);
      AlivePressed(root, b, l, h);
    }
  }

  lemma PressedFields(root: real -> real, c: Client, buttons: U8, wants: bool)
    ensures var c' := Pressed(root, c, buttons, wants);
      c'.seq_ == c.seq_ + 1 && c'.newest == c.newest && (!c.dead ==> |c'.pending| == |c.pending| + 1)
  {
    hide StepMove, UpdatedDash;
  }

  lemma AlivePressed(root: real -> real, b: Birth, l: Life, h: Happening)
    requires h.Press? && ClientOk(root, b, l) && AcksOk(b, l)
    ensures AcksOk(b, Live(root, b, l, h))
  {
    hide StepMove, UpdatedDash, PendingRun, Synced, At;
  }

  lemma TickServer(root: real -> real, b: Birth, l: Life)
    requires ServerOk(root, b, l)
    ensures var l' := Live(root, b, l, Tick);
      ServerOk(root, b, l') && l'.lastSeq >= l.lastSeq
      && l' == l.(server := l'.server, lastSeq := l'.lastSeq, done := l.arrived, tick := l.tick + 1)
  {
    hide MovedAll;
    MovedConcat(root, b.m, l.sent[..l.done], l.sent[l.done..l.arrived]);
    assert l.sent[..l.done] + l.sent[l.done..l.arrived] == l.sent[..l.arrived];
  }

  lemma SameClient(root: real -> real, b: Birth, l: Life, l': Life)
    requires l'.client == l.client && l'.sent == l.sent && l'.early == l.early && l'.greeted == l.greeted
    requires l.done <= l'.done <= |l'.sent| && l.early <= |l.sent|
    ensures ClientOk(root, b, l) ==> ClientOk(root, b, l')
    ensures Dashless(root, b, l') == Dashless(root, b, l)
  {
    hide MovedAll, PendingRun;
    var first := |l.sent| - |l.client.pending|;
    assert l'.sent[..|l.sent|] == l.sent;
    if first >= 0 && PendingRun(root, b, l, first, l.client.pending) {
      PendingStays(root, b, l, l', first, l.client.pending);
    }
  }

  lemma TickKeeps(root: real -> real, b: Birth, l: Life)
    requires Inv(root, b, l)
    ensures Inv(root, b, Live(root, b, l, Tick))
  {
    var l' := Live(root, b, l, Tick);
    TickServer(root, b, l);
    hide Live, ClientOk, Dashless, SnapOk, At, Ascending;
    assert l'.sent[..|l.sent|] == l.sent;
    SameClient(root, b, l, l');
    SnapsStay(root, b, l, l');
  }

  lemma ArriveKeeps(root: real -> real, b: Birth, l: Life)
    requires Inv(root, b, l)
    ensures Inv(root, b, Live(root, b, l, Arrive))
  {
    var l' := Live(root, b, l, Arrive);
    assert l'.sent[..|l.sent|] == l.sent;
    SameClient(root, b, l, l');
    SnapsStay(root, b, l, l');
    hide ClientOk, Dashless, SnapOk, Ascending, MovedAll;
  }

  lemma Publishing(root: real -> real, b: Birth, l: Life)
    requires ServerOk(root, b, l)
    ensures var (l', s) := (Live(root, b, l, Publish), Snap(l.tick, l.lastSeq, Some(PointOf(l.server))));
      l' == l || (l' == l.(snaps := l.snaps + [s]) && (l.snaps == [] || l.snaps[|l.snaps| - 1].tick < s.tick))
    ensures SnapOk(root, b, l, Snap(l.tick, l.lastSeq, Some(PointOf(l.server))))
  {
    hide MovedAll, Numbered;
  }

  /** A new snapshot acknowledges what was processed. */
  lemma PublishKeeps(root: real -> real, b: Birth, l: Life)
    requires Inv(root, b, l)
    ensures Inv(root, b, Live(root, b, l, Publish))
  {
    var l' := Live(root, b, l, Publish);
    var s := Snap(l.tick, l.lastSeq, Some(PointOf(l.server)));
    Publishing(root, b, l);
    hide Live, At, Numbered, SnapOk, SnapsOk, ClientOk, Dashless, AcksOk;
    if l' != l {
      PublishedSnaps(root, b, l, l', s);
      SameClient(root, b, l, l');
      assert l'.sent[..|l.sent|] == l.sent;
      SentGrows(root, b, l, l', l.done);
      if l.greeted && Dashless(root, b, l) {
        PublishedBound(root, b, l);
        PublishedAcks(b, l, l', s);
      }
    }
  }

  lemma PublishedBound(root: real -> real, b: Birth, l: Life)
    requires ServerOk(root, b, l) && ClientOk(root, b, l)
    ensures Later(Covered(b, l.lastSeq), l.early) >= |l.sent| - |l.client.pending|
  {
    hide At, Numbered, PendingRun, Synced;
  }

  lemma PublishedAcks(b: Birth, l: Life, l': Life, s: Snap)
    requires l' == l.(snaps := l.snaps + [s]) && AcksOk(b, l)
    requires Later(Covered(b, s.ack), l.early) >= |l.sent| - |l.client.pending|
    ensures AcksOk(b, l')
  {
  }

  lemma PublishedSnaps(root: real -> real, b: Birth, l: Life, l': Life, s: Snap)
    requires SnapsOk(root, b, l) && SnapOk(root, b, l, s) && s.ack == l.lastSeq && l' == l.(snaps := l.snaps + [s])
    requires l.snaps == [] || l.snaps[|l.snaps| - 1].tick < s.tick
    ensures SnapsOk(root, b, l')
  {
    hide At;
    assert l'.sent[..|l.sent|] == l.sent;
    forall i | 0 <= i < |l.snaps|
      ensures SnapOk(root, b, l', l.snaps[i])
    {
      assert SnapOk(root, b, l, l.snaps[i]);
      SentGrows(root, b, l, l', Covered(b, l.snaps[i].ack));
    }
    SentGrows(root, b, l, l', Covered(b, s.ack));
  }

  lemma Delivered(root: real -> real, b: Birth, l: Life, k: nat)
    ensures Live(root, b, l, Deliver(k)) ==
      if k < |l.snaps| && l.snaps[k].tick > l.client.newest then
        var (s, c) := (l.snaps[k], l.client);
        match s.at
        case None => l.(client := c.(newest := s.tick))
        case Some(p) =>
          var rest := Unacked(c.pending, s.ack);
          l.(client := c.(pred := ReplayAll(root, p, rest), pending := rest, newest := s.tick, ready := true))
      else l
  {
    hide Unacked, ReplayAll;
  }

  /** A delivered snapshot drops what it acknowledges. */
  lemma DeliverTracks(root: real -> real, b: Birth, l: Life, k: nat)
    requires ServerOk(root, b, l) && SnapsOk(root, b, l) && Tracks(root, b, l)
    ensures Tracks(root, b, Live(root, b, l, Deliver(k)))
  {
    Delivered(root, b, l, k);
    hide At, Unacked, ReplayAll, Live, PendingRun, SnapOk;
    if k < |l.snaps| && l.snaps[k].tick > l.client.newest && l.snaps[k].at.Some? {
      var (s, l') := (l.snaps[k], Live(root, b, l, Deliver(k)));
      assert SnapOk(root, b, l, s);
      Resumed(root, b, l, s);
      CoveredMonotone(b, l.snaps);
      AckedDone(root, b, l, s);
      assert l'.sent[..|l.sent|] == l.sent;
      PendingStays(root, b, l, l', |l.sent| - |l'.client.pending|, l'.client.pending);
      SyncedStays(root, b, l, l');
    } else {
      SameSent(root, b, l, Live(root, b, l, Deliver(k)));
    }
  }

  lemma SyncedStays(root: real -> real, b: Birth, l: Life, l': Life)
    requires l'.sent == l.sent
    ensures At(root, b, l', |l'.sent|) == At(root, b, l, |l.sent|)
  {
  }

  lemma SameSent(root: real -> real, b: Birth, l: Life, l': Life)
    requires ClientOk(root, b, l) && l' == l.(client := l'.client) && l'.client == l.client.(newest := l'.client.newest)
    ensures ClientOk(root, b, l')
  {
    hide MovedAll, PendingRun;
    assert l'.sent[..|l.sent|] == l.sent;
    PendingStays(root, b, l, l', |l.sent| - |l.client.pending|, l.client.pending);
  }

  lemma AckedDone(root: real -> real, b: Birth, l: Life, s: Snap)
    requires ServerOk(root, b, l) && SnapOk(root, b, l, s)
    ensures Covered(b, s.ack) <= l.done
  {
    hide At;
  }

  lemma CoveredMonotone(b: Birth, snaps: seq<Snap>)
    requires Ascending(snaps)
    ensures forall i, j :: 0 <= i < |snaps| && 0 <= j < |snaps| && snaps[i].tick < snaps[j].tick ==>
      Covered(b, snaps[i].ack) <= Covered(b, snaps[j].ack)
  {
  }

  lemma DeliverKeeps(root: real -> real, b: Birth, l: Life, k: nat)
    requires Inv(root, b, l)
    ensures Inv(root, b, Live(root, b, l, Deliver(k)))
  {
    Delivered(root, b, l, k);
    var l' := Live(root, b, l, Deliver(k));
    assert l'.sent[..|l.sent|] == l.sent;
    SentGrows(root, b, l, l', l.done);
    SentGrows(root, b, l, l', l.early);
    NewestStays(root, b, l, k);
    hide At, Unacked, ReplayAll, Live, Tracks, SnapOk, Ascending;
    SnapsStay(root, b, l, l');
    if l.greeted && Dashless(root, b, l) {
      DeliverTracks(root, b, l, k);
    }
  }

  lemma NewestStays(root: real -> real, b: Birth, l: Life, k: nat)
    requires SnapsOk(root, b, l)
    ensures Live(root, b, l, Deliver(k)).client.newest <= l.tick
  {
    hide At, Unacked, ReplayAll;
    if k < |l.snaps| {
      assert SnapOk(root, b, l, l.snaps[k]);
    }
  }

  lemma GreetKeeps(root: real -> real, b: Birth, l: Life)
    requires Inv(root, b, l)
    ensures Inv(root, b, Live(root, b, l, Greet))
  {
    var l' := Live(root, b, l, Greet);
    SentGrows(root, b, l, l', l.done);
    hide MovedAll, SnapOk, Ascending;
    assert l'.sent[..|l.sent|] == l.sent;
    SnapsStay(root, b, l, l');
  }

  lemma StepKeeps(root: real -> real, b: Birth, l: Life, h: Happening)
    requires Inv(root, b, l)
    ensures Inv(root, b, Live(root, b, l, h))
  {
    hide Inv, Live;
    match h
    case Press(_, _, _, _, _) => PressKeeps(root, b, l, h);
    case Arrive => ArriveKeeps(root, b, l);
    case Tick => TickKeeps(root, b, l);
    case Publish => PublishKeeps(root, b, l);
    case Deliver(k) => DeliverKeeps(root, b, l, k);
    case Greet => GreetKeeps(root, b, l);
  }

  lemma {:induction false} LifeKeeps(root: real -> real, b: Birth, l: Life, hs: seq<Happening>)
    requires Inv(root, b, l)
    ensures Inv(root, b, LiveAll(root, b, l, hs))
    decreases |hs|
  {
    hide Inv, Live;
    if hs != [] {
      StepKeeps(root, b, l, hs[0]);
      LifeKeeps(root, b, Live(root, b, l, hs[0]), hs[1..]);
    }
  }

  lemma BornOk(root: real -> real, b: Birth, l: Life)
    requires Reborn(b, l) || FirstJoin(b, l)
    ensures Inv(root, b, l)
  {
    hide Moved;
    assert l.sent[..0] == [];
  }

  // ----- when the prediction is right

  /** After `k` inputs the server's player is where it is after all early ones. */
  ghost predicate Calm(root: real -> real, b: Birth, l: Life, k: nat)
    requires k <= |l.sent| && l.early <= |l.sent|
  {
    k < l.early ==> PointOf(At(root, b, l, k)) == PointOf(At(root, b, l, l.early))
  }

  ghost predicate Exact(root: real -> real, b: Birth, l: Life) {
    l.client.pred == PointOf(MovedAll(root, b.m, l.sent))
  }

  /** A snapshot that predicts right when it is accepted. */
  ghost predicate Shows(root: real -> real, b: Birth, l: Life, s: Snap)
    requires l.early <= |l.sent|
  {
    s.at.Some? ==>
      var c := Covered(b, s.ack);
      c <= |l.sent| && s.at.value == PointOf(At(root, b, l, c)) && Calm(root, b, l, c)
  }

  /** The prediction is right, and so is everything that may still come in. */
  ghost predicate Sound(root: real -> real, b: Birth, l: Life) {
    && l.early <= |l.sent| && l.greeted && Dashless(root, b, l)
    && (l.client.ready ==> Exact(root, b, l))
    && (forall i :: 0 <= i < |l.snaps| && l.snaps[i].tick > l.client.newest ==> Shows(root, b, l, l.snaps[i]))
    && (forall k :: l.done <= k < l.early ==> Calm(root, b, l, k))
  }

  lemma ShowsStays(root: real -> real, b: Birth, l: Life, l': Life, s: Snap)
    requires |l.sent| <= |l'.sent| && l.sent == l'.sent[..|l.sent|] && l'.early == l.early <= |l.sent|
    ensures Shows(root, b, l, s) ==> Shows(root, b, l', s)
    ensures Dashless(root, b, l') == Dashless(root, b, l)
  {
    SentGrows(root, b, l, l', l.early);
    if Covered(b, s.ack) <= |l.sent| {
      SentGrows(root, b, l, l', Covered(b, s.ack));
    }
    hide At;
  }

  /** Sending more, processing more or forgetting some snapshots harms nothing. */
  lemma SoundStays(root: real -> real, b: Birth, l: Life, l': Life)
    requires Sound(root, b, l) && |l.sent| <= |l'.sent| && l.sent == l'.sent[..|l.sent|]
    requires l'.early == l.early && l'.greeted && l'.snaps == l.snaps && l'.done >= l.done
    requires l'.client.newest >= l.client.newest && (l'.client.ready ==> Exact(root, b, l'))
    ensures Sound(root, b, l')
  {
    hide Shows, Dashless, Exact, At;
    forall i | 0 <= i < |l'.snaps| && l'.snaps[i].tick > l'.client.newest
      ensures Shows(root, b, l', l'.snaps[i])
    {
      ShowsStays(root, b, l, l', l.snaps[i]);
    }
    ShowsStays(root, b, l, l', Snap(0, 0, None));
    forall k | l'.done <= k < l'.early
      ensures Calm(root, b, l', k)
    {
      assert Calm(root, b, l, k);
      SentGrows(root, b, l, l', k);
      SentGrows(root, b, l, l', l.early);
    }
  }

  lemma PressSound(root: real -> real, b: Birth, l: Life, h: Happening)
    requires h.Press? && Inv(root, b, l) && Sound(root, b, l)
    ensures Sound(root, b, Live(root, b, l, h))
  {
    assert ServerOk(root, b, l) && ClientOk(root, b, l);
    assert Synced(l.client.dash, At(root, b, l, |l.sent|)) && !l.client.dead;
    assert l.client.ready ==> Exact(root, b, l);
    assert l.sent[..|l.sent|] == l.sent;
    hide *;
    var l' := Live(root, b, l, h);
    Pressing(root, b, l, h);
    assert l'.sent[..|l.sent|] == l.sent;
    PressExact(root, b, l, h);
    SoundMeans(root, b, l);
    SoundStays(root, b, l, l');
  }

  lemma SoundMeans(root: real -> real, b: Birth, l: Life)
    requires Sound(root, b, l)
    ensures l.greeted && (l.client.ready ==> Exact(root, b, l))
  {
  }

  lemma PressExact(root: real -> real, b: Birth, l: Life, h: Happening)
    requires h.Press? && !l.client.dead && Synced(l.client.dash, At(root, b, l, |l.sent|))
    ensures l.client.ready && Exact(root, b, l) ==> Exact(root, b, Live(root, b, l, h))
  {
    var (m, inp) := (At(root, b, l, |l.sent|), InputOf(l, h));
    Pressing(root, b, l, h);
    NextAt(root, b, l, Live(root, b, l, h), inp);
    DashBit(h.wants);
    DashMirrors(root, l.client.dash, m, inp, h.wants);
    StepMoveMirrors(root, m, inp);
    var l' := Live(root, b, l, h);
    assert l.sent[..|l.sent|] == l.sent && l'.sent[..|l'.sent|] == l'.sent;
    hide Live, StepMove, Moved, MovedAll, UpdatedDash, Has;
  }

  lemma ShownAt(root: real -> real, b: Birth, l: Life, s: Snap)
    requires l.early <= |l.sent| && s.at.Some? && Shows(root, b, l, s)
    ensures var c := Later(Covered(b, s.ack), l.early); c <= |l.sent| && s.at.value == PointOf(At(root, b, l, c))
  {
    hide At, PointOf, Covered;
  }

  lemma ReplayIsRight(root: real -> real, b: Birth, l: Life, s: Snap)
    requires ServerOk(root, b, l) && ClientOk(root, b, l) && SnapOk(root, b, l, s)
    requires l.early <= |l.sent| && s.at.Some? && Shows(root, b, l, s)
    requires Later(Covered(b, s.ack), l.early) >= |l.sent| - |l.client.pending|
    ensures ReplayAll(root, s.at.value, Unacked(l.client.pending, s.ack)) == PointOf(At(root, b, l, |l.sent|))
  {
    hide *;
    ShownAt(root, b, l, s);
    Resumed(root, b, l, s);
    ReplayReaches(root, b, l, Later(Covered(b, s.ack), l.early), Unacked(l.client.pending, s.ack));
  }

  /** An accepted snapshot that shows the right thing leads to the right prediction. */
  lemma AcceptedIsExact(root: real -> real, b: Birth, l: Life, k: nat)
    requires Inv(root, b, l) && l.greeted && Dashless(root, b, l)
    requires k < |l.snaps| && l.snaps[k].tick > l.client.newest && l.snaps[k].at.Some? && Shows(root, b, l, l.snaps[k])
    ensures var l' := Live(root, b, l, Deliver(k));
      l' == l.(client := l'.client) && l'.client.ready && l'.client.newest == l.snaps[k].tick && Exact(root, b, l')
  {
    Delivered(root, b, l, k);
    assert SnapOk(root, b, l, l.snaps[k]);
    assert l.sent[..|l.sent|] == l.sent;
    hide Unacked, ReplayAll, Live, SnapOk, MovedAll, ServerOk, ClientOk, Shows, Dashless, Ascending;
    ReplayIsRight(root, b, l, l.snaps[k]);
  }

  lemma DeliverSound(root: real -> real, b: Birth, l: Life, k: nat)
    requires Inv(root, b, l) && Sound(root, b, l)
    ensures Sound(root, b, Live(root, b, l, Deliver(k)))
    ensures l.client.ready ==> Live(root, b, l, Deliver(k)).client.pred == l.client.pred
  {
    Delivered(root, b, l, k);
    var l' := Live(root, b, l, Deliver(k));
    assert l'.sent[..|l.sent|] == l.sent;
    hide Inv, Live, Unacked, ReplayAll, Shows, Dashless, Calm, MovedAll;
    if k < |l.snaps| && l.snaps[k].tick > l.client.newest && l.snaps[k].at.Some? {
      AcceptedIsExact(root, b, l, k);
    }
    hide Sound;
    SoundStays(root, b, l, l');
  }

  lemma PublishSound(root: real -> real, b: Birth, l: Life)
    requires Inv(root, b, l) && Sound(root, b, l)
    ensures Sound(root, b, Live(root, b, l, Publish))
  {
    var l' := Live(root, b, l, Publish);
    var s := Snap(l.tick, l.lastSeq, Some(PointOf(l.server)));
    hide MovedAll, SnapsOk, Tracks, Dashless;
    assert Calm(root, b, l, l.done);
    assert Shows(root, b, l, s);
    assert l'.sent[..|l.sent|] == l.sent;
    ShowsStays(root, b, l, l', s);
    hide Shows, Exact, Calm;
    PublishedSound(root, b, l, l');
  }

  lemma PublishedSound(root: real -> real, b: Birth, l: Life, l': Life)
    requires Sound(root, b, l) && l' == l.(snaps := l'.snaps)
    requires l'.snaps == l.snaps
      || (|l'.snaps| == |l.snaps| + 1 && l'.snaps[..|l.snaps|] == l.snaps && Shows(root, b, l', l'.snaps[|l.snaps|]))
    ensures Sound(root, b, l')
  {
    hide At, MovedAll;
    assert l'.sent[..|l.sent|] == l.sent;
    forall i | 0 <= i < |l.snaps|
      ensures Shows(root, b, l, l.snaps[i]) ==> Shows(root, b, l', l'.snaps[i])
    {
      assert l'.snaps[i] == l'.snaps[..|l.snaps|][i];
      ShowsStays(root, b, l, l', l.snaps[i]);
    }
    ShowsStays(root, b, l, l', Snap(0, 0, None));
    forall k | l.done <= k < l.early
      ensures Calm(root, b, l', k)
    {
      assert Calm(root, b, l, k);
      SentGrows(root, b, l, l', k);
      SentGrows(root, b, l, l', l.early);
    }
  }

  lemma StepSound(root: real -> real, b: Birth, l: Life, h: Happening)
    requires Inv(root, b, l) && Sound(root, b, l)
    ensures Sound(root, b, Live(root, b, l, h))
  {
    match h
    case Press(_, _, _, _, _) => PressSound(root, b, l, h);
    case Deliver(k) => DeliverSound(root, b, l, k);
    case Publish => PublishSound(root, b, l);
    case _ => QuietSound(root, b, l, h);
  }

  lemma QuietSound(root: real -> real, b: Birth, l: Life, h: Happening)
    requires (h.Arrive? || h.Tick? || h.Greet?) && Inv(root, b, l) && Sound(root, b, l)
    ensures Sound(root, b, Live(root, b, l, h))
  {
    var l' := Live(root, b, l, h);
    assert l'.sent[..|l.sent|] == l.sent;
    SoundMeans(root, b, l);
    hide Sound, MovedAll, SnapsOk, Tracks, Dashless;
    SoundStays(root, b, l, l');
  }

  lemma {:induction false} LifeSound(root: real -> real, b: Birth, l: Life, hs: seq<Happening>)
    requires Inv(root, b, l) && Sound(root, b, l)
    ensures var l' := LiveAll(root, b, l, hs); Inv(root, b, l') && Sound(root, b, l')
    decreases |hs|
  {
    hide Inv, Sound, Live;
    if hs != [] {
      StepKeeps(root, b, l, hs[0]);
      StepSound(root, b, l, hs[0]);
      LifeSound(root, b, Live(root, b, l, hs[0]), hs[1..]);
    }
  }

  // ----- from the first covering snapshot on

  lemma {:induction false} ReadyStays(root: real -> real, b: Birth, l: Life, hs: seq<Happening>)
    requires l.greeted && l.client.ready
    ensures LiveAll(root, b, l, hs).client.ready && LiveAll(root, b, l, hs).greeted
    decreases |hs|
  {
    hide StepMove, Unacked, ReplayAll, MovedAll;
    if hs != [] {
      ReadyStays(root, b, Live(root, b, l, hs[0]), hs[1..]);
    }
  }

  /** Snapshot `k` is of this life, still counts, and acknowledges every early input. */
  ghost predicate Settles(b: Birth, l: Life, k: nat) {
    && k < |l.snaps| && l.snaps[k].tick > l.client.newest
    && l.snaps[k].tick >= b.tick && Covered(b, l.snaps[k].ack) >= l.early
  }

  lemma SettledSound(root: real -> real, b: Birth, l: Life, k: nat)
    requires Inv(root, b, l) && l.greeted && Dashless(root, b, l) && Settles(b, l, k)
    ensures var l' := Live(root, b, l, Deliver(k)); Inv(root, b, l') && Sound(root, b, l') && l'.client.ready
  {
    OwnShows(root, b, l, k);
    CoveredMonotone(b, l.snaps);
    assert SnapOk(root, b, l, l.snaps[k]);
    AckedDone(root, b, l, l.snaps[k]);
    DeliverKeeps(root, b, l, k);
    hide Live, Dashless, Exact, Shows, At, Covered;
    AcceptedIsExact(root, b, l, k);
    var l' := Live(root, b, l, Deliver(k));
    assert l'.sent[..|l.sent|] == l.sent;
    ShowsStays(root, b, l, l', l.snaps[k]);
    forall i | 0 <= i < |l'.snaps| && l'.snaps[i].tick > l'.client.newest
      ensures Shows(root, b, l', l'.snaps[i])
    {
      OwnShows(root, b, l, i);
      ShowsStays(root, b, l, l', l.snaps[i]);
    }
  }

  /** A snapshot of this life that covers the early inputs shows the right thing. */
  lemma OwnShows(root: real -> real, b: Birth, l: Life, i: nat)
    requires SnapsOk(root, b, l) && l.early <= |l.sent| && i < |l.snaps|
    requires l.snaps[i].tick >= b.tick && Covered(b, l.snaps[i].ack) >= l.early
    ensures Shows(root, b, l, l.snaps[i]) && l.snaps[i].at.Some?
  {
    assert SnapOk(root, b, l, l.snaps[i]);
    hide At;
  }

  /** From the first accepted snapshot on that covers what was sent before the client heard
      of its spawn, the prediction is exact, and no snapshot moves it; unless one of those
      inputs left a dash running. */
  lemma SettledIsExact(root: real -> real, b: Birth, l0: Life, hs: seq<Happening>, k: nat, hs': seq<Happening>)
    requires Reborn(b, l0) || FirstJoin(b, l0)
    requires var l := LiveAll(root, b, l0, hs);
      l.greeted && l.early <= |l.sent| && Dashless(root, b, l) && Settles(b, l, k)
    ensures var l' := LiveAll(root, b, Live(root, b, LiveAll(root, b, l0, hs), Deliver(k)), hs');
      && Exact(root, b, l') && (forall j: nat :: Live(root, b, l', Deliver(j)).client.pred == l'.client.pred)
      && (l'.done == |l'.sent| ==> l'.client.pred == PointOf(l'.server))
  {
    BornOk(root, b, l0);
    LifeKeeps(root, b, l0, hs);
    var l := LiveAll(root, b, l0, hs);
    var l1 := Live(root, b, l, Deliver(k));
    hide *;
    SettledSound(root, b, l, k);
    LifeSound(root, b, l1, hs');
    SoundMeans(root, b, l1);
    ReadyStays(root, b, l1, hs');
    StaysPut(root, b, LiveAll(root, b, l1, hs'));
  }

  lemma StaysPut(root: real -> real, b: Birth, l: Life)
    requires Inv(root, b, l) && Sound(root, b, l) && l.client.ready
    ensures Exact(root, b, l) && (forall j: nat :: Live(root, b, l, Deliver(j)).client.pred == l.client.pred)
    ensures l.done == |l.sent| ==> l.client.pred == PointOf(l.server)
  {
    assert l.sent[..|l.sent|] == l.sent;
    forall j: nat
      ensures Live(root, b, l, Deliver(j)).client.pred == l.client.pred
    {
      DeliverSound(root, b, l, j);
    }
    hide Live, MovedAll, Shows, Dashless, SnapsOk, Tracks;
  }

  // ----- a dash left running

  lemma {:induction false} TimersNotNegative(root: real -> real, m: MoveState, inputs: seq<Input>)
    requires m.dashCD >= 0.0 && m.dashT >= 0.0
    ensures MovedAll(root, m, inputs).dashCD >= 0.0 && MovedAll(root, m, inputs).dashT >= 0.0
  {
    hide Advance, Mul, Has, Direction;
    if inputs != [] {
      TimersNotNegative(root, m, inputs[..|inputs| - 1]);
    }
  }

  /** Since it heard of its spawn the client has sent nothing. */
  ghost predicate Silent(l: Life) {
    l.greeted && |l.sent| == l.early && l.client.pending == [] && l.client.dash == NO_DASH && !l.client.dead
  }

  /** A client that sent nothing since is silent. */
  lemma {:induction false} SilenceIsSilent(root: real -> real, b: Birth, l: Life, hs: seq<Happening>)
    requires l.early <= |l.sent| && (l.greeted && |l.sent| == l.early ==> Silent(l))
    ensures var l' := LiveAll(root, b, l, hs);
      l'.early <= |l'.sent| && (l'.greeted && |l'.sent| == l'.early ==> Silent(l'))
    decreases |hs|
  {
    hide StepMove, MovedAll, ReplayAll, UpdatedDash;
    if hs != [] {
      SilenceIsSilent(root, b, Live(root, b, l, hs[0]), hs[1..]);
    }
  }

  /** A frame to the right: with the dash key when only the cooldown is left, without it
      when the dash itself still runs. */
  function Betraying(m: MoveState): Happening {
    Press(BTN_RIGHT, m.dashT <= INPUT_DT, 0, 0, 0)
  }

  /** If early inputs left a dash running, that frame is predicted at the wrong speed. */
  lemma DashMisleads(root: real -> real, b: Birth, l: Life)
    requires Silent(l) && l.client.ready
    requires var m := At(root, b, l, |l.sent|); m.dashCD >= 0.0 && m.dashT >= 0.0 && !Spent(m.dashCD, m.dashT)
    ensures !Exact(root, b, Live(root, b, l, Betraying(At(root, b, l, |l.sent|))))
  {
    var m := At(root, b, l, |l.sent|);
    var h := Betraying(m);
    var (l', inp, d) := (Live(root, b, l, h), InputOf(l, h), UpdatedDash(NO_DASH, BTN_RIGHT, h.wants));
    Pressing(root, b, l, h);
    NextAt(root, b, l, l', inp);
    assert l'.sent[..|l'.sent|] == l'.sent;
    RightMoves();
    DashBit(h.wants);
    WrongSpeed(root, l.client.pred, m, inp, h.wants);
    hide Live, StepMove, Moved, MovedAll, UpdatedDash, Has, Moving;
  }

  lemma WrongSpeed(root: real -> real, p: Point, m: MoveState, inp: Input, wants: bool)
    requires inp.buttons == BTN_RIGHT && (Has(inp.actions, ACT_DASH) <==> wants) && wants == (m.dashT <= INPUT_DT)
    requires m.dashCD >= 0.0 && m.dashT >= 0.0 && !Spent(m.dashCD, m.dashT)
    ensures var d := UpdatedDash(NO_DASH, BTN_RIGHT, wants);
      StepMove(root, p, BTN_RIGHT, INPUT_DT, d.t > 0.0) != PointOf(Moved(root, m, inp, INPUT_DT))
  {
    RightIsRight();
    MulUnits(PLAYER_SPEED);
    MulUnits(PLAYER_SPEED * DASH_SPEED_MULT);
    hide Advance, Mul, Has, Direction;
  }

  lemma RightIsRight()
    ensures Direction(BTN_RIGHT) == (1.0, 0.0)
  {
  }

  /** From a covering snapshot on, the prediction of a client that sent nothing since it
      heard of its spawn is exact in every run, exactly when no dash was left running. */
  lemma SettledIsExactIff(root: real -> real, b: Birth, l0: Life, hs: seq<Happening>, k: nat)
    requires Reborn(b, l0) && Standing(b.m)
    requires var l := LiveAll(root, b, l0, hs); l.greeted && l.early == |l.sent| && Settles(b, l, k)
    ensures var l := LiveAll(root, b, l0, hs);
      Dashless(root, b, l)
      <==> forall hs' :: Exact(root, b, LiveAll(root, b, Live(root, b, l, Deliver(k)), hs'))
  {
    var l := LiveAll(root, b, l0, hs);
    var l1 := Live(root, b, l, Deliver(k));
    if Dashless(root, b, l) {
      forall hs'
        ensures Exact(root, b, LiveAll(root, b, l1, hs'))
      {
        SettledIsExact(root, b, l0, hs, k, hs');
      }
    } else {
      BornOk(root, b, l0);
      LifeKeeps(root, b, l0, hs);
      SilenceIsSilent(root, b, l0, hs);
      SilentDelivery(root, b, l, k);
      TimersNotNegative(root, b.m, l.sent);
      assert l.sent[..|l.sent|] == l.sent;
      hide LiveAll, Live, MovedAll, Inv, Settles, Silent, Exact;
      var h := Betraying(At(root, b, l1, |l1.sent|));
      DashMisleads(root, b, l1);
      OneHappening(root, b, l1, h);
    }
  }

  lemma OneHappening(root: real -> real, b: Birth, l: Life, h: Happening)
    ensures LiveAll(root, b, l, [h]) == Live(root, b, l, h)
  {
    hide Live;
    assert [h][1..] == [];
  }

  lemma SilentDelivery(root: real -> real, b: Birth, l: Life, k: nat)
    requires Silent(l) && Settles(b, l, k) && SnapsOk(root, b, l)
    ensures var l' := Live(root, b, l, Deliver(k)); Silent(l') && l'.client.ready && l'.sent == l.sent
  {
    Delivered(root, b, l, k);
    assert SnapOk(root, b, l, l.snaps[k]);
    hide Live, At, ReplayAll;
  }

  /** An exact prediction is the server's state moved on by the inputs still under way. */
  lemma PredictionAhead(root: real -> real, b: Birth, l: Life)
    requires ServerOk(root, b, l) && Exact(root, b, l)
    ensures l.client.pred == PointOf(MovedAll(root, l.server, l.sent[l.done..]))
  {
    hide MovedAll, Numbered;
    MovedConcat(root, b.m, l.sent[..l.done], l.sent[l.done..]);
    assert l.sent[..l.done] + l.sent[l.done..] == l.sent;
  }

  lemma FirstJoinSound(root: real -> real, b: Birth, l: Life)
    requires FirstJoin(b, l) && Spent(b.m.dashCD, b.m.dashT)
    ensures Inv(root, b, l) && Sound(root, b, l)
  {
    BornOk(root, b, l);
    assert l.sent[..0] == [];
  }

  /** On a first join the prediction is exact as soon as there is one. */
  lemma FirstJoinIsExact(root: real -> real, b: Birth, l0: Life, hs: seq<Happening>)
    requires FirstJoin(b, l0) && Spent(b.m.dashCD, b.m.dashT)
    ensures var l := LiveAll(root, b, l0, hs);
      l.client.ready ==>
        Exact(root, b, l) && forall j: nat :: Live(root, b, l, Deliver(j)).client.pred == l.client.pred
  {
    hide *;
    FirstJoinSound(root, b, l0);
    LifeSound(root, b, l0, hs);
    var l := LiveAll(root, b, l0, hs);
    if l.client.ready {
      StaysPut(root, b, l);
    }
  }

  /** Inputs without a dash request, which is all a dead client sends, leave no dash. */
  lemma {:induction false} NoRequestNoDash(root: real -> real, m: MoveState, inputs: seq<Input>)
    requires m.dashCD == m.dashT == 0.0
    requires forall i :: 0 <= i < |inputs| ==> !Has(inputs[i].actions, ACT_DASH)
    ensures MovedAll(root, m, inputs).dashCD == MovedAll(root, m, inputs).dashT == 0.0
  {
    hide Advance, Mul, Has, Direction;
    if inputs != [] {
      NoRequestNoDash(root, m, inputs[..|inputs| - 1]);
    }
  }

  // ----- from the spawn on

  /** Every spawn point: a legal place, at rest, no dash. */
  ghost predicate Standing(m: MoveState) {
    Legal(m.x, m.y) && m.vx == m.vy == m.dashCD == m.dashT == 0.0
  }

  predicate Still(inputs: seq<Input>) {
    forall i :: 0 <= i < |inputs| ==> !Moving(inputs[i].buttons)
  }

  lemma StaysStanding(root: real -> real, m: MoveState, inp: Input)
    requires Standing(m) && !Moving(inp.buttons)
    ensures Moved(root, m, inp, INPUT_DT) == m
  {
    NobodyPushed(root, m.x, m.y, PLAYER_RADIUS, WALLS);
    MulUnits(INPUT_DT);
    MulUnits(PLAYER_SPEED);
    hide Mul, ResolvedBy, Direction, Has, ClearOf;
  }

  lemma {:induction false} StillStands(root: real -> real, m: MoveState, inputs: seq<Input>)
    requires Standing(m) && Still(inputs)
    ensures MovedAll(root, m, inputs) == m
  {
    hide Standing, Moving, Moved;
    if inputs != [] {
      StillStands(root, m, inputs[..|inputs| - 1]);
      StaysStanding(root, m, inputs[|inputs| - 1]);
    }
  }

  lemma MovingMoves(root: real -> real, m: MoveState, inp: Input)
    requires Moving(inp.buttons)
    ensures var m' := Moved(root, m, inp, INPUT_DT); m'.vx != 0.0 || m'.vy != 0.0
  {
    var (dx, dy) := Direction(inp.buttons);
    var speed := Speed(Moved(root, m, inp, INPUT_DT).dashT > 0.0);
    hide Advance, Direction, Has;
    assert dx != 0.0 ==> dx * speed != 0.0;
    assert dy != 0.0 ==> dy * speed != 0.0;
  }

  /** Nothing is sent, and the spawn not heard of. */
  predicate Quiet(hs: seq<Happening>) {
    forall h :: h in hs ==> !h.Press? && !h.Greet?
  }

  /** `pre` happens, the client hears of its spawn, and `post` happens. */
  function Story(root: real -> real, b: Birth, l: Life, pre: seq<Happening>, post: seq<Happening>): Life {
    LiveAll(root, b, Live(root, b, LiveAll(root, b, l, pre), Greet), post)
  }

  /** From the moment the client hears of its spawn, the prediction is exact, come what may. */
  ghost predicate AlwaysExact(root: real -> real, b: Birth, l: Life) {
    forall pre, post :: Quiet(pre) ==> Exact(root, b, Story(root, b, l, pre, post))
  }

  /** A snapshot of an earlier life that no longer counts, or does not show the player
      anywhere but on its spawn point. */
  ghost predicate Harmless(b: Birth, l: Life, s: Snap) {
    s.tick <= l.client.newest || s.at.None? || s.at == Some(PointOf(b.m))
  }

  ghost predicate AllHarmless(b: Birth, l: Life) {
    forall i :: 0 <= i < |l.snaps| ==> l.snaps[i].tick >= b.tick || Harmless(b, l, l.snaps[i])
  }

  lemma {:induction false} QuietKeeps(root: real -> real, b: Birth, l: Life, hs: seq<Happening>)
    requires Quiet(hs) && AllHarmless(b, l) && Inv(root, b, l) && !l.greeted
    ensures var l' := LiveAll(root, b, l, hs);
      Inv(root, b, l') && AllHarmless(b, l') && l'.sent == l.sent && !l'.greeted
    decreases |hs|
  {
    hide Inv;
    if hs != [] {
      assert hs[0] in hs;
      StepKeeps(root, b, l, hs[0]);
      QuietStep(root, b, l, hs[0]);
      QuietKeeps(root, b, Live(root, b, l, hs[0]), hs[1..]);
    }
  }

  lemma QuietStep(root: real -> real, b: Birth, l: Life, h: Happening)
    requires !h.Press? && !h.Greet? && AllHarmless(b, l) && Inv(root, b, l)
    ensures var l' := Live(root, b, l, h); AllHarmless(b, l') && l'.sent == l.sent && l'.greeted == l.greeted
  {
    hide MovedAll, Unacked, ReplayAll, SnapsOk, Tracks, At;
  }

  lemma StillAt(root: real -> real, b: Birth, l: Life)
    requires Standing(b.m) && Still(l.sent)
    ensures forall k :: 0 <= k <= |l.sent| ==> At(root, b, l, k) == b.m
  {
    forall k | 0 <= k <= |l.sent|
      ensures At(root, b, l, k) == b.m
    {
      StillStands(root, b.m, l.sent[..k]);
    }
  }

  lemma GreetedExact(root: real -> real, b: Birth, l: Life)
    requires Standing(b.m) && Still(l.sent) && !l.greeted
    ensures var l' := Live(root, b, l, Greet);
      && l'.early == |l'.sent| && Exact(root, b, l') && Dashless(root, b, l')
      && forall k :: 0 <= k <= |l'.sent| ==> Calm(root, b, l', k)
  {
    var l' := Live(root, b, l, Greet);
    StillAt(root, b, l');
    assert l.sent[..|l.sent|] == l.sent;
    assert MovedAll(root, b.m, l'.sent) == At(root, b, l', |l'.sent|);
    hide MovedAll, Legal, At;
  }

  lemma GreetedSound(root: real -> real, b: Birth, l: Life)
    requires Standing(b.m) && Still(l.sent) && AllHarmless(b, l) && Inv(root, b, l) && !l.greeted
    ensures Sound(root, b, Live(root, b, l, Greet)) && Live(root, b, l, Greet).client.ready
  {
    var l' := Live(root, b, l, Greet);
    assert l'.sent == l.sent && l'.snaps == l.snaps && l'.greeted && l'.client.ready;
    assert l'.client.newest == l.client.newest && l'.done == l.done;
    assert SnapsOk(root, b, l) && l.done <= |l.sent|;
    hide Live, MovedAll, Tracks, Standing, ServerOk, SnapsOk, At, Exact, Dashless, Calm, Shows, AllHarmless;
    GreetedExact(root, b, l);
    StillAt(root, b, l');
    forall i | 0 <= i < |l.snaps| && l.snaps[i].tick > l'.client.newest
      ensures Shows(root, b, l', l.snaps[i])
    {
      GreetedShows(root, b, l, l', i);
    }
  }

  lemma GreetedShows(root: real -> real, b: Birth, l: Life, l': Life, i: nat)
    requires SnapsOk(root, b, l) && AllHarmless(b, l) && i < |l.snaps| && l.snaps[i].tick > l.client.newest
    requires l'.sent == l.sent && l'.early == |l.sent| && forall k :: 0 <= k <= |l.sent| ==> At(root, b, l', k) == b.m
    ensures Shows(root, b, l', l.snaps[i])
  {
    assert SnapOk(root, b, l, l.snaps[i]);
    assert l.sent[..|l'.sent|] == l'.sent;
    SentGrows(root, b, l', l, Covered(b, l.snaps[i].ack));
    hide At;
  }

  lemma {:induction false} Arrivals(root: real -> real, b: Birth, l: Life, k: nat)
    requires l.arrived + k <= |l.sent|
    ensures LiveAll(root, b, l, seq(k, _ => Arrive)) == l.(arrived := l.arrived + k)
    decreases k
  {
    if k > 0 {
      var hs := seq(k, _ => Arrive);
      assert hs[1..] == seq(k - 1, _ => Arrive);
      Arrivals(root, b, l.(arrived := l.arrived + 1), k - 1);
    }
  }

  const REVEAL: seq<Happening> := [Tick, Publish]

  /** The client heard of its spawn, then the first `k` early inputs arrive and are
      processed, and a snapshot shows the result. */
  lemma Revealed(root: real -> real, b: Birth, l: Life, k: nat)
    requires Reborn(b, l) && k <= |l.sent|
    ensures var (l', n) := (Story(root, b, l, [], seq(k, _ => Arrive) + REVEAL), |l.snaps|);
      && l'.sent == l.sent && l'.client == Spawned(l.client, b.m.x, b.m.y)
      && |l'.snaps| == n + 1 && l'.snaps[n].tick > l'.client.newest
      && l'.snaps[n].at == Some(PointOf(At(root, b, l, k)))
  {
    var l1 := Live(root, b, l, Greet);
    Arrivals(root, b, l1, k);
    LiveConcat(root, b, l1, seq(k, _ => Arrive), REVEAL);
    var l2 := l1.(arrived := k);
    assert l.sent[0..k] == l.sent[..k];
    hide MovedAll;
    assert REVEAL[1..] == [Publish];
    assert LiveAll(root, b, l2, REVEAL) == Live(root, b, Live(root, b, l2, Tick), Publish);
  }

  /** Delivering it predicts the state after those `k` inputs. */
  lemma RevealedPred(root: real -> real, b: Birth, l: Life, k: nat)
    requires Reborn(b, l) && k <= |l.sent|
    ensures var l' := Story(root, b, l, [], seq(k, _ => Arrive) + REVEAL + [Deliver(|l.snaps|)]);
      l'.sent == l.sent && l'.client.pred == PointOf(At(root, b, l, k))
  {
    Revealed(root, b, l, k);
    var l1 := Live(root, b, l, Greet);
    var l2 := Story(root, b, l, [], seq(k, _ => Arrive) + REVEAL);
    LiveConcat(root, b, l1, seq(k, _ => Arrive) + REVEAL, [Deliver(|l.snaps|)]);
    hide Live, MovedAll;
    Delivered(root, b, l2, |l.snaps|);
    assert [Deliver(|l.snaps|)][1..] == [];
    assert LiveAll(root, b, l2, [Deliver(|l.snaps|)]) == Live(root, b, l2, Deliver(|l.snaps|));
  }

  /** An old snapshot accepted right after the spawn. */
  lemma StalePred(root: real -> real, b: Birth, l: Life, i: nat)
    requires Reborn(b, l) && i < |l.snaps| && l.snaps[i].tick > l.client.newest && l.snaps[i].at.Some?
    ensures var l' := Story(root, b, l, [], [Deliver(i)]); l'.sent == l.sent && l'.client.pred == l.snaps[i].at.value
  {
    var l1 := Live(root, b, l, Greet);
    hide MovedAll, StepMove;
    Delivered(root, b, l1, i);
    assert [Deliver(i)][1..] == [];
    assert LiveAll(root, b, l1, [Deliver(i)]) == Live(root, b, l1, Deliver(i));
    assert Unacked([], l.snaps[i].ack) == [] && ReplayAll(root, l.snaps[i].at.value, []) == l.snaps[i].at.value;
  }

  lemma AlwaysMeans(root: real -> real, b: Birth, l: Life, post: seq<Happening>)
    requires AlwaysExact(root, b, l)
    ensures Exact(root, b, Story(root, b, l, [], post))
  {
    assert Quiet([]);
    hide Exact, Story;
  }

  /** If prediction is always exact, no early input moves the player. */
  lemma AlwaysIsStill(root: real -> real, b: Birth, l: Life)
    requires Reborn(b, l) && Standing(b.m) && AlwaysExact(root, b, l)
    ensures Still(l.sent)
  {
    forall i | 0 <= i < |l.sent|
      ensures !Moving(l.sent[i].buttons)
    {
      SameWhereverRevealed(root, b, l, i + 1);
      assert l.sent[..i + 1][..i] == l.sent[..i];
      hide Moved, Moving, Legal, AlwaysExact;
      if Moving(l.sent[i].buttons) {
        MovingMoves(root, At(root, b, l, i), l.sent[i]);
      }
    }
  }

  lemma SameWhereverRevealed(root: real -> real, b: Birth, l: Life, k: nat)
    requires Reborn(b, l) && AlwaysExact(root, b, l) && k <= |l.sent|
    ensures PointOf(At(root, b, l, k)) == PointOf(b.m)
  {
    assert l.sent[..0] == [];
    hide AlwaysExact, Reborn, Story;
    RevealedPred(root, b, l, k);
    AlwaysMeans(root, b, l, seq(k, _ => Arrive) + REVEAL + [Deliver(|l.snaps|)]);
    RevealedPred(root, b, l, 0);
    AlwaysMeans(root, b, l, seq(0, _ => Arrive) + REVEAL + [Deliver(|l.snaps|)]);
  }

  lemma AlwaysIsHarmless(root: real -> real, b: Birth, l: Life)
    requires Reborn(b, l) && AlwaysExact(root, b, l)
    ensures AllHarmless(b, l)
  {
    forall i | 0 <= i < |l.snaps|
      ensures l.snaps[i].tick >= b.tick || Harmless(b, l, l.snaps[i])
    {
      if l.snaps[i].tick > l.client.newest && l.snaps[i].at.Some? {
        hide AlwaysExact, Reborn, Story;
        StalePred(root, b, l, i);
        AlwaysMeans(root, b, l, [Deliver(i)]);
        SameWhereverRevealed(root, b, l, 0);
        RevealedPred(root, b, l, 0);
        AlwaysMeans(root, b, l, seq(0, _ => Arrive) + REVEAL + [Deliver(|l.snaps|)]);
      }
    }
  }

  /** After a respawn the prediction is exact in every run, whatever the batching of ticks
      and the fate of snapshots, exactly when no input sent before the client heard of its
      spawn holds a direction, and no snapshot of an earlier life can still come in that
      shows the player elsewhere. */
  lemma PredictionIsExactIff(root: real -> real, b: Birth, l: Life)
    requires Reborn(b, l) && Standing(b.m)
    ensures AlwaysExact(root, b, l) <==> Still(l.sent) && AllHarmless(b, l)
  {
    if AlwaysExact(root, b, l) {
      AlwaysIsStill(root, b, l);
      AlwaysIsHarmless(root, b, l);
    }
    if Still(l.sent) && AllHarmless(b, l) {
      StillIsAlways(root, b, l);
    }
  }

  lemma StillIsAlways(root: real -> real, b: Birth, l: Life)
    requires Reborn(b, l) && Standing(b.m) && Still(l.sent) && AllHarmless(b, l)
    ensures AlwaysExact(root, b, l)
  {
    BornOk(root, b, l);
    hide Reborn, Inv, Standing, Still, AllHarmless, Live, LiveAll, Quiet;
    forall pre, post | Quiet(pre)
      ensures Exact(root, b, Story(root, b, l, pre, post))
    {
      StillStory(root, b, l, pre, post);
    }
  }

  lemma StillStory(root: real -> real, b: Birth, l: Life, pre: seq<Happening>, post: seq<Happening>)
    requires Inv(root, b, l) && !l.greeted && Standing(b.m) && Still(l.sent) && AllHarmless(b, l) && Quiet(pre)
    ensures Exact(root, b, Story(root, b, l, pre, post))
  {
    hide Inv, Standing, Still, AllHarmless, Live, LiveAll, Quiet, Exact, Sound;
    QuietKeeps(root, b, l, pre);
    var l1 := LiveAll(root, b, l, pre);
    GreetKeeps(root, b, l1);
    GreetedSound(root, b, l1);
    var l2 := Live(root, b, l1, Greet);
    LifeSound(root, b, l2, post);
    SoundMeans(root, b, l2);
    ReadyStays(root, b, l2, post);
    SoundMeans(root, b, LiveAll(root, b, l2, post));
  }

  /** The shortest failing run: one frame to the right is under way when the client hears of
      its spawn. The snapshot that shows it moves the prediction. */
  lemma EarlyInputCorrects(root: real -> real, b: Birth, l: Life)
    requires Reborn(b, l) && Standing(b.m) && l.snaps == [] && |l.sent| == 1 && l.sent[0].buttons == BTN_RIGHT
    ensures var l' := Story(root, b, l, [], [Arrive, Tick, Publish]);
      l'.client.pred == PointOf(b.m) && Live(root, b, l', Deliver(0)).client.pred != l'.client.pred
  {
    assert seq(1, _ => Arrive) + REVEAL == [Arrive, Tick, Publish];
    assert l.sent[..1][..0] == [];
    Revealed(root, b, l, 1);
    RightMoves();
    MovingMoves(root, b.m, l.sent[0]);
    hide Moved, Live, Legal, Story, Moving;
    Delivered(root, b, Story(root, b, l, [], [Arrive, Tick, Publish]), 0);
  }

  lemma RightMoves()
    ensures Moving(BTN_RIGHT)
  {
  }
}

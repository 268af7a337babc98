/** Record and replay, internal/game/replay.go: the accepted joins, leaves and inputs of a
    session, stamped with their tick, rebuild the final world exactly. */
module Replay {
  import opened Wrappers
  import opened Arena
  import opened Ids
  import R = Rules
  import opened WorldInvariant
  import opened W = World
  import opened Sessions

  datatype ReplayLog = ReplayLog(
    seed: int, tickRate: int, teamMode: bool, hillMode: bool, domMode: bool, ctfMode: bool,
    ticks: nat, events: seq<Logged>)

  function ModesOf(log: ReplayLog): Modes {
    Modes(log.teamMode, log.hillMode, log.domMode, log.ctfMode)
  }

  /** The length of a tick in seconds: whole nanoseconds. */
  function TickDt(tickRate: int): real
    requires tickRate > 0
  {
    (1_000_000_000 / tickRate) as real / 1_000_000_000.0
  }

  // ----- recording

  /** What the recorder writes for one action: only what was accepted. */
  function Entry(env: Env, w: State, a: Action): seq<Logged> {
    match a
    case Join(name) => if R.AddPlayer(env, w, name).1.Some? then [Joined(w.tick, name)] else []
    case Leave(id) => if id in w.players then [Left(w.tick, id)] else []
    case Enqueue(id, inp) => if R.AcceptsInput(w, id, inp) then [Queued(w.tick, id, inp)] else []
    case Tick => []
  }

  ghost function LogOf(env: Env, w: State, acts: seq<Action>, dt: real): seq<Logged>
    decreases |acts|
  {
    if acts == [] then [] else Entry(env, w, acts[0]) + LogOf(env, Act(env, w, acts[0], dt), acts[1..], dt)
  }

  // ----- replaying

  /** One recorded event; a join the original accepted but this world refuses is an error. */
  function ApplyLogged(env: Env, w: State, e: Logged): Option<State> {
    match e
    case Joined(_, name) =>
      var (w', r) := R.AddPlayer(env, w, name);
      if r.Some? then Some(w') else None
    case Left(_, id) => Some(R.RemovePlayer(w, id))
    case Queued(_, id, inp) => Some(R.EnqueueInput(w, id, inp))
  }

  /** Replaying `events` from tick `t`: those stamped `t` before the step of tick `t`, and
      whatever is left after the last step. */
  ghost function Replayed(env: Env, w: State, events: seq<Logged>, t: nat, ticks: nat, dt: real): Option<State>
    requires t <= ticks
    decreases ticks - t + |events|
  {
    if events != [] && (t == ticks || events[0].tick == t) then
      var w' := ApplyLogged(env, w, events[0]);
      if w'.None? then None else Replayed(env, w'.value, events[1..], t, ticks, dt)
    else if t < ticks then Replayed(env, R.Step(env, w, dt), events, t + 1, ticks, dt)
    else Some(w)
  }

  /** An action that is not recorded and is not a tick changes nothing: dropped inputs,
      unknown leavers and refused joins. */
  lemma UnrecordedIsNoOp(env: Env, w: State, a: Action, dt: real)
    requires WorldOk(w) && !a.Tick? && Entry(env, w, a) == []
    ensures Act(env, w, a, dt) == w
  {
    hide R.SpawnPoint, R.SmallerTeam, PlayersOk, OrderOk, ShotsOk, Alloc, Taken, Following;
    AllocIsExact(w);
  }

  /** A recorded action is replayed as itself. */
  lemma RecordedIsReplayed(env: Env, w: State, a: Action, dt: real)
    requires Entry(env, w, a) != []
    ensures |Entry(env, w, a)| == 1 && Entry(env, w, a)[0].tick == w.tick && !a.Tick?
    ensures ApplyLogged(env, w, Entry(env, w, a)[0]) == Some(Act(env, w, a, dt))
  {
    hide R.AddPlayer, R.RemovePlayer, R.EnqueueInput;
  }

  /** Nothing later in a log is stamped before the tick it starts at. */
  lemma {:induction false} StampsAscend(env: Env, w: State, acts: seq<Action>, dt: real)
    requires EnvOk(env) && WorldOk(w)
    ensures forall e :: e in LogOf(env, w, acts, dt) ==> e.tick >= w.tick
    decreases |acts|
  {
    if acts != [] {
      ActOk(env, w, acts[0], dt);
      StampsAscend(env, Act(env, w, acts[0], dt), acts[1..], dt);
      hide WorldOk, EnvOk, Act, R.AddPlayer;
    }
  }

  lemma {:induction false} ReplayFrom(env: Env, w: State, acts: seq<Action>, dt: real)
    requires EnvOk(env) && WorldOk(w)
    requires Run(env, w, acts, dt).tick >= w.tick
    ensures var final := Run(env, w, acts, dt);
      Replayed(env, w, LogOf(env, w, acts, dt), w.tick, final.tick, dt) == Some(final)
    decreases |acts|
  {
    hide WorldOk, EnvOk, Act, Entry, ApplyLogged, R.Step;
    if acts != [] {
      var (a, rest) := (acts[0], acts[1..]);
      var w' := Act(env, w, a, dt);
      ActOk(env, w, a, dt);
      RunOk(env, w', rest, dt);
      ReplayFrom(env, w', rest, dt);
      var later := LogOf(env, w', rest, dt);
      if a.Tick? {
        TickIsUnrecorded(env, w, dt);
        StampsAscend(env, w', rest, dt);
        assert [] + later == later;
        assert later != [] ==> later[0] in later;
      } else if Entry(env, w, a) == [] {
        UnrecordedIsNoOp(env, w, a, dt);
        assert [] + later == later;
      } else {
        RecordedIsReplayed(env, w, a, dt);
        assert (Entry(env, w, a) + later)[1..] == later;
      }
    }
  }

  lemma TickIsUnrecorded(env: Env, w: State, dt: real)
    ensures Entry(env, w, Tick) == [] && Act(env, w, Tick, dt) == R.Step(env, w, dt)
  {
  }

  /** The log of any session, replayed against a fresh world with the same seed and modes,
      ends in the very same world, joins, leaves and inputs after the last tick included. */
  lemma ReplayIsExact(env: Env, seed: int, m: Modes, acts: seq<Action>, dt: real)
    requires EnvOk(env)
    ensures var w := R.NewWorld(seed, m);
      var final := Run(env, w, acts, dt);
      Replayed(env, w, LogOf(env, w, acts, dt), 0, final.tick, dt) == Some(final)
  {
    var w := R.NewWorld(seed, m);
    NewWorldOk(seed, m);
    RunOk(env, w, acts, dt);
    ReplayFrom(env, w, acts, dt);
  }

  ghost function Outcome(env: Env, log: ReplayLog): Option<State> {
    if log.tickRate <= 0 then None
    else Replayed(env, R.NewWorld(log.seed, ModesOf(log)), log.events, 0, log.ticks, TickDt(log.tickRate))
  }

  // ----- the recorder

  /** What a room that records from the start has recorded when it stops. */
  ghost function Recording(env: Env, seed: int, m: Modes, acts: seq<Action>, tickRate: int): ReplayLog
    requires tickRate > 0
  {
    var (w, dt) := (R.NewWorld(seed, m), TickDt(tickRate));
    ReplayLog(seed, tickRate, m.team, m.hill, m.dom, m.ctf, Run(env, w, acts, dt).tick, LogOf(env, w, acts, dt))
  }

  lemma RecordingReplays(env: Env, seed: int, m: Modes, acts: seq<Action>, tickRate: int)
    requires EnvOk(env) && tickRate > 0
    ensures var final := Run(env, R.NewWorld(seed, m), acts, TickDt(tickRate));
      Outcome(env, Recording(env, seed, m, acts, tickRate)) == Some(final)
  {
    hide Replayed, LogOf, Run, TickDt, EnvOk, R.NewWorld;
    ReplayIsExact(env, seed, m, acts, TickDt(tickRate));
  }

  /** What the room does with one event of its inbox, or with a tick. */
  method Handle(w: W.World, a: Action, dt: real)
    requires w.Valid()
    modifies w, w.hitGrid.cells
    ensures w.Valid() && w.State() == Act(w.env, old(w.State()), a, dt) && w.recording == old(w.recording)
    ensures w.log == old(w.log) + if w.recording then Entry(w.env, old(w.State()), a) else []
  {
    hide EnvOk, WorldOk, R.AddPlayer, R.RemovePlayer, R.EnqueueInput, R.Step;
    match a
    case Join(name) =>
      var id := w.AddPlayer(name, 0);
    case Leave(id) =>
      w.RemovePlayer(id);
    case Enqueue(id, inp) =>
      w.EnqueueInput(id, inp);
    case Tick =>
      w.Step(dt);
  }

  lemma ActedOnce(env: Env, w0: State, acts: seq<Action>, i: nat, dt: real)
    requires i < |acts|
    ensures var w := Run(env, w0, acts[..i], dt);
      && Run(env, w0, acts[..i + 1], dt) == Act(env, w, acts[i], dt)
      && LogOf(env, w0, acts[..i + 1], dt) == LogOf(env, w0, acts[..i], dt) + Entry(env, w, acts[i])
    decreases i
  {
    hide Act, Entry;
    if i == 0 {
      assert acts[..1] == [acts[0]] && acts[..1][1..] == [] && acts[..0] == [];
    } else {
      ActedOnce(env, Act(env, w0, acts[0], dt), acts[1..], i - 1, dt);
      assert acts[..i + 1][1..] == acts[1..][..i] && acts[..i][1..] == acts[1..][..i - 1];
      var w1 := Act(env, w0, acts[0], dt);
      var (a, b) := (Entry(env, w0, acts[0]), LogOf(env, w1, acts[1..][..i - 1], dt));
      var c := Entry(env, Run(env, w0, acts[..i], dt), acts[i]);
      assert a + (b + c) == (a + b) + c;
    }
  }

  /** What the first `i` actions made of a world and its log. */
  ghost predicate Reached(env: Env, w0: State, log0: seq<Logged>, acts: seq<Action>, i: nat, dt: real, recording: bool,
                          w: State, log: seq<Logged>)
    requires i <= |acts|
  {
    w == Run(env, w0, acts[..i], dt) && log == log0 + if recording then LogOf(env, w0, acts[..i], dt) else []
  }

  lemma ReachedNone(env: Env, w: State, log: seq<Logged>, acts: seq<Action>, dt: real, recording: bool)
    ensures Reached(env, w, log, acts, 0, dt, recording, w, log)
  {
    hide Act, Entry;
    assert acts[..0] == [];
  }

  lemma ReachedNext(env: Env, w0: State, log0: seq<Logged>, acts: seq<Action>, i: nat, dt: real, recording: bool,
                    w: State, log: seq<Logged>)
    requires i < |acts| && Reached(env, w0, log0, acts, i, dt, recording, w, log)
    ensures Reached(env, w0, log0, acts, i + 1, dt, recording,
                    Act(env, w, acts[i], dt), log + if recording then Entry(env, w, acts[i]) else [])
  {
    hide Act, Entry, Run, LogOf;
    ActedOnce(env, w0, acts, i, dt);
    if recording {
      var (a, b) := (LogOf(env, w0, acts[..i], dt), Entry(env, w, acts[i]));
      assert (log0 + a) + b == log0 + (a + b);
    } else {
      assert log + [] == log;
    }
  }

  /** One turn of the room's loop. */
  method PerformNext(w: W.World, ghost w0: State, ghost log0: seq<Logged>, acts: seq<Action>, i: nat, dt: real)
    requires w.Valid() && i < |acts|
    requires Reached(w.env, w0, log0, acts, i, dt, w.recording, w.State(), w.log)
    modifies w, w.hitGrid.cells
    ensures w.Valid() && w.recording == old(w.recording)
    ensures Reached(w.env, w0, log0, acts, i + 1, dt, w.recording, w.State(), w.log)
  {
    hide EnvOk, WorldOk, Act, Entry, Reached;
    ReachedNext(w.env, w0, log0, acts, i, dt, w.recording, w.State(), w.log);
    Handle(w, acts[i], dt);
  }

  /** The room's loop: the world runs, and its log grows by what was accepted. */
  method Perform(w: W.World, acts: seq<Action>, dt: real)
    requires w.Valid()
    modifies w, w.hitGrid.cells
    ensures w.Valid() && w.State() == Run(w.env, old(w.State()), acts, dt) && w.recording == old(w.recording)
    ensures w.log == old(w.log) + if w.recording then LogOf(w.env, old(w.State()), acts, dt) else []
  {
    ghost var (w0, log0) := (w.State(), w.log);
    ReachedNone(w.env, w0, log0, acts, dt, w.recording);
    hide EnvOk, WorldOk, Reached, Run, LogOf;
    for i := 0 to |acts|
      invariant w.Valid() && w.recording == old(w.recording)
      invariant Reached(w.env, w0, log0, acts, i, dt, w.recording, w.State(), w.log)
    {
      PerformNext(w, w0, log0, acts, i, dt);
    }
    ReachedAll(w.env, w0, log0, acts, dt, w.recording, w.State(), w.log);
  }

  lemma ReachedAll(env: Env, w0: State, log0: seq<Logged>, acts: seq<Action>, dt: real, recording: bool,
                   w: State, log: seq<Logged>)
    requires Reached(env, w0, log0, acts, |acts|, dt, recording, w, log)
    ensures w == Run(env, w0, acts, dt) && log == log0 + if recording then LogOf(env, w0, acts, dt) else []
  {
    hide Run, LogOf;
    assert acts[..|acts|] == acts;
  }

  /** A whole recorded session: the log is the run's, so replaying it rebuilds the world. */
  method Record(env: Env, seed: int, m: Modes, acts: seq<Action>, tickRate: int) returns (w: W.World, log: ReplayLog)
    requires EnvOk(env) && tickRate > 0
    ensures w.State() == Run(env, R.NewWorld(seed, m), acts, TickDt(tickRate))
    ensures log == Recording(env, seed, m, acts, tickRate) && Outcome(env, log) == Some(w.State())
  {
    RecordingReplays(env, seed, m, acts, tickRate);
    hide EnvOk, WorldOk, R.NewWorld, TickDt, Replayed, Run, LogOf;
    w := new W.World(env, seed, m, true);
    Perform(w, acts, TickDt(tickRate));
    log := ReplayLog(seed, tickRate, m.team, m.hill, m.dom, m.ctf, w.tick, w.log);
  }

  // ----- the replayer

  method Apply(w: W.World, e: Logged) returns (ok: bool)
    requires w.Valid()
    modifies w
    ensures w.Valid() && var r := ApplyLogged(w.env, old(w.State()), e);
      ok == r.Some? && (ok ==> w.State() == r.value)
  {
    match e
    case Joined(_, name) =>
      var id := w.AddPlayer(name, 0);
      return id.Some?;
    case Left(_, id) =>
      w.RemovePlayer(id);
      return true;
    case Queued(_, id, inp) =>
      w.EnqueueInput(id, inp);
      return true;
  }

  lemma DueNext(env: Env, w: State, events: seq<Logged>, i: nat, t: nat, ticks: nat, dt: real)
    requires i < |events| && t <= ticks && (t == ticks || events[i].tick == t)
    ensures var w' := ApplyLogged(env, w, events[i]);
      Replayed(env, w, events[i..], t, ticks, dt) ==
        if w'.None? then None else Replayed(env, w'.value, events[i + 1..], t, ticks, dt)
  {
    hide ApplyLogged, R.Step;
    assert events[i..][1..] == events[i + 1..];
  }

  lemma TickNext(env: Env, w: State, events: seq<Logged>, i: nat, t: nat, ticks: nat, dt: real)
    requires i <= |events| && t < ticks && (i < |events| ==> events[i].tick != t)
    ensures var w' := R.Step(env, w, dt);
      Replayed(env, w, events[i..], t, ticks, dt) == Replayed(env, w', events[i..], t + 1, ticks, dt)
  {
    hide ApplyLogged, R.Step;
  }

  /** The loops over events: those stamped `t`, or in the end all that are left. */
  method ApplyDue(w: W.World, events: seq<Logged>, start: nat, t: nat, rest: bool, ghost ticks: nat, ghost dt: real)
    returns (i: nat, ok: bool)
    requires w.Valid() && start <= |events| && t <= ticks && (rest <==> t == ticks)
    modifies w
    ensures w.Valid() && i <= |events|
    ensures var goal := Replayed(w.env, old(w.State()), events[start..], t, ticks, dt);
      if ok then Replayed(w.env, w.State(), events[i..], t, ticks, dt) == goal else goal.None?
    ensures ok && i < |events| ==> !rest && events[i].tick != t
  {
    ghost var goal := Replayed(w.env, w.State(), events[start..], t, ticks, dt);
    hide ApplyLogged, Replayed, EnvOk, WorldOk;
    i, ok := start, true;
    while ok && i < |events| && (rest || events[i].tick == t)
      invariant i <= |events| && w.Valid()
      invariant if ok then Replayed(w.env, w.State(), events[i..], t, ticks, dt) == goal else goal.None?
      decreases |events| - i
    {
      DueNext(w.env, w.State(), events, i, t, ticks, dt);
      ok := Apply(w, events[i]);
      i := i + 1;
    }
  }

  /** The loop over ticks. */
  method PlayTicks(w: W.World, events: seq<Logged>, ticks: nat, dt: real) returns (i: nat, ok: bool)
    requires w.Valid()
    modifies w, w.hitGrid.cells
    ensures w.Valid() && i <= |events|
    ensures var goal := Replayed(w.env, old(w.State()), events, 0, ticks, dt);
      if ok then Replayed(w.env, w.State(), events[i..], ticks, ticks, dt) == goal else goal.None?
  {
    ghost var goal := Replayed(w.env, w.State(), events, 0, ticks, dt);
    hide Replayed, R.Step, EnvOk, WorldOk;
    assert events[0..] == events;
    i, ok := 0, true;
    var t := 0;
    while ok && t < ticks
      invariant i <= |events| && w.Valid() && t <= ticks
      invariant if ok then Replayed(w.env, w.State(), events[i..], t, ticks, dt) == goal else goal.None?
    {
      i, ok := ApplyDue(w, events, i, t, false, ticks, dt);
      if ok {
        TickNext(w.env, w.State(), events, i, t, ticks, dt);
        w.Step(dt);
        t := t + 1;
      }
    }
  }

  /** `Replay`, with the final world in place of its checksum. */
  method Replay(env: Env, log: ReplayLog) returns (r: Option<W.World>)
    requires EnvOk(env)
    ensures r.Some? == Outcome(env, log).Some? && (r.Some? ==> r.value.State() == Outcome(env, log).value)
  {
    if log.tickRate <= 0 {
      return None;
    }
    var w := new W.World(env, log.seed, ModesOf(log), false);
    hide R.Step, EnvOk, WorldOk, R.NewWorld, TickDt, ApplyLogged;
    var dt := TickDt(log.tickRate);
    var i, ok := PlayTicks(w, log.events, log.ticks, dt);
    if ok {
      i, ok := ApplyDue(w, log.events, i, log.ticks, true, log.ticks, dt);
    }
    return if ok then Some(w) else None;
  }
}

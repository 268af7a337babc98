/** The replay file, internal/game/replay.go: a versioned header and one record an event. */
module ReplayCodec {
  import opened Wrappers
  import opened Wire
  import opened Movement
  import opened Arena
  import R = Rules
  import opened WorldInvariant
  import opened W = World
  import opened Sessions
  import opened Replay
  import C = ClientCodec

  datatype Error = BadMagic | UnsupportedVersion | Truncated | UnknownKind | NameTooLong | BadTickRate

  datatype Result<+T> = Ok(value: T) | Err(error: Error)

  type U64 = x: int | 0 <= x < 0x1_0000_0000_0000_0000

  const MAGIC: Bytes := [0x41, 0x52, 0x50, 0x4c]
  const VERSION: U8 := 6
  const HEADER := 29
  const KIND_JOIN: U8 := 1
  const KIND_LEAVE: U8 := 2
  const KIND_INPUT: U8 := 3

  // ----- integers

  function Put64(v: U64): (b: Bytes)
    ensures |b| == 8
  {
    Put32(v % 0x1_0000_0000) + Put32(v / 0x1_0000_0000)
  }

  function Get64(b: Bytes, off: nat): U64
    requires off + 8 <= |b|
  {
    Get32(b, off) as int + 0x1_0000_0000 * (Get32(b, off + 4) as int)
  }

  lemma Get64Of(b: Bytes, off: nat, v: U64)
    requires off + 8 <= |b| && b[off..off + 8] == Put64(v)
    ensures Get64(b, off) == v
  {
    var q := b[off..off + 8];
    hide Put32, Get32;
    assert b[off..off + 4] == q[..4] == Put32(v % 0x1_0000_0000);
    assert b[off + 4..off + 8] == q[4..] == Put32(v / 0x1_0000_0000);
    Get32Of(b, off, v % 0x1_0000_0000);
    Get32Of(b, off + 4, v / 0x1_0000_0000);
  }

  /** The two's complement reading of an int64. */
  function ToU64(seed: int): U64 {
    seed % 0x1_0000_0000_0000_0000
  }

  function ToI64(u: U64): int {
    if u >= 0x8000_0000_0000_0000 then u - 0x1_0000_0000_0000_0000 else u
  }

  // ----- what a log can hold

  /** The ranges of the log's machine types. */
  predicate Typed(e: Logged) {
    && e.tick < 0x1_0000_0000
    && (e.Left? ==> e.id < 0x1_0000)
    && (e.Queued? ==> e.id < 0x1_0000 && IsWire(e.inp))
  }

  predicate IsWire(i: Input) {
    i.seq_ < 0x1_0000_0000 && i.viewTick < 0x1_0000_0000 && i.ackTick < 0x1_0000_0000
  }

  predicate TypedLog(log: ReplayLog) {
    && -0x8000_0000_0000_0000 <= log.seed < 0x8000_0000_0000_0000
    && log.ticks < 0x1_0000_0000
    && forall i :: 0 <= i < |log.events| ==> Typed(log.events[i])
  }

  predicate ShortName(e: Logged) {
    e.Joined? ==> |e.name| <= C.MAX_NAME_LEN
  }

  /** What a decoded log always satisfies. */
  predicate Storable(log: ReplayLog) {
    && 0 < log.tickRate < 0x1_0000_0000 && |log.events| < 0x1_0000_0000
    && forall i :: 0 <= i < |log.events| ==> ShortName(log.events[i])
  }

  // ----- encoding

  function Flag(b: bool): U8 {
    if b then 1 else 0
  }

  /** Everything of an event after its tick. */
  function EventBody(e: Logged): Bytes
    requires Typed(e)
  {
    match e
    case Joined(_, name) => [KIND_JOIN, |name| % 256] + name
    case Left(_, id) => [KIND_LEAVE] + Put16(id)
    case Queued(_, id, inp) => [KIND_INPUT] + (Put16(id) + (C.InputBody(inp) + [inp.actions]))
  }

  function EventBytes(e: Logged): Bytes
    requires Typed(e)
  {
    Put32(e.tick) + EventBody(e)
  }

  function EventsBytes(es: seq<Logged>): Bytes
    requires forall i :: 0 <= i < |es| ==> Typed(es[i])
  {
    if es == [] then [] else EventBytes(es[0]) + EventsBytes(es[1..])
  }

  function HeaderBytes(log: ReplayLog): (b: Bytes)
    requires TypedLog(log)
    ensures |b| == HEADER
  {
    MAGIC + [VERSION] + Put64(ToU64(log.seed)) + Put32(log.tickRate % 0x1_0000_0000) + Put32(log.ticks)
    + [Flag(log.teamMode), Flag(log.hillMode), Flag(log.domMode), Flag(log.ctfMode)]
    + Put32(|log.events| % 0x1_0000_0000)
  }

  function EncodedLog(log: ReplayLog): Bytes
    requires TypedLog(log)
  {
    HeaderBytes(log) + EventsBytes(log.events)
  }

  method AppendEvent(dst: Bytes, e: Logged) returns (out: Bytes)
    requires Typed(e)
    ensures out == dst + EventBytes(e)
  {
    hide Put32, EventBody;
    out := AppendBody(dst + Put32(e.tick), e);
    Assoc(dst, Put32(e.tick), EventBody(e));
  }

  method AppendBody(dst: Bytes, e: Logged) returns (out: Bytes)
    requires Typed(e)
    ensures out == dst + EventBody(e)
  {
    hide Put16, C.InputBody;
    match e
    case Joined(_, name) =>
      out := dst + [KIND_JOIN];
      out := out + [|name| % 256];
      out := out + name;
    case Left(_, id) =>
      out := dst + [KIND_LEAVE];
      out := out + Put16(id);
      Assoc(dst, [KIND_LEAVE], Put16(id));
    case Queued(_, id, inp) =>
      var (k, i, b, a) := ([KIND_INPUT], Put16(id), C.InputBody(inp), [inp.actions]);
      out := dst + k;
      out := out + i;
      out := out + b;
      out := out + a;
      Assoc(dst + k + i, b, a);
      Assoc(dst + k, i, b + a);
      Assoc(dst, k, i + (b + a));
  }

  lemma {:induction false} EventsSplit(es: seq<Logged>, i: nat)
    requires i < |es| && forall k :: 0 <= k < |es| ==> Typed(es[k])
    ensures EventsBytes(es[..i + 1]) == EventsBytes(es[..i]) + EventBytes(es[i])
    decreases |es|
  {
    hide EventBytes;
    if i == 0 {
      assert es[..1] == [es[0]] && es[..1][1..] == [];
      assert es[..0] == [];
    } else {
      EventsSplit(es[1..], i - 1);
      assert es[..i + 1][1..] == es[1..][..i] && es[..i][1..] == es[1..][..i - 1];
    }
  }

  /** The loop over events. */
  method AppendEvents(dst: Bytes, es: seq<Logged>) returns (out: Bytes)
    requires forall i :: 0 <= i < |es| ==> Typed(es[i])
    ensures out == dst + EventsBytes(es)
  {
    hide EventBytes, Typed;
    out := dst;
    for i := 0 to |es|
      invariant out == dst + EventsBytes(es[..i])
    {
      EventsSplit(es, i);
      Assoc(dst, EventsBytes(es[..i]), EventBytes(es[i]));
      out := AppendEvent(out, es[i]);
    }
    assert es[..|es|] == es;
  }

  method Encode(log: ReplayLog) returns (dst: Bytes)
    requires TypedLog(log)
    ensures dst == EncodedLog(log)
  {
    dst := AppendEvents(HeaderBytes(log), log.events);
  }

  // ----- the layouts of older files

  /** Version 2 brought the team flag, 4 the hill's, 5 domination's and 6 that of the flags. */
  function FlagBytes(log: ReplayLog, ver: U8): (b: Bytes)
    ensures |b| <= 4
  {
    (if ver >= 2 then [Flag(log.teamMode)] else []) + (if ver >= 4 then [Flag(log.hillMode)] else [])
    + (if ver >= 5 then [Flag(log.domMode)] else []) + (if ver >= 6 then [Flag(log.ctfMode)] else [])
  }

  /** Version 3 brought the actions of an input, the last byte of its record. */
  function BodyAs(e: Logged, ver: U8): (b: Bytes)
    requires Typed(e)
    ensures b != [] && b[0] == if e.Joined? then KIND_JOIN else if e.Left? then KIND_LEAVE else KIND_INPUT
  {
    var b := EventBody(e);
    if e.Queued? && ver < 3 then b[..|b| - 1] else b
  }

  function BytesAs(e: Logged, ver: U8): Bytes
    requires Typed(e)
  {
    Put32(e.tick) + BodyAs(e, ver)
  }

  function EventsAs(es: seq<Logged>, ver: U8): Bytes
    requires forall i :: 0 <= i < |es| ==> Typed(es[i])
  {
    if es == [] then [] else BytesAs(es[0], ver) + EventsAs(es[1..], ver)
  }

  /** A log as a build of version `ver` wrote it. */
  function EncodedAs(log: ReplayLog, ver: U8): Bytes
    requires TypedLog(log)
  {
    MAGIC + [ver] + Put64(ToU64(log.seed)) + Put32(log.tickRate % 0x1_0000_0000) + Put32(log.ticks)
    + FlagBytes(log, ver) + Put32(|log.events| % 0x1_0000_0000) + EventsAs(log.events, ver)
  }

  /** What such a file can say of a log: modes and actions it has no room for are off. */
  function EventSaid(e: Logged, ver: U8): Logged {
    if e.Queued? && ver < 3 then e.(inp := e.inp.(actions := 0)) else e
  }

  function EventsSaid(es: seq<Logged>, ver: U8): seq<Logged> {
    seq(|es|, i requires 0 <= i < |es| => EventSaid(es[i], ver))
  }

  function Said(log: ReplayLog, ver: U8): ReplayLog {
    log.(teamMode := ver >= 2 && log.teamMode, hillMode := ver >= 4 && log.hillMode,
         domMode := ver >= 5 && log.domMode, ctfMode := ver >= 6 && log.ctfMode,
         events := EventsSaid(log.events, ver))
  }

  // ----- decoding

  /** An event and how many bytes it took. */
  datatype Parsed = Parsed(event: Logged, size: nat)

  function ParseJoin(tick: U32, b: Bytes): (r: Result<Parsed>)
    ensures r.Ok? ==> r.value.size <= |b| && Typed(r.value.event) && ShortName(r.value.event)
  {
    if |b| < 1 then Err(Truncated)
    else
      var n: int := b[0];
      if n > C.MAX_NAME_LEN then Err(NameTooLong)
      else if |b| < 1 + n then Err(Truncated)
      else Ok(Parsed(Joined(tick, b[1..1 + n]), 1 + n))
  }

  function ParseLeave(tick: U32, b: Bytes): (r: Result<Parsed>)
    ensures r.Ok? ==> r.value.size <= |b| && Typed(r.value.event) && ShortName(r.value.event)
  {
    if |b| < 2 then Err(Truncated) else Ok(Parsed(Left(tick, Get16(b, 0)), 2))
  }

  /** Inputs got their actions byte in version 3. */
  function ParseInput(tick: U32, b: Bytes, ver: U8): (r: Result<Parsed>)
    ensures r.Ok? ==> r.value.size <= |b| && Typed(r.value.event) && ShortName(r.value.event)
  {
    var size := if ver >= 3 then 18 else 17;
    if |b| < size then Err(Truncated)
    else
      var actions := if ver >= 3 then b[17] else 0;
      var inp := Input(Get32(b, 2), b[6], Get16(b, 7), Get32(b, 9), Get32(b, 13), actions);
      Ok(Parsed(Queued(tick, Get16(b, 0), inp), size))
  }

  function ParseEvent(b: Bytes, ver: U8): (r: Result<Parsed>)
    ensures r.Ok? ==> 5 <= r.value.size <= |b| && Typed(r.value.event) && ShortName(r.value.event)
  {
    if |b| < 5 then Err(Truncated)
    else
      var tick := Get32(b, 0);
      var r :=
        if b[4] == KIND_JOIN then ParseJoin(tick, b[5..])
        else if b[4] == KIND_LEAVE then ParseLeave(tick, b[5..])
        else if b[4] == KIND_INPUT then ParseInput(tick, b[5..], ver)
        else Err(UnknownKind);
      if r.Ok? then Ok(Parsed(r.value.event, 5 + r.value.size)) else r
  }

  function ParseEvents(b: Bytes, n: nat, ver: U8): (r: Result<seq<Logged>>)
    ensures r.Ok? ==> |r.value| == n && forall i :: 0 <= i < n ==> Typed(r.value[i]) && ShortName(r.value[i])
  {
    if n == 0 then Ok([])
    else
      var e := ParseEvent(b, ver);
      if e.Err? then Err(e.error)
      else
        var rest := ParseEvents(b[e.value.size..], n - 1, ver);
        if rest.Err? then rest else Ok([e.value.event] + rest.value)
  }

  function HeaderLen(ver: U8): nat {
    if ver >= 6 then 29 else if ver >= 5 then 28 else if ver >= 4 then 27 else if ver >= 2 then 26 else 25
  }

  function DecodedLog(data: Bytes): Result<ReplayLog> {
    if |data| < 25 then Err(Truncated)
    else if data[..4] != MAGIC then Err(BadMagic)
    else
      var ver := data[4];
      if ver < 1 || ver > VERSION then Err(UnsupportedVersion)
      else if Get32(data, 13) == 0 then Err(BadTickRate)
      else if |data| < HeaderLen(ver) then Err(Truncated)
      else
        var es := ParseEvents(data[HeaderLen(ver)..], Get32(data, HeaderLen(ver) - 4), ver);
        if es.Err? then Err(es.error)
        else Ok(ReplayLog(ToI64(Get64(data, 5)), Get32(data, 13), ver >= 2 && data[21] != 0, ver >= 4 && data[22] != 0,
                          ver >= 5 && data[23] != 0, ver >= 6 && data[24] != 0, Get32(data, 17), es.value))
  }

  /** What is known of the whole parse once the first events are read. */
  function After(done: seq<Logged>, rest: Result<seq<Logged>>): Result<seq<Logged>> {
    if rest.Ok? then Ok(done + rest.value) else rest
  }

  lemma ParseNext(body: Bytes, off: nat, n: nat, ver: U8, done: seq<Logged>)
    requires off <= |body| && n > 0
    ensures var e := ParseEvent(body[off..], ver);
      After(done, ParseEvents(body[off..], n, ver)) ==
      if e.Err? then Err(e.error)
      else After(done + [e.value.event], ParseEvents(body[off + e.value.size..], n - 1, ver))
  {
    var e := ParseEvent(body[off..], ver);
    if e.Ok? {
      assert body[off..][e.value.size..] == body[off + e.value.size..];
      var rest := ParseEvents(body[off + e.value.size..], n - 1, ver);
      if rest.Ok? {
        assert done + ([e.value.event] + rest.value) == done + [e.value.event] + rest.value;
      }
    }
  }

  method DecodeReplay(data: Bytes) returns (r: Result<ReplayLog>)
    ensures r == DecodedLog(data)
  {
    hide Get32, Get64, ParseEvent, ParseEvents;
    if |data| < 25 {
      return Err(Truncated);
    }
    if data[0..4] != MAGIC {
      return Err(BadMagic);
    }
    var ver := data[4];
    if ver < 1 || ver > VERSION {
      return Err(UnsupportedVersion);
    }
    var tickRate := Get32(data, 13);
    if tickRate == 0 {
      return Err(BadTickRate);
    }
    var headerLen, team, hill, dom, ctf := 25, false, false, false, false;
    if ver >= 2 {
      if |data| < 26 {
        return Err(Truncated);
      }
      team, headerLen := data[21] != 0, 26;
    }
    if ver >= 4 {
      if |data| < 27 {
        return Err(Truncated);
      }
      hill, headerLen := data[22] != 0, 27;
    }
    if ver >= 5 {
      if |data| < 28 {
        return Err(Truncated);
      }
      dom, headerLen := data[23] != 0, 28;
    }
    if ver >= 6 {
      if |data| < 29 {
        return Err(Truncated);
      }
      ctf, headerLen := data[24] != 0, 29;
    }
    var es := DecodeEvents(data[headerLen..], Get32(data, headerLen - 4), ver);
    if es.Err? {
      return Err(es.error);
    }
    r := Ok(ReplayLog(ToI64(Get64(data, 5)), tickRate, team, hill, dom, ctf, Get32(data, 17), es.value));
  }

  /** The loop over events, with its cursor. */
  method DecodeEvents(body: Bytes, count: nat, ver: U8) returns (r: Result<seq<Logged>>)
    ensures r == ParseEvents(body, count, ver)
  {
    hide ParseEvent, ParseEvents;
    var events, off := [], 0;
    assert body[0..] == body;
    ghost var whole := ParseEvents(body, count, ver);
    assert After([], whole) == whole by {
      assert whole.Ok? ==> [] + whole.value == whole.value;
    }
    for i := 0 to count
      invariant 0 <= off <= |body|
      invariant After(events, ParseEvents(body[off..], count - i, ver)) == whole
    {
      ParseNext(body, off, count - i, ver, events);
      var e := ParseEvent(body[off..], ver);
      if e.Err? {
        return Err(e.error);
      }
      events := events + [e.value.event];
      off := off + e.value.size;
    }
    NoneLeft(body[off..], ver);
    assert events + [] == events;
    return Ok(events);
  }

  lemma NoneLeft(b: Bytes, ver: U8)
    ensures ParseEvents(b, 0, ver) == Ok([])
  {
  }

  // ----- round trips

  lemma JoinBack(e: Logged, rest: Bytes)
    requires e.Joined? && Typed(e) && ShortName(e)
    ensures ParseJoin(e.tick, EventBody(e)[1..] + rest) == Ok(Parsed(e, |EventBody(e)| - 1))
  {
    var b := EventBody(e)[1..] + rest;
    assert b[1..1 + |e.name|] == e.name;
  }

  lemma LeaveBack(e: Logged, rest: Bytes)
    requires e.Left? && Typed(e)
    ensures ParseLeave(e.tick, EventBody(e)[1..] + rest) == Ok(Parsed(e, |EventBody(e)| - 1))
  {
    var b := EventBody(e)[1..] + rest;
    assert b[0..2] == Put16(e.id);
    Get16Of(b, 0, e.id);
  }

  lemma InputBack(e: Logged, rest: Bytes, ver: U8)
    requires e.Queued? && Typed(e)
    ensures ParseInput(e.tick, BodyAs(e, ver)[1..] + rest, ver) == Ok(Parsed(EventSaid(e, ver), |BodyAs(e, ver)| - 1))
  {
    var i := e.inp;
    var b := BodyAs(e, ver)[1..] + rest;
    InputBytes(e, ver, rest);
    hide Put32, Put16, Get32, Get16, BodyAs;
    Get16Of(b, 0, e.id);
    Get32Of(b, 2, i.seq_);
    Get16Of(b, 7, i.aim);
    Get32Of(b, 9, i.viewTick);
    Get32Of(b, 13, i.ackTick);
  }

  lemma InputBytes(e: Logged, ver: U8, rest: Bytes)
    requires e.Queued? && Typed(e)
    ensures var (i, b) := (e.inp, BodyAs(e, ver)[1..] + rest);
      && |BodyAs(e, ver)| == (if ver >= 3 then 19 else 18)
      && |b| >= 17 && b[0..2] == Put16(e.id) && b[2..6] == Put32(i.seq_) && b[6] == i.buttons && b[7..9] == Put16(i.aim)
      && b[9..13] == Put32(i.viewTick) && b[13..17] == Put32(i.ackTick)
      && (ver >= 3 ==> |b| >= 18 && b[17] == i.actions)
  {
    var (b, full) := (BodyAs(e, ver)[1..] + rest, EventBody(e)[1..]);
    FullInput(e);
    hide Put32, Put16, EventBody;
    assert b[..17] == full[..17];
    assert b[0..2] == b[..17][0..2] && b[2..6] == b[..17][2..6] && b[7..9] == b[..17][7..9];
    assert b[9..13] == b[..17][9..13] && b[13..17] == b[..17][13..17];
  }

  lemma FullInput(e: Logged)
    requires e.Queued? && Typed(e)
    ensures var (i, b) := (e.inp, EventBody(e)[1..]);
      && |b| == 18 && b[..17][0..2] == Put16(e.id) && b[..17][2..6] == Put32(i.seq_) && b[6] == i.buttons
      && b[..17][7..9] == Put16(i.aim) && b[..17][9..13] == Put32(i.viewTick)
      && b[..17][13..17] == Put32(i.ackTick) && b[17] == i.actions
  {
    hide Put32, Put16;
    var b := EventBody(e)[1..];
    assert b[0..2] == Put16(e.id) && b[2..6] == Put32(e.inp.seq_) && b[7..9] == Put16(e.inp.aim);
    assert b[9..13] == Put32(e.inp.viewTick) && b[13..17] == Put32(e.inp.ackTick);
  }

  lemma EventLayout(e: Logged, rest: Bytes, ver: U8)
    requires Typed(e)
    ensures var (b, body) := (BytesAs(e, ver) + rest, BodyAs(e, ver));
      && |BytesAs(e, ver)| == 4 + |body| >= 5
      && b[0..4] == Put32(e.tick) && b[4] == body[0] && b[5..] == body[1..] + rest
  {
    Layout(Put32(e.tick), BodyAs(e, ver), rest);
    hide Put32, BodyAs;
  }

  lemma Layout(tick: Bytes, body: Bytes, rest: Bytes)
    requires |tick| == 4 && body != []
    ensures var b := tick + body + rest;
      b[0..4] == tick && b[4] == body[0] && b[5..] == body[1..] + rest
  {
  }

  /** Every record of every version takes exactly the bytes it was written with. */
  lemma EventBack(e: Logged, rest: Bytes, ver: U8)
    requires Typed(e) && ShortName(e)
    ensures ParseEvent(BytesAs(e, ver) + rest, ver) == Ok(Parsed(EventSaid(e, ver), |BytesAs(e, ver)|))
  {
    var b := BytesAs(e, ver) + rest;
    EventLayout(e, rest, ver);
    match e
    case Joined(_, _) =>
      JoinBack(e, rest);
      hide Put32, Get32, EventBody, BytesAs, ParseJoin, ParseLeave, ParseInput;
      Get32Of(b, 0, e.tick);
    case Left(_, _) =>
      LeaveBack(e, rest);
      hide Put32, Get32, EventBody, BytesAs, ParseJoin, ParseLeave, ParseInput;
      Get32Of(b, 0, e.tick);
    case Queued(_, _, _) =>
      InputBack(e, rest, ver);
      hide Put32, Get32, BodyAs, BytesAs, ParseJoin, ParseLeave, ParseInput;
      Get32Of(b, 0, e.tick);
  }

  lemma {:induction false} EventsBack(es: seq<Logged>, ver: U8)
    requires forall i :: 0 <= i < |es| ==> Typed(es[i]) && ShortName(es[i])
    ensures ParseEvents(EventsAs(es, ver), |es|, ver) == Ok(EventsSaid(es, ver))
    decreases |es|
  {
    hide ParseEvent, BytesAs, EventSaid;
    if es != [] {
      EventBack(es[0], EventsAs(es[1..], ver), ver);
      EventsBack(es[1..], ver);
      assert EventsAs(es, ver)[|BytesAs(es[0], ver)|..] == EventsAs(es[1..], ver);
      assert [EventSaid(es[0], ver)] + EventsSaid(es[1..], ver) == EventsSaid(es, ver);
    }
  }

  lemma HeaderLayout(log: ReplayLog, ver: U8)
    requires TypedLog(log) && 1 <= ver <= VERSION
    ensures var (b, n) := (EncodedAs(log, ver), HeaderLen(ver));
      && |b| >= n >= 25 && b[..4] == MAGIC && b[4] == ver && b[5..13] == Put64(ToU64(log.seed))
      && b[13..17] == Put32(log.tickRate % 0x1_0000_0000) && b[17..21] == Put32(log.ticks)
      && b[21..n - 4] == FlagBytes(log, ver)
      && b[n - 4..n] == Put32(|log.events| % 0x1_0000_0000) && b[n..] == EventsAs(log.events, ver)
  {
    FlagCount(log, ver);
    hide Put64, Put32, ToU64, Flag, EventsAs, Typed, FlagBytes;
    var head := MAGIC + [ver] + Put64(ToU64(log.seed)) + Put32(log.tickRate % 0x1_0000_0000) + Put32(log.ticks);
    Pieces(head, FlagBytes(log, ver), Put32(|log.events| % 0x1_0000_0000), EventsAs(log.events, ver));
    var b := EncodedAs(log, ver);
    assert b[..21] == head;
    assert b[..4] == head[..4] && b[5..13] == head[5..13] && b[13..17] == head[13..17] && b[17..21] == head[17..21];
  }

  lemma Pieces(head: Bytes, flags: Bytes, count: Bytes, rest: Bytes)
    requires |head| == 21 && |count| == 4
    ensures var (b, n) := (head + flags + count + rest, 25 + |flags|);
      |b| >= n && b[..21] == head && b[21..n - 4] == flags && b[n - 4..n] == count && b[n..] == rest
  {
  }

  lemma FlagCount(log: ReplayLog, ver: U8)
    requires 1 <= ver <= VERSION
    ensures 25 + |FlagBytes(log, ver)| == HeaderLen(ver)
  {
  }

  lemma FlagsBack(log: ReplayLog, ver: U8, b: Bytes)
    requires 1 <= ver <= VERSION && |b| >= HeaderLen(ver) && b[21..HeaderLen(ver) - 4] == FlagBytes(log, ver)
    ensures ver >= 2 ==> (b[21] != 0 <==> log.teamMode)
    ensures ver >= 4 ==> (b[22] != 0 <==> log.hillMode)
    ensures ver >= 5 ==> (b[23] != 0 <==> log.domMode)
    ensures ver >= 6 ==> (b[24] != 0 <==> log.ctfMode)
  {
    var f := b[21..HeaderLen(ver) - 4];
    assert forall i :: 0 <= i < |f| ==> b[21 + i] == f[i];
    if ver >= 6 {
      assert f == [Flag(log.teamMode), Flag(log.hillMode), Flag(log.domMode), Flag(log.ctfMode)];
      assert b[24] == f[3];
    }
  }

  lemma SeedBack(seed: int)
    requires -0x8000_0000_0000_0000 <= seed < 0x8000_0000_0000_0000
    ensures ToI64(ToU64(seed)) == seed
  {
  }

  lemma Back32(b: Bytes, off: nat, v: int)
    requires 0 <= v < 0x1_0000_0000 && off + 4 <= |b| && b[off..off + 4] == Put32(v % 0x1_0000_0000)
    ensures Get32(b, off) == v
  {
    Get32Of(b, off, v);
  }

  lemma HeaderBack(log: ReplayLog, ver: U8)
    requires TypedLog(log) && 0 < log.tickRate < 0x1_0000_0000 && |log.events| < 0x1_0000_0000
    requires 1 <= ver <= VERSION
    ensures var (b, n) := (EncodedAs(log, ver), HeaderLen(ver));
      && |b| >= n >= 25 && b[..4] == MAGIC && b[4] == ver
      && ToI64(Get64(b, 5)) == log.seed && Get32(b, 13) == log.tickRate && Get32(b, 17) == log.ticks
      && Get32(b, n - 4) == |log.events| && b[n..] == EventsAs(log.events, ver)
      && b[21..n - 4] == FlagBytes(log, ver)
  {
    HeaderLayout(log, ver);
    hide ToU64, ToI64, Put64, Get64, Put32, Get32, EncodedAs, FlagBytes;
    var b := EncodedAs(log, ver);
    SeedBack(log.seed);
    Get64Of(b, 5, ToU64(log.seed));
    Back32(b, 13, log.tickRate);
    Get32Of(b, 17, log.ticks);
    Back32(b, HeaderLen(ver) - 4, |log.events|);
  }

  /** A file written by any version is read back as what that version could say. */
  lemma OlderFilesComeBack(log: ReplayLog, ver: U8)
    requires TypedLog(log) && Storable(log) && 1 <= ver <= VERSION
    ensures DecodedLog(EncodedAs(log, ver)) == Ok(Said(log, ver))
  {
    hide Get32, Get64, ParseEvents, EventsAs, EncodedAs, Typed, ShortName, FlagBytes, EventsSaid;
    HeaderBack(log, ver);
    FlagsBack(log, ver, EncodedAs(log, ver));
    EventsBack(log.events, ver);
    hide ToI64, HeaderLen;
  }

  lemma {:induction false} EventsAsNow(es: seq<Logged>)
    requires forall i :: 0 <= i < |es| ==> Typed(es[i])
    ensures EventsAs(es, VERSION) == EventsBytes(es)
    decreases |es|
  {
    hide EventBody, Put32;
    if es != [] {
      EventsAsNow(es[1..]);
    }
  }

  /** Version 6 is what is written now, and it says everything. */
  lemma EncodedNow(log: ReplayLog)
    requires TypedLog(log)
    ensures EncodedAs(log, VERSION) == EncodedLog(log) && Said(log, VERSION) == log
  {
    EventsAsNow(log.events);
    hide EventsAs, EventsBytes, Put64, Put32, ToU64, Flag, Typed;
    assert EventsSaid(log.events, VERSION) == log.events;
    assert FlagBytes(log, VERSION)
        == [Flag(log.teamMode), Flag(log.hillMode), Flag(log.domMode), Flag(log.ctfMode)];
  }

  /** Everything the decoder accepts, of whatever version, is a log that can be stored. */
  lemma DecodedIsStorable(data: Bytes)
    requires DecodedLog(data).Ok?
    ensures Storable(DecodedLog(data).value) && TypedLog(DecodedLog(data).value)
  {
    hide ParseEvents, Get64;
  }

  /** `DecodeReplay` undoes `Encode` exactly for logs with short names, a tick rate that is
      positive and fits 32 bits, and a count of events that does. */
  lemma ReplayRoundTrip(log: ReplayLog)
    requires TypedLog(log)
    ensures DecodedLog(EncodedLog(log)) == Ok(log) <==> Storable(log)
  {
    if Storable(log) {
      EncodedNow(log);
      OlderFilesComeBack(log, VERSION);
    }
    if DecodedLog(EncodedLog(log)).Ok? {
      DecodedIsStorable(EncodedLog(log));
    }
    hide EncodedLog, DecodedLog, Storable, TypedLog;
  }

  // ----- recorded sessions

  /** The ranges of what the wire and the clock can give a session. */
  ghost predicate TypedRun(env: Env, seed: int, m: Modes, acts: seq<Action>, tickRate: int)
    requires tickRate > 0
  {
    && -0x8000_0000_0000_0000 <= seed < 0x8000_0000_0000_0000 && tickRate < 0x1_0000_0000
    && (forall i :: 0 <= i < |acts| && acts[i].Enqueue? ==> IsWire(acts[i].inp))
    && Recording(env, seed, m, acts, tickRate).ticks < 0x1_0000_0000
    && |Recording(env, seed, m, acts, tickRate).events| < 0x1_0000_0000
  }

  /** Every name the room accepted fits the replay file's limit, in bytes. */
  ghost predicate ShortJoins(env: Env, w: State, acts: seq<Action>, dt: real)
    decreases |acts|
  {
    acts != [] ==>
      && (acts[0].Join? && R.AddPlayer(env, w, acts[0].name).1.Some? ==> |acts[0].name| <= C.MAX_NAME_LEN)
      && ShortJoins(env, Act(env, w, acts[0], dt), acts[1..], dt)
  }

  lemma EntryTyped(env: Env, w: State, a: Action, bound: nat)
    requires WorldOk(w) && w.tick <= bound < 0x1_0000_0000 && (a.Enqueue? ==> IsWire(a.inp))
    ensures forall e :: e in Entry(env, w, a) ==> Typed(e)
  {
    hide R.AddPlayer, ShotsOk;
  }

  lemma {:induction false} LogTyped(env: Env, w: State, acts: seq<Action>, dt: real)
    requires EnvOk(env) && WorldOk(w) && Run(env, w, acts, dt).tick < 0x1_0000_0000
    requires forall i :: 0 <= i < |acts| && acts[i].Enqueue? ==> IsWire(acts[i].inp)
    ensures forall e :: e in LogOf(env, w, acts, dt) ==> Typed(e)
    decreases |acts|
  {
    hide WorldOk, EnvOk, Act, Entry, IsWire, Typed;
    if acts != [] {
      ActOk(env, w, acts[0], dt);
      RunOk(env, w, acts, dt);
      EntryTyped(env, w, acts[0], Run(env, w, acts, dt).tick);
      LogTyped(env, Act(env, w, acts[0], dt), acts[1..], dt);
    }
  }

  lemma {:induction false} LogNames(env: Env, w: State, acts: seq<Action>, dt: real)
    ensures (forall e :: e in LogOf(env, w, acts, dt) ==> ShortName(e)) <==> ShortJoins(env, w, acts, dt)
    decreases |acts|
  {
    hide Act, R.AddPlayer, R.AcceptsInput;
    if acts != [] {
      LogNames(env, Act(env, w, acts[0], dt), acts[1..], dt);
      EntryNames(env, w, acts[0]);
      hide Entry, ShortName;
      var (front, rest) := (Entry(env, w, acts[0]), LogOf(env, Act(env, w, acts[0], dt), acts[1..], dt));
      assert forall e :: e in front + rest <==> e in front || e in rest;
    }
  }

  lemma EntryNames(env: Env, w: State, a: Action)
    ensures (forall e :: e in Entry(env, w, a) ==> ShortName(e))
      <==> (a.Join? && R.AddPlayer(env, w, a.name).1.Some? ==> |a.name| <= C.MAX_NAME_LEN)
  {
    hide R.AddPlayer, R.AcceptsInput;
    if a.Join? && R.AddPlayer(env, w, a.name).1.Some? {
      assert Joined(w.tick, a.name) in Entry(env, w, a);
    }
  }

  /** From the room to the file and back: the recorded session survives exactly when every
      accepted name has at most 16 bytes, and then replaying the file rebuilds the world. */
  lemma SessionSurvivesIff(env: Env, seed: int, m: Modes, acts: seq<Action>, tickRate: int)
    requires EnvOk(env) && tickRate > 0 && TypedRun(env, seed, m, acts, tickRate)
    ensures var (log, w0, dt) := (Recording(env, seed, m, acts, tickRate), R.NewWorld(seed, m), TickDt(tickRate));
      && TypedLog(log)
      && (DecodedLog(EncodedLog(log)) == Ok(log) <==> ShortJoins(env, w0, acts, dt))
      && (ShortJoins(env, w0, acts, dt) ==>
          && DecodedLog(EncodedLog(log)).Ok?
          && Outcome(env, DecodedLog(EncodedLog(log)).value) == Some(Run(env, w0, acts, dt)))
  {
    var (log, w0, dt) := (Recording(env, seed, m, acts, tickRate), R.NewWorld(seed, m), TickDt(tickRate));
    NewWorldOk(seed, m);
    LogTyped(env, w0, acts, dt);
    LogNames(env, w0, acts, dt);
    hide WorldOk, EnvOk, Typed, ShortName, IsWire, LogOf, Run, R.NewWorld, TickDt, ShortJoins, EncodedLog;
    hide DecodedLog, Outcome;
    assert log.events == LogOf(env, w0, acts, dt);
    assert TypedLog(log);
    assert Storable(log) <==> ShortJoins(env, w0, acts, dt);
    ReplayRoundTrip(log);
    RecordingReplays(env, seed, m, acts, tickRate);
  }

  // ----- names that do not fit

  /** The characters of a name in UTF-8: the bytes that continue no other. */
  function Runes(name: Bytes): nat {
    if name == [] then 0 else Runes(name[1..]) + if name[0] / 64 == 2 then 0 else 1
  }

  /** Nine Cyrillic letters: an acceptable guest name, of 18 bytes. */
  const CYRILLIC: Bytes := [
    0xd0, 0x90, 0xd0, 0x90, 0xd0, 0x90, 0xd0, 0x90, 0xd0, 0x90, 0xd0, 0x90, 0xd0, 0x90, 0xd0, 0x90, 0xd0, 0x90]

  /** The log of a session that somebody of this name joined. */
  function OneJoin(seed: int, tickRate: int, m: Modes, ticks: nat, tick: nat, name: Bytes): ReplayLog {
    ReplayLog(seed, tickRate, m.team, m.hill, m.dom, m.ctf, ticks, [Joined(tick, name)])
  }

  lemma OneJoinTyped(seed: int, tickRate: int, m: Modes, ticks: nat, tick: nat, name: Bytes)
    requires -0x8000_0000_0000_0000 <= seed < 0x8000_0000_0000_0000 && tick <= ticks < 0x1_0000_0000
    ensures TypedLog(OneJoin(seed, tickRate, m, ticks, tick, name))
    ensures var log := OneJoin(seed, tickRate, m, ticks, tick, name);
      log.tickRate == tickRate && |log.events| == 1 && log.events[0] == Joined(tick, name)
  {
  }

  /** The room records it like any other, and the file cannot be read back. */
  lemma CyrillicNameIsLost(seed: int, tickRate: int, m: Modes, ticks: nat, tick: nat)
    requires -0x8000_0000_0000_0000 <= seed < 0x8000_0000_0000_0000 && 0 < tickRate < 0x1_0000_0000
    requires tick <= ticks < 0x1_0000_0000
    ensures Runes(CYRILLIC) == 9
    ensures var log := OneJoin(seed, tickRate, m, ticks, tick, CYRILLIC);
      TypedLog(log) && DecodedLog(EncodedLog(log)) == Err(NameTooLong)
  {
    NineRunes();
    LongJoinRefused(tick, CYRILLIC);
    hide *;
    OneJoinTyped(seed, tickRate, m, ticks, tick, CYRILLIC);
    OnlyEventRefused(OneJoin(seed, tickRate, m, ticks, tick, CYRILLIC), NameTooLong);
  }

  /** A file whose one event is refused is refused. */
  lemma OnlyEventRefused(log: ReplayLog, error: Error)
    requires TypedLog(log) && 0 < log.tickRate < 0x1_0000_0000 && |log.events| == 1
    requires ParseEvent(EventBytes(log.events[0]), VERSION) == Err(error)
    ensures DecodedLog(EncodedLog(log)) == Err(error)
  {
    HeaderBack(log, VERSION);
    EncodedNow(log);
    EventsAsNow(log.events);
    OneEvent(log.events, error);
    hide Get32, Get64, ParseEvents, EventsBytes, EventsAs, EncodedAs, EncodedLog, ToI64, Typed, FlagBytes, Said;
  }

  lemma OneEvent(es: seq<Logged>, error: Error)
    requires |es| == 1 && Typed(es[0]) && ParseEvent(EventBytes(es[0]), VERSION) == Err(error)
    ensures ParseEvents(EventsBytes(es), 1, VERSION) == Err(error)
  {
    hide ParseEvent, EventBytes, Typed;
    assert EventsBytes(es[1..]) == [];
    assert EventsBytes(es) == EventBytes(es[0]) + [];
    assert EventBytes(es[0]) + [] == EventBytes(es[0]);
  }

  lemma LongJoinRefused(tick: nat, name: Bytes)
    requires tick < 0x1_0000_0000 && C.MAX_NAME_LEN < |name| < 256
    ensures ParseEvent(EventBytes(Joined(tick, name)), VERSION) == Err(NameTooLong)
  {
    var b := EventBytes(Joined(tick, name));
    assert b[4] == KIND_JOIN && b[5..][0] == |name| % 256 by {
      hide Put32;
    }
    hide Get32, EventBytes;
  }

  lemma NineRunes()
    ensures Runes(CYRILLIC) == 9
  {
    TwoByteRunes(CYRILLIC);
  }

  lemma {:induction false} TwoByteRunes(name: Bytes)
    requires |name| % 2 == 0 && forall i :: 0 <= i < |name| ==> (name[i] / 64 == 2 <==> i % 2 == 1)
    ensures Runes(name) == |name| / 2
    decreases |name|
  {
    if name != [] {
      var rest := name[1..][1..];
      assert forall i :: 0 <= i < |rest| ==> rest[i] == name[i + 2];
      TwoByteRunes(rest);
    }
  }
}

/** What clients send, internal/protocol/codec.go: inputs and the join message. UTF-8
    validity is a parameter. */
module ClientCodec {
  import opened Wire
  import opened Movement

  datatype Error = EmptyMessage | ShortMessage | UnknownType | NameTooLong | TokenTooLong | Malformed

  datatype Result<+T> = Ok(value: T) | Err(error: Error)

  const MSG_INPUT: U8 := 0x01
  const MSG_JOIN: U8 := 0x02
  const MAX_NAME_LEN := 16
  const MAX_TOKEN_LEN := 512
  const INPUT_BODY := 15

  /** An input whose numbers fit their wire fields. */
  type WireInput = i: Input |
    i.seq_ < 0x1_0000_0000 && i.viewTick < 0x1_0000_0000 && i.ackTick < 0x1_0000_0000
    witness Input(0, 0, 0, 0, 0, 0)

  datatype Join = Join(name: Bytes, token: Bytes, spectator: bool)

  datatype ClientMessage = IsInput(input: WireInput) | IsJoin(join: Join)

  // ----- encoding

  function InputBody(i: WireInput): (b: Bytes)
    ensures |b| == INPUT_BODY
  {
    Put32(i.seq_) + [i.buttons] + Put16(i.aim) + Put32(i.viewTick) + Put32(i.ackTick)
  }

  /** Where the fields of an input lie. */
  lemma InputLayout(i: WireInput)
    ensures var b := InputBody(i);
      && |b| == 15 && b[0..4] == Put32(i.seq_) && b[4] == i.buttons && b[5..7] == Put16(i.aim)
      && b[7..11] == Put32(i.viewTick) && b[11..15] == Put32(i.ackTick)
  {
    hide Put32, Put16;
  }

  method AppendInput(dst: Bytes, i: WireInput) returns (out: Bytes)
    ensures out == dst + ([MSG_INPUT] + InputBody(i) + [i.actions])
  {
    hide Put32, Put16;
    out := dst + [MSG_INPUT];
    out := out + Put32(i.seq_);
    out := out + [i.buttons];
    out := out + Put16(i.aim);
    out := out + Put32(i.viewTick);
    out := out + Put32(i.ackTick);
    out := out + [i.actions];
  }

  predicate JoinFits(j: Join) {
    |j.name| <= MAX_NAME_LEN && |j.token| <= MAX_TOKEN_LEN
  }

  function JoinMessage(j: Join): Bytes
    requires JoinFits(j)
  {
    [MSG_JOIN, |j.name|] + j.name + Put16(|j.token|) + j.token + [if j.spectator then 1 else 0]
  }

  function EncodeJoin(j: Join): Result<Bytes> {
    if JoinFits(j) then Ok(JoinMessage(j)) else Err(if |j.name| > MAX_NAME_LEN then NameTooLong else TokenTooLong)
  }

  method AppendJoin(dst: Bytes, j: Join) returns (r: Result<Bytes>)
    ensures r == match EncodeJoin(j) { case Ok(b) => Ok(dst + b) case Err(e) => Err(e) }
  {
    hide Put16;
    if |j.name| > MAX_NAME_LEN {
      return Err(NameTooLong);
    }
    if |j.token| > MAX_TOKEN_LEN {
      return Err(TokenTooLong);
    }
    var out := dst + [MSG_JOIN, |j.name|];
    out := out + j.name;
    out := out + Put16(|j.token|);
    out := out + j.token;
    var spec: U8 := 0;
    if j.spectator {
      spec := 1;
    }
    out := out + [spec];
    assert out == dst + JoinMessage(j);
    r := Ok(out);
  }

  // ----- decoding

  function DecodeInput(body: Bytes): Result<WireInput> {
    if |body| < INPUT_BODY then Err(ShortMessage)
    else Ok(Input(Get32(body, 0), body[4], Get16(body, 5), Get32(body, 7), Get32(body, 11),
                  if |body| >= INPUT_BODY + 1 then body[INPUT_BODY] else 0))
  }

  function DecodeToken(name: Bytes, rest: Bytes, valid: Bytes -> bool): Result<Join> {
    if |rest| < 2 then Err(ShortMessage)
    else
      var tn: int := Get16(rest, 0);
      if tn > MAX_TOKEN_LEN then Err(TokenTooLong)
      else if |rest| < 2 + tn then Err(ShortMessage)
      else if !valid(rest[2..2 + tn]) then Err(Malformed)
      else Ok(Join(name, rest[2..2 + tn], |rest| > 2 + tn && rest[2 + tn] != 0))
  }

  function DecodeJoin(body: Bytes, valid: Bytes -> bool): Result<Join> {
    if |body| < 1 then Err(ShortMessage)
    else
      var n: int := body[0];
      if n > MAX_NAME_LEN then Err(NameTooLong)
      else if |body| < 1 + n then Err(ShortMessage)
      else if !valid(body[1..1 + n]) then Err(Malformed)
      else DecodeToken(body[1..1 + n], body[1 + n..], valid)
  }

  function DecodeClient(data: Bytes, valid: Bytes -> bool): Result<ClientMessage> {
    if |data| == 0 then Err(EmptyMessage)
    else if data[0] == MSG_INPUT then
      (match DecodeInput(data[1..])
       case Ok(i) => Ok(IsInput(i))
       case Err(e) => Err(e))
    else if data[0] == MSG_JOIN then
      (match DecodeJoin(data[1..], valid)
       case Ok(j) => Ok(IsJoin(j))
       case Err(e) => Err(e))
    else Err(UnknownType)
  }

  // ----- round trips

  lemma BodyRoundTrip(i: WireInput, rest: Bytes)
    ensures DecodeInput(InputBody(i) + rest) == Ok(if rest == [] then i.(actions := 0) else i.(actions := rest[0]))
  {
    var b := InputBody(i) + rest;
    hide Put32, Put16, Get32, Get16;
    assert b[0..4] == Put32(i.seq_);
    assert b[5..7] == Put16(i.aim);
    assert b[7..11] == Put32(i.viewTick);
    assert b[11..15] == Put32(i.ackTick);
    Get32Of(b, 0, i.seq_);
    Get16Of(b, 5, i.aim);
    Get32Of(b, 7, i.viewTick);
    Get32Of(b, 11, i.ackTick);
  }

  /** An input decodes to itself, whatever follows it; an input of the older layout, which
      ends before the actions byte, decodes with no actions. */
  lemma InputRoundTrip(i: WireInput, rest: Bytes, valid: Bytes -> bool)
    ensures DecodeClient([MSG_INPUT] + InputBody(i) + [i.actions] + rest, valid) == Ok(IsInput(i))
    ensures DecodeClient([MSG_INPUT] + InputBody(i), valid) == Ok(IsInput(i.(actions := 0)))
  {
    BodyRoundTrip(i, [i.actions] + rest);
    BodyRoundTrip(i, []);
    hide InputBody, DecodeInput;
    assert ([MSG_INPUT] + InputBody(i) + [i.actions] + rest)[1..] == InputBody(i) + ([i.actions] + rest);
    assert ([MSG_INPUT] + InputBody(i))[1..] == InputBody(i) + [];
  }

  lemma TokenRoundTrip(j: Join, rest: Bytes, valid: Bytes -> bool)
    requires |j.token| <= MAX_TOKEN_LEN
    ensures var tail := Put16(|j.token|) + j.token + [if j.spectator then 1 else 0] + rest;
      DecodeToken(j.name, tail, valid) == if valid(j.token) then Ok(j) else Err(Malformed)
  {
    var tail := Put16(|j.token|) + j.token + [if j.spectator then 1 else 0] + rest;
    hide Put16, Get16;
    assert tail[0..2] == Put16(|j.token|);
    Get16Of(tail, 0, |j.token|);
    assert tail[2..2 + |j.token|] == j.token;
  }

  lemma JoinLayout(j: Join, rest: Bytes)
    requires JoinFits(j)
    ensures var data := JoinMessage(j) + rest;
      var body := data[1..];
      && data[0] == MSG_JOIN && body[0] == |j.name| && |body| >= 1 + |j.name| && body[1..1 + |j.name|] == j.name
      && body[1 + |j.name|..] == Put16(|j.token|) + j.token + [if j.spectator then 1 else 0] + rest
  {
    hide Put16;
    var (data, n) := (JoinMessage(j) + rest, [|j.name|]);
    var tail := Put16(|j.token|) + j.token + [if j.spectator then 1 else 0] + rest;
    assert data == [MSG_JOIN] + (n + j.name + tail);
    assert data[1..] == n + j.name + tail;
    NameAndTail(n, j.name, tail);
  }

  lemma NameAndTail(n: Bytes, name: Bytes, tail: Bytes)
    ensures var b := n + name + tail; b[|n|..|n| + |name|] == name && b[|n| + |name|..] == tail
  {
  }

  lemma JoinDecoded(j: Join, rest: Bytes, valid: Bytes -> bool)
    requires JoinFits(j)
    ensures DecodeClient(JoinMessage(j) + rest, valid)
         == if valid(j.name) && valid(j.token) then Ok(IsJoin(j)) else Err(Malformed)
  {
    JoinLayout(j, rest);
    TokenRoundTrip(j, rest, valid);
    hide Put16, DecodeToken, JoinMessage;
  }

  /** Encoding a join and decoding it again gives the join back exactly when name and
      token are short enough and valid UTF-8. */
  lemma JoinRoundTrip(j: Join, valid: Bytes -> bool)
    ensures var e := EncodeJoin(j);
      (e.Ok? && DecodeClient(e.value, valid) == Ok(IsJoin(j))) <==> JoinFits(j) && valid(j.name) && valid(j.token)
  {
    if JoinFits(j) {
      JoinDecoded(j, [], valid);
      assert JoinMessage(j) + [] == JoinMessage(j);
    }
    hide DecodeClient, JoinMessage;
  }

  /** Whatever the decoder accepts as a join, the encoder accepts too, and it comes back. */
  lemma AcceptedJoinsFit(data: Bytes, valid: Bytes -> bool)
    requires var r := DecodeClient(data, valid); r.Ok? && r.value.IsJoin?
    ensures var j := DecodeClient(data, valid).value.join;
      JoinFits(j) && DecodeClient(JoinMessage(j), valid) == Ok(IsJoin(j))
  {
    var j := DecodeClient(data, valid).value.join;
    hide Get16, Put16, JoinMessage;
    assert valid(j.name) && valid(j.token);
    JoinDecoded(j, [], valid);
    assert JoinMessage(j) + [] == JoinMessage(j);
  }
}

/**
  The framework's wire envelopes: bincode's standard varints, the five message
  families and the two-pass decoder (crates/synctick/src/protocol.rs).

  `Encode` and the `Read...` functions say what bytes mean; class `Cursor` and
  method `DecodeEnvelope` are the step-by-step decoder, proved equal to them.
*/
module Envelope {
  import opened Bytes

  const MAX_REPLAY_RECORD_BYTES: nat := 0x4_0000
  const MAX_SAVE_CHUNK_BYTES: nat := 0x4_0000

  datatype Participant = Host | Remote(id: u64)
  datatype Command = Command(participant: Participant, payload: seq<byte>)
  datatype TickAdvance = TickAdvance(tick: u64, inputs: seq<Command>)
  datatype SaveMetadata = SaveMetadata(totalBytes: u64, tick: u64, hash: u64)
  datatype Report = Report(tick: u64, hash: u64)

  datatype ClientMessage =
    | Input(payload: seq<byte>)
    | Progress(receivedBytes: u64, replayedTick: u64)
    | Ready(tick: u64, hash: u64)
  datatype ServerMessage = Start(tick: u64, hash: u64) | Tick(advance: TickAdvance)
  datatype SaveMessage = Begin(metadata: SaveMetadata) | Chunk(bytes: seq<byte>)

  /** Which of the five decoders is applied, and what it yields. */
  datatype Kind = ClientKind | ServerKind | SaveKind | ReportKind | TickKind
  datatype Message =
    | OfClient(client: ClientMessage)
    | OfServer(server: ServerMessage)
    | OfSave(save: SaveMessage)
    | OfReport(report: Report)
    | OfTick(tick: TickAdvance)

  datatype DecodeError =
    | UnexpectedEnd | InvalidInteger | CollectionTooLong | CommandTooLarge
    | TickTooLarge | BadChunkSize | BadVariant | TrailingBytes

  type Reading<T> = Result<(T, seq<byte>), DecodeError>

  // ----- Encoding -----

  /** bincode's standard integer: one byte below 251, else a marker and 2, 4 or 8 bytes. */
  function Varint(n: nat): (b: seq<byte>)
    ensures 1 <= |b| <= 9
    ensures n < 251 ==> |b| == 1
    ensures n <= U16_MAX ==> |b| <= 3
    ensures n <= U32_MAX ==> |b| <= 5
  {
    if n < 251 then [n as byte]
    else if n <= U16_MAX then [251] + LeBytes(n, 2)
    else if n <= U32_MAX then [252] + LeBytes(n, 4)
    else [253] + LeBytes(n, 8)
  }

  function EncodePayload(payload: seq<byte>): seq<byte> { Varint(|payload|) + payload }

  function EncodeParticipant(p: Participant): seq<byte> {
    match p
    case Host => Varint(0)
    case Remote(id) => Varint(1) + Varint(id)
  }

  function EncodeCommand(c: Command): seq<byte> {
    EncodeParticipant(c.participant) + EncodePayload(c.payload)
  }

  function EncodeInputs(inputs: seq<Command>): seq<byte> {
    if inputs == [] then [] else EncodeCommand(inputs[0]) + EncodeInputs(inputs[1..])
  }

  function EncodeTick(t: TickAdvance): seq<byte> {
    Varint(t.tick) + (Varint(|t.inputs|) + EncodeInputs(t.inputs))
  }

  function EncodeSave(m: SaveMessage): seq<byte> {
    match m
    case Begin(md) => Varint(0) + (Varint(md.totalBytes) + (Varint(md.tick) + Varint(md.hash)))
    case Chunk(bytes) => Varint(1) + EncodePayload(bytes)
  }

  function Encode(m: Message): seq<byte> {
    match m
    case OfClient(Input(p)) => Varint(0) + EncodePayload(p)
    case OfClient(Progress(r, t)) => Varint(1) + (Varint(r) + Varint(t))
    case OfClient(Ready(t, h)) => Varint(2) + (Varint(t) + Varint(h))
    case OfServer(Start(t, h)) => Varint(0) + (Varint(t) + Varint(h))
    case OfServer(Tick(advance)) => Varint(1) + EncodeTick(advance)
    case OfSave(s) => EncodeSave(s)
    case OfReport(r) => Varint(r.tick) + Varint(r.hash)
    case OfTick(advance) => EncodeTick(advance)
  }

  function KindOf(m: Message): Kind {
    match m
    case OfClient(_) => ClientKind
    case OfServer(_) => ServerKind
    case OfSave(_) => SaveKind
    case OfReport(_) => ReportKind
    case OfTick(_) => TickKind
  }

  // ----- Reading -----

  function MarkedSize(marker: byte, width: nat): nat {
    if marker == 251 then 2
    else if marker == 252 then 4
    else if marker == 253 && width == 8 then 8
    else 0
  }

  /** One bincode integer of a `u32` (width 4) or `u64` (width 8). */
  function ReadScalar(width: nat, b: seq<byte>): (r: Reading<u64>)
    ensures width == 4 && r.Ok? ==> r.value.0 <= U32_MAX
  {
    if b == [] then Err(UnexpectedEnd)
    else if b[0] < 251 then Ok((b[0] as int, b[1..]))
    else
      var size := MarkedSize(b[0], width);
      if size == 0 then Err(InvalidInteger)
      else if |b| < 1 + size then Err(UnexpectedEnd)
      else
        Widths();
        Ok((LeValue(b[1..1 + size]), b[1 + size..]))
  }

  function ReadLength(b: seq<byte>): Reading<nat> {
    var (length, rest) :- ReadScalar(8, b);
    if length > |rest| then Err(CollectionTooLong) else Ok((length, rest))
  }

  function ReadPayload(b: seq<byte>, materialize: bool): Reading<seq<byte>> {
    var (length, rest) :- ReadLength(b);
    if length > MAX_PAYLOAD_BYTES then Err(CommandTooLarge)
    else Ok((if materialize then rest[..length] else [], rest[length..]))
  }

  function ReadChunk(b: seq<byte>, materialize: bool): Reading<seq<byte>> {
    var (length, rest) :- ReadLength(b);
    if length == 0 || length > MAX_SAVE_CHUNK_BYTES then Err(BadChunkSize)
    else Ok((if materialize then rest[..length] else [], rest[length..]))
  }

  function ReadParticipant(b: seq<byte>): Reading<Participant> {
    var (variant, rest) :- ReadScalar(4, b);
    if variant == 0 then Ok((Host, rest))
    else if variant == 1 then
      var (id, rest') :- ReadScalar(8, rest);
      Ok((Remote(id), rest'))
    else Err(BadVariant)
  }

  function ReadCommand(b: seq<byte>, materialize: bool): Reading<Command> {
    var (participant, rest) :- ReadParticipant(b);
    var (payload, rest') :- ReadPayload(rest, materialize);
    Ok((Command(participant, payload), rest'))
  }

  function ReadInputs(count: nat, b: seq<byte>, materialize: bool): Reading<seq<Command>> {
    if count == 0 then Ok(([], b))
    else
      var (command, rest) :- ReadCommand(b, materialize);
      var (commands, rest') :- ReadInputs(count - 1, rest, materialize);
      Ok((if materialize then [command] + commands else [], rest'))
  }

  function ReadTick(b: seq<byte>, materialize: bool): Reading<TickAdvance> {
    var (tick, rest) :- ReadScalar(8, b);
    var (count, rest') :- ReadLength(rest);
    var (inputs, rest'') :- ReadInputs(count, rest', materialize);
    Ok((TickAdvance(tick, inputs), rest''))
  }

  function ReadPair(b: seq<byte>): Reading<(u64, u64)> {
    var (first, rest) :- ReadScalar(8, b);
    var (second, rest') :- ReadScalar(8, rest);
    Ok(((first, second), rest'))
  }

  function ReadBody(kind: Kind, b: seq<byte>, materialize: bool): (r: Reading<Message>)
    ensures r.Ok? ==> KindOf(r.value.0) == kind
  {
    match kind
    case ReportKind =>
      var (pair, rest) :- ReadPair(b);
      Ok((OfReport(Report(pair.0, pair.1)), rest))
    case TickKind =>
      var (advance, rest) :- ReadTick(b, materialize);
      Ok((OfTick(advance), rest))
    case _ =>
      var (variant, rest) :- ReadScalar(4, b);
      ReadVariant(kind, variant, rest, materialize)
  }

  function ReadVariant(kind: Kind, variant: u64, b: seq<byte>, materialize: bool): (r: Reading<Message>)
    ensures r.Ok? ==> KindOf(r.value.0) == kind
  {
    match (kind, variant)
    case (ClientKind, 0) =>
      var (payload, rest) :- ReadPayload(b, materialize);
      Ok((OfClient(Input(payload)), rest))
    case (ClientKind, 1) =>
      var (pair, rest) :- ReadPair(b);
      Ok((OfClient(Progress(pair.0, pair.1)), rest))
    case (ClientKind, 2) =>
      var (pair, rest) :- ReadPair(b);
      Ok((OfClient(Ready(pair.0, pair.1)), rest))
    case (ServerKind, 0) =>
      var (pair, rest) :- ReadPair(b);
      Ok((OfServer(Start(pair.0, pair.1)), rest))
    case (ServerKind, 1) =>
      var (advance, rest) :- ReadTick(b, materialize);
      Ok((OfServer(Tick(advance)), rest))
    case (SaveKind, 0) =>
      var (total, rest) :- ReadScalar(8, b);
      var (pair, rest') :- ReadPair(rest);
      Ok((OfSave(Begin(SaveMetadata(total, pair.0, pair.1))), rest'))
    case (SaveKind, 1) =>
      var (bytes, rest) :- ReadChunk(b, materialize);
      Ok((OfSave(Chunk(bytes)), rest))
    case _ => Err(BadVariant)
  }

  function Pass(kind: Kind, b: seq<byte>, materialize: bool): Result<Message, DecodeError> {
    var (message, rest) :- ReadBody(kind, b, materialize);
    if rest != [] then Err(TrailingBytes) else Ok(message)
  }

  /** What each `decode_*` returns: the result of the materialising pass, after the size gate. */
  function Decode(kind: Kind, b: seq<byte>): (r: Result<Message, DecodeError>)
    ensures r.Ok? ==> KindOf(r.value) == kind
  {
    if (kind == ServerKind || kind == TickKind) && |b| > MAX_REPLAY_RECORD_BYTES then Err(TickTooLarge)
    else Pass(kind, b, true)
  }

  /** No collection is announced longer than the bytes that are left for it. */
  lemma LengthsAreCovered(b: seq<byte>)
    ensures ReadLength(b).Ok? ==> ReadLength(b).value.0 <= |ReadLength(b).value.1| < |b|
  {
  }

  // ----- The validating pass takes the same steps as the materialising one -----

  /** Two readings that reject alike, or consume the same bytes. */
  ghost predicate SameSteps<T>(x: Reading<T>, y: Reading<T>) {
    match (x, y)
    case (Ok((_, r)), Ok((_, r'))) => r == r'
    case (Err(e), Err(e')) => e == e'
    case _ => false
  }

  lemma CommandPassesAgree(b: seq<byte>)
    ensures SameSteps(ReadCommand(b, false), ReadCommand(b, true))
  {
  }

  lemma {:induction false} InputPassesAgree(count: nat, b: seq<byte>)
    ensures SameSteps(ReadInputs(count, b, false), ReadInputs(count, b, true))
  {
    hide ReadCommand;
    CommandPassesAgree(b);
    if count > 0 && ReadCommand(b, true).Ok? {
      InputPassesAgree(count - 1, ReadCommand(b, true).value.1);
    }
  }

  lemma PassesAgree(kind: Kind, b: seq<byte>)
    ensures SameSteps(ReadBody(kind, b, false), ReadBody(kind, b, true))
  {
    forall count: nat, rest ensures SameSteps(ReadInputs(count, rest, false), ReadInputs(count, rest, true)) {
      InputPassesAgree(count, rest);
    }
    forall rest ensures SameSteps(ReadTick(rest, false), ReadTick(rest, true)) {
    }
  }

  // ----- Decode after encode -----

  lemma ReadScalarOfVarint(width: nat, n: u64, rest: seq<byte>)
    requires width == 4 || width == 8
    requires width == 4 ==> n <= U32_MAX
    ensures ReadScalar(width, Varint(n) + rest) == Ok((n, rest))
  {
    var b := Varint(n) + rest;
    Widths();
    if n < 251 {
      assert b[1..] == rest;
    } else {
      var size := |Varint(n)| - 1;
      assert b[1..1 + size] == LeBytes(n, size);
      assert b[1 + size..] == rest;
      LeValueOfBytes(n, size);
    }
  }

  lemma ReadPairOfVarints(x: u64, y: u64, rest: seq<byte>)
    ensures ReadPair(Varint(x) + (Varint(y) + rest)) == Ok(((x, y), rest))
  {
    ReadScalarOfVarint(8, x, Varint(y) + rest);
    ReadScalarOfVarint(8, y, rest);
  }

  lemma ReadLengthOfPayload(p: seq<byte>, rest: seq<byte>)
    requires |p| <= U64_MAX
    ensures ReadLength(EncodePayload(p) + rest) == Ok((|p|, p + rest))
  {
    assert EncodePayload(p) + rest == Varint(|p|) + (p + rest);
    ReadScalarOfVarint(8, |p|, p + rest);
  }

  lemma ReadPayloadOfEncoding(p: seq<byte>, rest: seq<byte>)
    requires |p| <= U64_MAX
    ensures ReadPayload(EncodePayload(p) + rest, true)
         == if |p| <= MAX_PAYLOAD_BYTES then Ok((p, rest)) else Err(CommandTooLarge)
  {
    ReadLengthOfPayload(p, rest);
    assert (p + rest)[..|p|] == p;
    assert (p + rest)[|p|..] == rest;
  }

  lemma ReadParticipantOfEncoding(p: Participant, rest: seq<byte>)
    ensures ReadParticipant(EncodeParticipant(p) + rest) == Ok((p, rest))
  {
    match p
    case Host => ReadScalarOfVarint(4, 0, rest);
    case Remote(id) =>
      assert EncodeParticipant(p) + rest == Varint(1) + (Varint(id) + rest);
      ReadScalarOfVarint(4, 1, Varint(id) + rest);
      ReadScalarOfVarint(8, id, rest);
  }

  lemma ReadCommandOfEncoding(c: Command, rest: seq<byte>)
    requires |c.payload| <= U64_MAX
    ensures ReadCommand(EncodeCommand(c) + rest, true)
         == if |c.payload| <= MAX_PAYLOAD_BYTES then Ok((c, rest)) else Err(CommandTooLarge)
  {
    var tail := EncodePayload(c.payload) + rest;
    assert EncodeCommand(c) + rest == EncodeParticipant(c.participant) + tail;
    ReadParticipantOfEncoding(c.participant, tail);
    ReadPayloadOfEncoding(c.payload, rest);
  }

  /** Every payload fits the command budget. */
  ghost predicate PayloadsFit(inputs: seq<Command>) {
    forall i :: 0 <= i < |inputs| ==> |inputs[i].payload| <= MAX_PAYLOAD_BYTES
  }

  /** Lengths are `usize` values; a longer collection cannot exist in memory. */
  ghost predicate Addressable(inputs: seq<Command>) {
    |inputs| <= U64_MAX && forall i :: 0 <= i < |inputs| ==> |inputs[i].payload| <= U64_MAX
  }

  lemma HeadTailFit(inputs: seq<Command>)
    requires inputs != []
    ensures PayloadsFit(inputs) <==> |inputs[0].payload| <= MAX_PAYLOAD_BYTES && PayloadsFit(inputs[1..])
    ensures Addressable(inputs) ==> |inputs[0].payload| <= U64_MAX && Addressable(inputs[1..])
  {
    assert forall i :: 0 < i < |inputs| ==> inputs[i] == inputs[1..][i - 1];
  }

  lemma ReadFirstOfEncoding(inputs: seq<Command>, rest: seq<byte>)
    requires inputs != [] && |inputs[0].payload| <= U64_MAX
    ensures ReadCommand(EncodeInputs(inputs) + rest, true)
         == if |inputs[0].payload| <= MAX_PAYLOAD_BYTES then Ok((inputs[0], EncodeInputs(inputs[1..]) + rest))
            else Err(CommandTooLarge)
  {
    hide ReadCommand, EncodeCommand;
    var others := EncodeInputs(inputs[1..]);
    Regroup(EncodeCommand(inputs[0]), others, rest);
    ReadCommandOfEncoding(inputs[0], others + rest);
  }

  lemma ReadInputsCons(c: Command, others: seq<Command>, b: seq<byte>, mid: seq<byte>, rest: seq<byte>)
    requires ReadCommand(b, true) == Ok((c, mid))
    requires ReadInputs(|others|, mid, true) == Ok((others, rest))
    ensures ReadInputs(|others| + 1, b, true) == Ok(([c] + others, rest))
  {
  }

  lemma ReadNoInputs(rest: seq<byte>)
    ensures ReadInputs(0, EncodeInputs([]) + rest, true) == Ok(([], rest))
  {
    assert [] + rest == rest;
  }

  lemma {:induction false} ReadInputsOfEncoding(inputs: seq<Command>, rest: seq<byte>)
    requires PayloadsFit(inputs)
    ensures ReadInputs(|inputs|, EncodeInputs(inputs) + rest, true) == Ok((inputs, rest))
    decreases |inputs|
  {
    hide ReadCommand, ReadInputs, EncodeInputs;
    if inputs == [] {
      ReadNoInputs(rest);
    } else {
      var (c, others) := (inputs[0], inputs[1..]);
      HeadTailFit(inputs);
      ReadFirstOfEncoding(inputs, rest);
      ReadInputsOfEncoding(others, rest);
      ReadInputsCons(c, others, EncodeInputs(inputs) + rest, EncodeInputs(others) + rest, rest);
      assert inputs == [c] + others;
    }
  }

  lemma ReadInputsRejects(count: nat, b: seq<byte>, e: DecodeError)
    requires count > 0
    requires ReadCommand(b, true) == Err(e)
          || (ReadCommand(b, true).Ok? && ReadInputs(count - 1, ReadCommand(b, true).value.1, true) == Err(e))
    ensures ReadInputs(count, b, true) == Err(e)
  {
  }

  lemma {:induction false} OversizedInputRejected(inputs: seq<Command>, rest: seq<byte>)
    requires Addressable(inputs) && !PayloadsFit(inputs)
    ensures ReadInputs(|inputs|, EncodeInputs(inputs) + rest, true) == Err(CommandTooLarge)
  {
    HeadTailFit(inputs);
    hide ReadCommand, EncodeInputs, ReadInputs, PayloadsFit, Addressable;
    ReadFirstOfEncoding(inputs, rest);
    if |inputs[0].payload| <= MAX_PAYLOAD_BYTES {
      OversizedInputRejected(inputs[1..], rest);
    }
    ReadInputsRejects(|inputs|, EncodeInputs(inputs) + rest, CommandTooLarge);
  }

  lemma {:induction false} EncodeInputsLength(inputs: seq<Command>)
    ensures |EncodeInputs(inputs)| >= 2 * |inputs|
  {
    if inputs != [] {
      EncodeInputsLength(inputs[1..]);
    }
  }

  lemma ReadTickOfEncoding(t: TickAdvance, rest: seq<byte>)
    requires Addressable(t.inputs)
    ensures ReadTick(EncodeTick(t) + rest, true)
         == if PayloadsFit(t.inputs) then Ok((t, rest)) else Err(CommandTooLarge)
  {
    var body := EncodeInputs(t.inputs) + rest;
    assert EncodeTick(t) + rest == Varint(t.tick) + (Varint(|t.inputs|) + body);
    ReadScalarOfVarint(8, t.tick, Varint(|t.inputs|) + body);
    ReadScalarOfVarint(8, |t.inputs|, body);
    EncodeInputsLength(t.inputs);
    if PayloadsFit(t.inputs) {
      ReadInputsOfEncoding(t.inputs, rest);
    } else {
      OversizedInputRejected(t.inputs, rest);
    }
  }

  /** Exactly the messages whose own decoder accepts their encoding. */
  ghost predicate WithinBudget(m: Message) {
    match m
    case OfClient(Input(p)) => |p| <= MAX_PAYLOAD_BYTES
    case OfSave(Chunk(bytes)) => 1 <= |bytes| <= MAX_SAVE_CHUNK_BYTES
    case OfServer(Tick(advance)) => |Encode(m)| <= MAX_REPLAY_RECORD_BYTES && PayloadsFit(advance.inputs)
    case OfTick(advance) => |Encode(m)| <= MAX_REPLAY_RECORD_BYTES && PayloadsFit(advance.inputs)
    case _ => true
  }

  ghost predicate Representable(m: Message) {
    match m
    case OfClient(Input(p)) => |p| <= U64_MAX
    case OfSave(Chunk(bytes)) => |bytes| <= U64_MAX
    case OfServer(Tick(advance)) => Addressable(advance.inputs)
    case OfTick(advance) => Addressable(advance.inputs)
    case _ => true
  }

  lemma ReadClientOfEncoding(m: ClientMessage)
    requires Representable(OfClient(m))
    ensures ReadBody(ClientKind, Encode(OfClient(m)), true)
         == if WithinBudget(OfClient(m)) then Ok((OfClient(m), [])) else Err(CommandTooLarge)
  {
    match m
    case Input(p) =>
      ReadScalarOfVarint(4, 0, EncodePayload(p));
      ReadLengthOfPayload(p, []);
      assert EncodePayload(p) + [] == EncodePayload(p);
      assert p + [] == p && p[..|p|] == p && p[|p|..] == [];
    case Progress(r, t) =>
      ReadScalarOfVarint(4, 1, Varint(r) + Varint(t));
      ReadPairOfVarints(r, t, []);
      assert Varint(t) + [] == Varint(t);
    case Ready(t, h) =>
      ReadScalarOfVarint(4, 2, Varint(t) + Varint(h));
      ReadPairOfVarints(t, h, []);
      assert Varint(h) + [] == Varint(h);
  }

  lemma ReadServerOfEncoding(m: ServerMessage)
    requires Representable(OfServer(m))
    ensures ReadBody(ServerKind, Encode(OfServer(m)), true)
         == if m.Start? || PayloadsFit(m.advance.inputs) then Ok((OfServer(m), [])) else Err(CommandTooLarge)
  {
    match m
    case Start(t, h) =>
      ReadScalarOfVarint(4, 0, Varint(t) + Varint(h));
      ReadPairOfVarints(t, h, []);
      assert Varint(h) + [] == Varint(h);
    case Tick(advance) =>
      ReadScalarOfVarint(4, 1, EncodeTick(advance));
      ReadTickOfEncoding(advance, []);
      assert EncodeTick(advance) + [] == EncodeTick(advance);
  }

  lemma ReadSaveOfEncoding(m: SaveMessage)
    requires Representable(OfSave(m))
    ensures ReadBody(SaveKind, Encode(OfSave(m)), true)
         == if WithinBudget(OfSave(m)) then Ok((OfSave(m), [])) else Err(BadChunkSize)
  {
    match m
    case Begin(md) =>
      var tail := Varint(md.tick) + Varint(md.hash);
      ReadScalarOfVarint(4, 0, Varint(md.totalBytes) + tail);
      ReadScalarOfVarint(8, md.totalBytes, tail);
      ReadPairOfVarints(md.tick, md.hash, []);
      assert Varint(md.hash) + [] == Varint(md.hash);
    case Chunk(p) =>
      ReadScalarOfVarint(4, 1, EncodePayload(p));
      ReadLengthOfPayload(p, []);
      assert EncodePayload(p) + [] == EncodePayload(p);
      assert p + [] == p && p[..|p|] == p && p[|p|..] == [];
  }

  lemma ReadFixedOfEncoding(m: Message)
    requires Representable(m) && (m.OfReport? || m.OfTick?)
    ensures ReadBody(KindOf(m), Encode(m), true)
         == if m.OfReport? || PayloadsFit(m.tick.inputs) then Ok((m, [])) else Err(CommandTooLarge)
  {
    match m
    case OfReport(r) =>
      ReadPairOfVarints(r.tick, r.hash, []);
      assert Varint(r.hash) + [] == Varint(r.hash);
    case OfTick(t) =>
      ReadTickOfEncoding(t, []);
      assert EncodeTick(t) + [] == EncodeTick(t);
  }

  lemma DecodeAfterEncode(m: Message)
    requires Representable(m)
    ensures Decode(KindOf(m), Encode(m)) == Ok(m) <==> WithinBudget(m)
    ensures Decode(KindOf(m), Encode(m)).Ok? ==> WithinBudget(m)
  {
    hide ReadBody, EncodeTick, EncodeSave, EncodePayload;
    match m
    case OfClient(c) => ReadClientOfEncoding(c);
    case OfServer(s) => ReadServerOfEncoding(s);
    case OfSave(s) => ReadSaveOfEncoding(s);
    case _ => ReadFixedOfEncoding(m);
  }

  /** The limits of the protocol in bytes: 64 KiB a command, 1 byte to 256 KiB a chunk, 256 KiB a tick. */
  lemma Limits(m: Message)
    requires Representable(m)
    ensures Decode(KindOf(m), Encode(m)).Ok? <==>
      match m
      case OfClient(Input(p)) => |p| <= 65536
      case OfSave(Chunk(bytes)) => 1 <= |bytes| <= 262144
      case OfServer(Tick(t)) =>
        |Encode(m)| <= 262144 && forall i :: 0 <= i < |t.inputs| ==> |t.inputs[i].payload| <= 65536
      case OfTick(t) =>
        |Encode(m)| <= 262144 && forall i :: 0 <= i < |t.inputs| ==> |t.inputs[i].payload| <= 65536
      case _ => true
  {
    hide Encode, Decode;
    DecodeAfterEncode(m);
  }

  // ----- No accepted envelope is a prefix of another -----

  /** `y` does more reading room only: same value, the extra bytes left over. */
  ghost predicate Extends<T>(x: Reading<T>, y: Reading<T>, extra: seq<byte>) {
    x.Ok? ==> y == Ok((x.value.0, x.value.1 + extra))
  }

  lemma ScalarExtends(width: nat, b: seq<byte>, extra: seq<byte>)
    ensures Extends(ReadScalar(width, b), ReadScalar(width, b + extra), extra)
  {
    if ReadScalar(width, b).Ok? {
      var size := if b[0] < 251 then 0 else MarkedSize(b[0], width);
      assert (b + extra)[1..1 + size] == b[1..1 + size];
      assert (b + extra)[1 + size..] == b[1 + size..] + extra;
    }
  }

  lemma LengthExtends(b: seq<byte>, extra: seq<byte>)
    ensures Extends(ReadLength(b), ReadLength(b + extra), extra)
  {
    ScalarExtends(8, b, extra);
  }

  lemma SliceExtends(length: nat, b: seq<byte>, extra: seq<byte>)
    requires length <= |b|
    ensures (b + extra)[..length] == b[..length]
    ensures (b + extra)[length..] == b[length..] + extra
  {
  }

  lemma PayloadExtends(b: seq<byte>, materialize: bool, extra: seq<byte>)
    ensures Extends(ReadPayload(b, materialize), ReadPayload(b + extra, materialize), extra)
    ensures Extends(ReadChunk(b, materialize), ReadChunk(b + extra, materialize), extra)
  {
    LengthExtends(b, extra);
    if ReadLength(b).Ok? {
      var (length, rest) := ReadLength(b).value;
      SliceExtends(length, rest, extra);
    }
  }

  lemma CommandExtends(b: seq<byte>, materialize: bool, extra: seq<byte>)
    ensures Extends(ReadCommand(b, materialize), ReadCommand(b + extra, materialize), extra)
  {
    ScalarExtends(4, b, extra);
    if ReadParticipant(b).Ok? {
      ScalarExtends(8, ReadScalar(4, b).value.1, extra);
      PayloadExtends(ReadParticipant(b).value.1, materialize, extra);
    }
  }

  lemma {:induction false} InputsExtend(count: nat, b: seq<byte>, materialize: bool, extra: seq<byte>)
    ensures Extends(ReadInputs(count, b, materialize), ReadInputs(count, b + extra, materialize), extra)
  {
    hide ReadCommand;
    if count > 0 {
      CommandExtends(b, materialize, extra);
      if ReadCommand(b, materialize).Ok? {
        InputsExtend(count - 1, ReadCommand(b, materialize).value.1, materialize, extra);
      }
    }
  }

  lemma TickExtends(b: seq<byte>, materialize: bool, extra: seq<byte>)
    ensures Extends(ReadTick(b, materialize), ReadTick(b + extra, materialize), extra)
  {
    ScalarExtends(8, b, extra);
    if ReadScalar(8, b).Ok? {
      var rest := ReadScalar(8, b).value.1;
      LengthExtends(rest, extra);
      if ReadLength(rest).Ok? {
        InputsExtend(ReadLength(rest).value.0, ReadLength(rest).value.1, materialize, extra);
      }
    }
  }

  lemma PairExtends(b: seq<byte>, extra: seq<byte>)
    ensures Extends(ReadPair(b), ReadPair(b + extra), extra)
  {
    ScalarExtends(8, b, extra);
    if ReadScalar(8, b).Ok? {
      ScalarExtends(8, ReadScalar(8, b).value.1, extra);
    }
  }

  lemma MetadataExtends(b: seq<byte>, materialize: bool, extra: seq<byte>)
    ensures Extends(ReadVariant(SaveKind, 0, b, materialize), ReadVariant(SaveKind, 0, b + extra, materialize), extra)
  {
    ScalarExtends(8, b, extra);
    if ReadScalar(8, b).Ok? {
      PairExtends(ReadScalar(8, b).value.1, extra);
    }
  }

  lemma VariantExtends(kind: Kind, variant: u64, b: seq<byte>, materialize: bool, extra: seq<byte>)
    ensures
      Extends(ReadVariant(kind, variant, b, materialize), ReadVariant(kind, variant, b + extra, materialize), extra)
  {
    match (kind, variant)
    case (SaveKind, 0) => MetadataExtends(b, materialize, extra);
    case (SaveKind, 1) => PayloadExtends(b, materialize, extra);
    case (ClientKind, 0) => PayloadExtends(b, materialize, extra);
    case (ClientKind, _) => PairExtends(b, extra);
    case (ServerKind, 0) => PairExtends(b, extra);
    case (ServerKind, 1) => TickExtends(b, materialize, extra);
    case _ =>
  }

  lemma BodyExtends(kind: Kind, b: seq<byte>, materialize: bool, extra: seq<byte>)
    ensures Extends(ReadBody(kind, b, materialize), ReadBody(kind, b + extra, materialize), extra)
  {
    PairExtends(b, extra);
    TickExtends(b, materialize, extra);
    ScalarExtends(4, b, extra);
    if ReadScalar(4, b).Ok? {
      var (variant, rest) := ReadScalar(4, b).value;
      VariantExtends(kind, variant, rest, materialize, extra);
    }
  }

  /** Truncated and padded envelopes are rejected: at most one length of a byte stream is accepted. */
  lemma AcceptedIsPrefixFree(kind: Kind, b: seq<byte>, extra: seq<byte>)
    ensures Decode(kind, b).Ok? && extra != [] ==> Decode(kind, b + extra).Err?
  {
    BodyExtends(kind, b, true, extra);
  }

  // ----- Fixtures -----

  lemma SmallVarint(n: nat)
    ensures n < 251 ==> Varint(n) == [n as byte]
  {
  }

  lemma MarkedVarint()
    ensures Varint(251) == [251, 251, 0]
  {
    assert LeBytes(251, 2) == [251, 0] by {
      assert LeBytes(0, 1) == [0];
    }
  }

  /** The bytes the protocol fixes for one message of each form. */
  lemma Fixtures()
    ensures Encode(OfClient(Input([0]))) == [0, 1, 0]
    ensures Encode(OfClient(Progress(251, 1))) == [1, 251, 251, 0, 1]
    ensures Encode(OfClient(Ready(1, 2))) == [2, 1, 2]
    ensures Encode(OfServer(Start(1, 2))) == [0, 1, 2]
    ensures Encode(OfSave(Begin(SaveMetadata(3, 1, 2)))) == [0, 3, 1, 2]
    ensures Encode(OfSave(Chunk([10, 20]))) == [1, 2, 10, 20]
    ensures Encode(OfReport(Report(1, 2))) == [1, 2]
  {
    hide Varint;
    SmallVarint(0);
    SmallVarint(1);
    SmallVarint(2);
    SmallVarint(3);
    MarkedVarint();
  }

  lemma TickFixture()
    ensures var t := TickAdvance(1, [Command(Host, [0]), Command(Host, [0])]);
      && Encode(OfTick(t)) == [1, 2, 0, 1, 0, 0, 1, 0]
      && Encode(OfServer(Tick(t))) == [1, 1, 2, 0, 1, 0, 0, 1, 0]
  {
    hide Varint;
    SmallVarint(0);
    SmallVarint(1);
    SmallVarint(2);
    var c := Command(Host, [0]);
    assert EncodeCommand(c) == [0, 1, 0];
    assert EncodeInputs([c]) == [0, 1, 0] by {
      assert [c][1..] == [];
    }
    assert [c, c][1..] == [c];
    assert EncodeInputs([c, c]) == [0, 1, 0, 0, 1, 0];
  }

  // ----- The conservative tick budget -----

  /** What `account_input` charges for a tick's inputs: payload plus 32 bytes of framing each. */
  function Charge(inputs: seq<Command>): nat {
    if inputs == [] then 0 else |inputs[0].payload| + 32 + Charge(inputs[1..])
  }

  lemma {:induction false} ChargeAppend(inputs: seq<Command>, c: Command)
    ensures Charge(inputs + [c]) == Charge(inputs) + |c.payload| + 32
  {
    if inputs == [] {
      assert inputs + [c] == [c];
      assert [c][1..] == [];
    } else {
      assert (inputs + [c])[1..] == inputs[1..] + [c];
      ChargeAppend(inputs[1..], c);
    }
  }

  function PayloadBytes(inputs: seq<Command>): nat {
    if inputs == [] then 0 else |inputs[0].payload| + PayloadBytes(inputs[1..])
  }

  /** The charge is the payload bytes and a fixed 32 bytes for each command. */
  lemma {:induction false} ChargeIs(inputs: seq<Command>)
    ensures Charge(inputs) == PayloadBytes(inputs) + 32 * |inputs|
  {
    if inputs != [] {
      ChargeIs(inputs[1..]);
    }
  }

  lemma {:induction false} ChargeJoins(inputs: seq<Command>, more: seq<Command>)
    ensures Charge(inputs + more) == Charge(inputs) + Charge(more)
  {
    if inputs == [] {
      assert inputs + more == more;
    } else {
      assert (inputs + more)[1..] == inputs[1..] + more;
      ChargeJoins(inputs[1..], more);
    }
  }

  lemma {:induction false} ChargeCoversEncoding(inputs: seq<Command>)
    requires PayloadsFit(inputs)
    ensures |EncodeInputs(inputs)| + 17 * |inputs| <= Charge(inputs)
  {
    if inputs != [] {
      ChargeCoversEncoding(inputs[1..]);
    }
  }

  /** A tick that was charged within budget fits every later size check and survives both decoders. */
  lemma ChargedTickFits(t: TickAdvance)
    requires PayloadsFit(t.inputs) && Charge(t.inputs) <= MAX_REPLAY_RECORD_BYTES
    ensures |Encode(OfServer(Tick(t)))| <= MAX_REPLAY_RECORD_BYTES
    ensures |EncodeTick(t)| <= MAX_REPLAY_RECORD_BYTES
    ensures Decode(ServerKind, Encode(OfServer(Tick(t)))) == Ok(OfServer(Tick(t)))
    ensures Decode(TickKind, EncodeTick(t)) == Ok(OfTick(t))
  {
    ChargeCoversEncoding(t.inputs);
    assert |t.inputs| <= U16_MAX;
    DecodeAfterEncode(OfServer(Tick(t)));
    DecodeAfterEncode(OfTick(t));
  }

  // ----- The step-by-step decoder -----

  lemma PrependNothing(rest: Reading<seq<Command>>)
    ensures Prepend([], rest) == rest
  {
    if rest.Ok? {
      assert [] + rest.value.0 == rest.value.0;
    }
  }

  lemma PrependToEnd(read: seq<Command>, b: seq<byte>, materialize: bool)
    ensures Prepend(read, ReadInputs(0, b, materialize)) == Ok((read, b))
  {
    assert read + [] == read;
  }

  lemma PrependStep(read: seq<Command>, count: nat, b: seq<byte>, materialize: bool)
    requires count > 0
    ensures Prepend(read, ReadInputs(count, b, materialize))
         == match ReadCommand(b, materialize)
            case Ok((c, rest)) =>
              Prepend(if materialize then read + [c] else read, ReadInputs(count - 1, rest, materialize))
            case Err(e) => Err(e)
  {
    if ReadCommand(b, materialize).Ok? {
      var (c, rest) := ReadCommand(b, materialize).value;
      var tail := ReadInputs(count - 1, rest, materialize);
      if tail.Ok? {
        assert read + ([c] + tail.value.0) == (read + [c]) + tail.value.0;
      }
    }
  }

  class Cursor {
    var remaining: seq<byte>
    const materialize: bool

    constructor (bytes: seq<byte>, materialize: bool)
      ensures remaining == bytes && this.materialize == materialize
    {
      this.remaining := bytes;
      this.materialize := materialize;
    }

    method Scalar(width: nat) returns (r: Result<u64, DecodeError>)
      modifies this
      ensures Follows(r, remaining, ReadScalar(width, old(remaining)))
    {
      if remaining == [] {
        return Err(UnexpectedEnd);
      }
      if remaining[0] < 251 {
        r := Ok(remaining[0] as int);
        remaining := remaining[1..];
        return;
      }
      var size := MarkedSize(remaining[0], width);
      if size == 0 {
        return Err(InvalidInteger);
      }
      if |remaining| < 1 + size {
        return Err(UnexpectedEnd);
      }
      Widths();
      r := Ok(LeValue(remaining[1..1 + size]));
      remaining := remaining[1 + size..];
    }

    method Length() returns (r: Result<nat, DecodeError>)
      modifies this
      ensures Follows(r, remaining, ReadLength(old(remaining)))
    {
      var length := Scalar(8);
      if length.Err? {
        return Err(length.error);
      }
      if length.value > |remaining| {
        return Err(CollectionTooLong);
      }
      r := Ok(length.value);
    }

    method Split(length: nat) returns (bytes: seq<byte>)
      requires length <= |remaining|
      modifies this
      ensures bytes == if materialize then old(remaining)[..length] else []
      ensures remaining == old(remaining)[length..]
    {
      bytes := if materialize then remaining[..length] else [];
      remaining := remaining[length..];
    }

    method Payload() returns (r: Result<seq<byte>, DecodeError>)
      modifies this
      ensures Follows(r, remaining, ReadPayload(old(remaining), materialize))
    {
      var length := Length();
      if length.Err? {
        return Err(length.error);
      }
      if length.value > MAX_PAYLOAD_BYTES {
        return Err(CommandTooLarge);
      }
      var bytes := Split(length.value);
      r := Ok(bytes);
    }

    method SaveChunk() returns (r: Result<seq<byte>, DecodeError>)
      modifies this
      ensures Follows(r, remaining, ReadChunk(old(remaining), materialize))
    {
      var length := Length();
      if length.Err? {
        return Err(length.error);
      }
      if length.value == 0 || length.value > MAX_SAVE_CHUNK_BYTES {
        return Err(BadChunkSize);
      }
      var bytes := Split(length.value);
      r := Ok(bytes);
    }

    method Origin() returns (r: Result<Participant, DecodeError>)
      modifies this
      ensures Follows(r, remaining, ReadParticipant(old(remaining)))
    {
      var variant := Scalar(4);
      if variant.Err? {
        return Err(variant.error);
      }
      if variant.value == 0 {
        return Ok(Host);
      }
      if variant.value != 1 {
        return Err(BadVariant);
      }
      var id := Scalar(8);
      if id.Err? {
        return Err(id.error);
      }
      r := Ok(Remote(id.value));
    }

    method OneCommand() returns (r: Result<Command, DecodeError>)
      modifies this
      ensures Follows(r, remaining, ReadCommand(old(remaining), materialize))
    {
      var participant := Origin();
      if participant.Err? {
        return Err(participant.error);
      }
      var payload := Payload();
      if payload.Err? {
        return Err(payload.error);
      }
      r := Ok(Command(participant.value, payload.value));
    }

    method Commands(count: nat) returns (r: Result<seq<Command>, DecodeError>)
      modifies this
      ensures Follows(r, remaining, ReadInputs(count, old(remaining), materialize))
    {
      hide ReadCommand, ReadInputs;
      var inputs := [];
      PrependNothing(ReadInputs(count, remaining, materialize));
      for i := 0 to count
        invariant ReadInputs(count, old(remaining), materialize)
               == Prepend(inputs, ReadInputs(count - i, remaining, materialize))
      {
        PrependStep(inputs, count - i, remaining, materialize);
        var command := OneCommand();
        if command.Err? {
          return Err(command.error);
        }
        if materialize {
          inputs := inputs + [command.value];
        }
      }
      PrependToEnd(inputs, remaining, materialize);
      r := Ok(inputs);
    }

    method Advance() returns (r: Result<TickAdvance, DecodeError>)
      modifies this
      ensures Follows(r, remaining, ReadTick(old(remaining), materialize))
    {
      var tick := Scalar(8);
      if tick.Err? {
        return Err(tick.error);
      }
      var count := Length();
      if count.Err? {
        return Err(count.error);
      }
      var inputs := Commands(count.value);
      r := if inputs.Err? then Err(inputs.error) else Ok(TickAdvance(tick.value, inputs.value));
    }

    method Pair() returns (r: Result<(u64, u64), DecodeError>)
      modifies this
      ensures Follows(r, remaining, ReadPair(old(remaining)))
    {
      var first := Scalar(8);
      if first.Err? {
        return Err(first.error);
      }
      var second := Scalar(8);
      if second.Err? {
        return Err(second.error);
      }
      r := Ok((first.value, second.value));
    }

    /** The closure each `decode_*` hands to `validated`, selected by kind. */
    method Body(kind: Kind) returns (r: Result<Message, DecodeError>)
      modifies this
      ensures Follows(r, remaining, ReadBody(kind, old(remaining), materialize))
    {
      if kind == ReportKind {
        var pair := Pair();
        return if pair.Err? then Err(pair.error) else Ok(OfReport(Report(pair.value.0, pair.value.1)));
      }
      if kind == TickKind {
        var advance := Advance();
        return if advance.Err? then Err(advance.error) else Ok(OfTick(advance.value));
      }
      var variant := Scalar(4);
      if variant.Err? {
        return Err(variant.error);
      }
      r := Variant(kind, variant.value);
    }

    method Variant(kind: Kind, variant: u64) returns (r: Result<Message, DecodeError>)
      modifies this
      ensures Follows(r, remaining, ReadVariant(kind, variant, old(remaining), materialize))
    {
      match (kind, variant)
      case (ClientKind, 0) =>
        var payload := Payload();
        r := if payload.Err? then Err(payload.error) else Ok(OfClient(Input(payload.value)));
      case (ClientKind, 1) =>
        var pair := Pair();
        r := if pair.Err? then Err(pair.error) else Ok(OfClient(Progress(pair.value.0, pair.value.1)));
      case (ClientKind, 2) =>
        var pair := Pair();
        r := if pair.Err? then Err(pair.error) else Ok(OfClient(Ready(pair.value.0, pair.value.1)));
      case (ServerKind, 0) =>
        var pair := Pair();
        r := if pair.Err? then Err(pair.error) else Ok(OfServer(Start(pair.value.0, pair.value.1)));
      case (ServerKind, 1) =>
        var advance := Advance();
        r := if advance.Err? then Err(advance.error) else Ok(OfServer(Tick(advance.value)));
      case (SaveKind, 0) =>
        var total := Scalar(8);
        if total.Err? {
          return Err(total.error);
        }
        var pair := Pair();
        r := if pair.Err? then Err(pair.error)
             else Ok(OfSave(Begin(SaveMetadata(total.value, pair.value.0, pair.value.1))));
      case (SaveKind, 1) =>
        var bytes := SaveChunk();
        r := if bytes.Err? then Err(bytes.error) else Ok(OfSave(Chunk(bytes.value)));
      case _ =>
        r := Err(BadVariant);
    }
  }

  /** Validate the whole shape, then materialise it: the five `decode_*` entry points. */
  method DecodeEnvelope(kind: Kind, bytes: seq<byte>) returns (r: Result<Message, DecodeError>)
    ensures r == Decode(kind, bytes)
  {
    if (kind == ServerKind || kind == TickKind) && |bytes| > MAX_REPLAY_RECORD_BYTES {
      return Err(TickTooLarge);
    }
    PassesAgree(kind, bytes);
    r := Err(UnexpectedEnd);
    for pass := 0 to 2
      invariant pass > 0 ==> Pass(kind, bytes, false).Ok?
      invariant pass == 2 ==> r == Pass(kind, bytes, true)
    {
      var cursor := new Cursor(bytes, pass == 1);
      var message := cursor.Body(kind);
      if message.Err? {
        return Err(message.error);
      }
      if cursor.remaining != [] {
        return Err(TrailingBytes);
      }
      r := message;
    }
  }
}

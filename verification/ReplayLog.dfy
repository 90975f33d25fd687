/**
  The session log: a header followed by length-framed tick records
  (crates/synctick/src/replay.rs:19-323).

  A recording is an append-only byte string. Readers see it through `BufRead`,
  which may hand out any nonempty slice of what remains.
*/
module ReplayLog {
  import opened Bytes
  import opened Envelope

  const MAGIC: seq<byte> := [83, 69, 83, 83]
  const PROTOCOL_ID: u64 := 0x5345_5353_494F_0001
  const FORMAT_VERSION: u64 := 1
  const MIN_TICK_NANOS: u64 := 1_000
  const MAX_TICK_NANOS: u64 := 1_000_000_000

  datatype Header = Header(
    magic: seq<byte>, protocolId: u64, formatVersion: u64,
    gameId: seq<byte>, gameVersion: u64, tickNanos: u64, initialization: seq<byte>)

  datatype LogError =
    | Envelope(cause: DecodeError) | WrongMagic | InitializationTooLarge
    | WrongProtocol | WrongFormat | BadTickDuration
    | TruncatedLength | TruncatedRecord | RecordTooLarge

  /** Widths the header's field types impose. */
  ghost predicate Shaped(h: Header) {
    && |h.magic| == 4 && |h.gameId| == 16
    && h.formatVersion <= U32_MAX && h.gameVersion <= U32_MAX
    && |h.initialization| <= U64_MAX
  }

  /** Exactly the headers this build accepts. */
  ghost predicate Compatible(h: Header) {
    && h.magic == MAGIC && h.protocolId == PROTOCOL_ID && h.formatVersion == FORMAT_VERSION
    && MIN_TICK_NANOS <= h.tickNanos <= MAX_TICK_NANOS
    && |h.initialization| <= MAX_PAYLOAD_BYTES
  }

  function EncodeHeader(h: Header): seq<byte> {
    h.magic + (Varint(h.protocolId) + (Varint(h.formatVersion) + (h.gameId
      + (Varint(h.gameVersion) + (Varint(h.tickNanos) + EncodePayload(h.initialization))))))
  }

  function Frame(advance: TickAdvance): seq<byte> {
    LeBytes(|EncodeTick(advance)|, 4) + EncodeTick(advance)
  }

  function Frames(records: seq<TickAdvance>): seq<byte> {
    if records == [] then [] else Frame(records[0]) + Frames(records[1..])
  }

  // ----- Reading -----

  type Parsed<T> = Result<(T, seq<byte>), LogError>

  function Raw(count: nat, b: seq<byte>): Parsed<seq<byte>> {
    if |b| < count then Err(Envelope(UnexpectedEnd)) else Ok((b[..count], b[count..]))
  }

  function Scalar(width: nat, b: seq<byte>): (r: Parsed<u64>)
    ensures width == 4 && r.Ok? ==> r.value.0 <= U32_MAX
  {
    match ReadScalar(width, b)
    case Ok(pair) => Ok(pair)
    case Err(e) => Err(Envelope(e))
  }

  function ReadHeader(b: seq<byte>): (r: Parsed<Header>)
    ensures r.Ok? ==> Shaped(r.value.0) && Compatible(r.value.0)
  {
    var (magic, b) :- Raw(4, b);
    if magic != MAGIC then Err(WrongMagic)
    else
      var (protocolId, b) :- Scalar(8, b);
      var (formatVersion, b) :- Scalar(4, b);
      var (gameId, b) :- Raw(16, b);
      var (gameVersion, b) :- Scalar(4, b);
      var (tickNanos, b) :- Scalar(8, b);
      var (length, b) :- Scalar(8, b);
      if length > MAX_PAYLOAD_BYTES then Err(InitializationTooLarge)
      else
        var (initialization, b) :- Raw(length, b);
        if protocolId != PROTOCOL_ID then Err(WrongProtocol)
        else if formatVersion != FORMAT_VERSION then Err(WrongFormat)
        else if !(MIN_TICK_NANOS <= tickNanos <= MAX_TICK_NANOS) then Err(BadTickDuration)
        else Ok((Header(magic, protocolId, formatVersion, gameId, gameVersion, tickNanos, initialization), b))
  }

  datatype Next = End | Bad(error: LogError) | Record(advance: TickAdvance, rest: seq<byte>)

  function NextRecord(b: seq<byte>): (r: Next)
    ensures r.Record? ==> |r.rest| < |b|
  {
    if b == [] then End
    else if |b| < 4 then Bad(TruncatedLength)
    else
      var length := LeValue(b[..4]);
      if length > MAX_REPLAY_RECORD_BYTES then Bad(RecordTooLarge)
      else if |b| < 4 + length then Bad(TruncatedRecord)
      else
        match Decode(TickKind, b[4..4 + length])
        case Ok(OfTick(advance)) => Record(advance, b[4 + length..])
        case Err(e) => Bad(Envelope(e))
  }

  lemma EndOfNothing()
    ensures NextRecord([]) == End
  {
  }

  datatype Ending = Clean | Broken(error: LogError)

  /** Every record up to the end of the bytes or the first bad frame, and which of the two it was. */
  function Parse(b: seq<byte>): (seq<TickAdvance>, Ending)
    decreases |b|
  {
    match NextRecord(b)
    case End => ([], Clean)
    case Bad(e) => ([], Broken(e))
    case Record(advance, rest) =>
      var (records, ending) := Parse(rest);
      ([advance] + records, ending)
  }

  // ----- Round trips -----

  /** Exactly the records `append` takes and `next_record` gives back. */
  ghost predicate Recordable(advance: TickAdvance) {
    PayloadsFit(advance.inputs) && |EncodeTick(advance)| <= MAX_REPLAY_RECORD_BYTES
  }

  ghost predicate AllRecordable(records: seq<TickAdvance>) {
    forall i :: 0 <= i < |records| ==> Recordable(records[i])
  }

  lemma RawOfPrefix(a: seq<byte>, b: seq<byte>)
    ensures Raw(|a|, a + b) == Ok((a, b))
  {
    assert (a + b)[..|a|] == a;
    assert (a + b)[|a|..] == b;
  }

  lemma ScalarOfVarint(width: nat, n: u64, rest: seq<byte>)
    requires width == 4 || width == 8
    requires width == 4 ==> n <= U32_MAX
    ensures Scalar(width, Varint(n) + rest) == Ok((n, rest))
  {
    ReadScalarOfVarint(width, n, rest);
  }

  lemma HeaderRoundTrip(h: Header, rest: seq<byte>)
    requires Shaped(h)
    ensures ReadHeader(EncodeHeader(h) + rest) == Ok((h, rest)) <==> Compatible(h)
    ensures ReadHeader(EncodeHeader(h) + rest).Ok? ==> Compatible(h)
  {
    hide Varint, Scalar, Raw;
    var (v1, v2, v4, v5, v6) := (Varint(h.protocolId), Varint(h.formatVersion), Varint(h.gameVersion),
      Varint(h.tickNanos), Varint(|h.initialization|));
    var (e7, b7) := (h.initialization, h.initialization + rest);
    var (e6, b6) := (v6 + e7, v6 + b7);
    var (e5, b5) := (v5 + e6, v5 + b6);
    var (e4, b4) := (v4 + e5, v4 + b5);
    var (e3, b3) := (h.gameId + e4, h.gameId + b4);
    var (e2, b2) := (v2 + e3, v2 + b3);
    var (e1, b1) := (v1 + e2, v1 + b2);
    assert EncodeHeader(h) == h.magic + e1;
    Regroup(v6, e7, rest);
    Regroup(v5, e6, rest);
    Regroup(v4, e5, rest);
    Regroup(h.gameId, e4, rest);
    Regroup(v2, e3, rest);
    Regroup(v1, e2, rest);
    Regroup(h.magic, e1, rest);
    RawOfPrefix(h.magic, b1);
    ScalarOfVarint(8, h.protocolId, b2);
    ScalarOfVarint(4, h.formatVersion, b3);
    RawOfPrefix(h.gameId, b4);
    ScalarOfVarint(4, h.gameVersion, b5);
    ScalarOfVarint(8, h.tickNanos, b6);
    ScalarOfVarint(8, |h.initialization|, b7);
    RawOfPrefix(h.initialization, rest);
  }

  /** A frame that announces more than 256 KiB is refused by its length alone, whatever follows it. */
  lemma OversizedFrameRefused(length: nat, rest: seq<byte>)
    requires 0x4_0000 < length <= U32_MAX
    ensures NextRecord(LeBytes(length, 4) + rest) == Bad(RecordTooLarge)
  {
    hide LeBytes, Decode;
    var b := LeBytes(length, 4) + rest;
    assert b[..4] == LeBytes(length, 4);
    Widths();
    LeValueOfBytes(length, 4);
  }

  lemma TwoBytes(high: nat, a: byte, b: byte, width: nat)
    ensures LeBytes(high * 0x1_0000 + b as int * 0x100 + a as int, width + 2) == [a, b] + LeBytes(high, width)
  {
    var n := high * 0x1_0000 + b as int * 0x100 + a as int;
    assert n / 256 == high * 0x100 + b as int && n / 256 / 256 == high;
  }

  lemma ProtocolBytes()
    ensures Varint(PROTOCOL_ID) == [253, 0x01, 0x00, 0x4f, 0x49, 0x53, 0x53, 0x45, 0x53]
    ensures Varint(FORMAT_VERSION) == [1]
  {
    hide LeBytes;
    TwoBytes(0, 0x45, 0x53, 0);
    TwoBytes(0x5345, 0x53, 0x53, 2);
    TwoBytes(0x5345_5353, 0x4f, 0x49, 4);
    TwoBytes(0x5345_5353_494F, 0x01, 0x00, 6);
  }

  /** Every log begins with the format's name, the protocol's number and the first format version. */
  lemma LogsBeginAlike(h: Header)
    requires Shaped(h) && Compatible(h)
    ensures var start: seq<byte> := [0x53, 0x45, 0x53, 0x53, 253, 0x01, 0x00, 0x4f, 0x49, 0x53, 0x53, 0x45, 0x53, 1];
      start <= EncodeHeader(h)
    ensures 1_000 <= h.tickNanos <= 1_000_000_000 && |h.initialization| <= 65536
  {
    hide Varint;
    ProtocolBytes();
    var rest := h.gameId + (Varint(h.gameVersion) + (Varint(h.tickNanos) + EncodePayload(h.initialization)));
    StartsWith(MAGIC, Varint(PROTOCOL_ID), Varint(FORMAT_VERSION), rest);
  }

  lemma StartsWith(x: seq<byte>, y: seq<byte>, z: seq<byte>, rest: seq<byte>)
    ensures x + y + z <= x + (y + (z + rest))
  {
    Regroup(x, y, z + rest);
    Regroup(x + y, z, rest);
  }

  lemma NextOfFrame(advance: TickAdvance, rest: seq<byte>)
    requires Recordable(advance)
    ensures NextRecord(Frame(advance) + rest) == Record(advance, rest)
  {
    var payload := EncodeTick(advance);
    var b := Frame(advance) + rest;
    assert b[..4] == LeBytes(|payload|, 4);
    Widths();
    LeValueOfBytes(|payload|, 4);
    assert b[4..4 + |payload|] == payload;
    assert b[4 + |payload|..] == rest;
    EncodeInputsLength(advance.inputs);
    DecodeAfterEncode(OfTick(advance));
  }

  /** Whatever follows a written log is parsed after exactly the records that were written. */
  lemma {:induction false} ParseOfFrames(records: seq<TickAdvance>, rest: seq<byte>)
    requires AllRecordable(records)
    ensures Parse(Frames(records) + rest) == (records + Parse(rest).0, Parse(rest).1)
  {
    hide Frame, Recordable, NextRecord;
    if records == [] {
      assert Frames(records) + rest == rest;
      assert records + Parse(rest).0 == Parse(rest).0;
    } else {
      var tail := Frames(records[1..]) + rest;
      Regroup(Frame(records[0]), Frames(records[1..]), rest);
      NextOfFrame(records[0], tail);
      ParseOfFrames(records[1..], rest);
      assert [records[0]] + records[1..] == records;
      Regroup([records[0]], records[1..], Parse(rest).0);
    }
  }

  lemma {:induction false} FramesAppend(records: seq<TickAdvance>, more: seq<TickAdvance>)
    ensures Frames(records + more) == Frames(records) + Frames(more)
  {
    if records == [] {
      assert records + more == more;
    } else {
      assert (records + more)[1..] == records[1..] + more;
      FramesAppend(records[1..], more);
    }
  }

  /** How reading stops when `torn` bytes of a frame are left: cleanly only when there are none. */
  function TornEnding(torn: nat): Ending {
    if torn == 0 then Clean
    else Broken(if torn < 4 then TruncatedLength else TruncatedRecord)
  }

  lemma ParseOfCutFrame(advance: TickAdvance, cut: nat)
    requires Recordable(advance) && cut < |Frame(advance)|
    ensures Parse(Frame(advance)[..cut]) == ([], TornEnding(cut))
  {
    var b := Frame(advance)[..cut];
    var payload := EncodeTick(advance);
    hide EncodeTick, Decode;
    if cut >= 4 {
      assert b[..4] == LeBytes(|payload|, 4);
      Widths();
      LeValueOfBytes(|payload|, 4);
    }
  }

  /** The part of the frame after `whole` complete ones that survives a cut `torn` bytes into it. */
  function TornFrame(records: seq<TickAdvance>, whole: nat, torn: nat): seq<byte> {
    if whole < |records| && torn <= |Frame(records[whole])| then Frame(records[whole])[..torn] else []
  }

  lemma CutSplits(records: seq<TickAdvance>, cut: nat, whole: nat)
    requires whole <= |records|
    requires |Frames(records[..whole])| <= cut <= |Frames(records)|
    requires whole < |records| ==> cut < |Frames(records[..whole + 1])|
    ensures var torn := cut - |Frames(records[..whole])|;
      && (if whole < |records| then torn < |Frame(records[whole])| else torn == 0)
      && Frames(records)[..cut] == Frames(records[..whole]) + TornFrame(records, whole, torn)
  {
    hide Frame;
    var (before, after) := (records[..whole], records[whole..]);
    assert records == before + after;
    FramesAppend(before, after);
    if whole < |records| {
      assert records[..whole + 1] == before + [after[0]];
      FramesAppend(before, [after[0]]);
      assert Frames([after[0]]) == Frame(after[0]) + Frames([]);
      var (x, y, z) := (Frames(before), Frame(after[0]), Frames(after[1..]));
      assert Frames(records) == x + (y + z);
      assert (x + (y + z))[..cut] == x + y[..cut - |x|];
    }
  }

  lemma ParseToEnding(records: seq<TickAdvance>, tail: seq<byte>, ending: Ending)
    requires AllRecordable(records) && Parse(tail) == ([], ending)
    ensures Parse(Frames(records) + tail) == (records, ending)
  {
    ParseOfFrames(records, tail);
    assert records + [] == records;
  }

  /**
    Cut a written log at any byte `cut`, where `whole` frames lie before it. The reader yields
    precisely those records, then a clean end if and only if the cut is on a frame boundary.
  */
  lemma TornLog(records: seq<TickAdvance>, cut: nat, whole: nat)
    requires AllRecordable(records) && whole <= |records|
    requires |Frames(records[..whole])| <= cut <= |Frames(records)|
    requires whole < |records| ==> cut < |Frames(records[..whole + 1])|
    ensures Parse(Frames(records)[..cut]) == (records[..whole], TornEnding(cut - |Frames(records[..whole])|))
  {
    hide Frame, Frames, NextRecord, Recordable, AllRecordable, Parse;
    var torn := cut - |Frames(records[..whole])|;
    CutSplits(records, cut, whole);
    PrefixRecordable(records, whole);
    if whole < |records| {
      ParseOfCutFrame(records[whole], torn);
      ParseToEnding(records[..whole], Frame(records[whole])[..torn], TornEnding(torn));
    } else {
      NothingToParse();
      ParseToEnding(records[..whole], [], Clean);
    }
  }

  lemma PrefixRecordable(records: seq<TickAdvance>, n: nat)
    requires AllRecordable(records) && n <= |records|
    ensures AllRecordable(records[..n]) && (n < |records| ==> Recordable(records[n]))
  {
    hide Recordable;
  }

  lemma NothingToParse()
    ensures Parse([]) == ([], Clean)
  {
    hide NextRecord;
    EndOfNothing();
  }

  // ----- The step-by-step reader and writer -----

  /** `std::io::BufRead`: each `FillBuf` exposes an arbitrary nonempty slice until the end. */
  class Source {
    var rest: seq<byte>

    constructor (bytes: seq<byte>)
      ensures rest == bytes
    {
      rest := bytes;
    }

    method FillBuf() returns (available: seq<byte>)
      ensures available <= rest
      ensures rest != [] ==> available != []
    {
      if rest == [] {
        return [];
      }
      var size :| 0 < size <= |rest|;
      available := rest[..size];
    }

    method Consume(count: nat)
      requires count <= |rest|
      modifies this
      ensures rest == old(rest)[count..]
    {
      rest := rest[count..];
    }

    /** `read_exact`: gathers slices until `count` bytes were read. */
    method ReadExact(count: nat) returns (r: Result<seq<byte>, LogError>)
      modifies this
      ensures Follows(r, rest, Raw(count, old(rest)))
    {
      var read := [];
      while |read| < count
        invariant |read| <= count && read + rest == old(rest)
      {
        var available := FillBuf();
        if available == [] {
          return Err(Envelope(UnexpectedEnd));
        }
        var size := if |available| < count - |read| then |available| else count - |read|;
        assert available[..size] == rest[..size];
        read := read + available[..size];
        Consume(size);
      }
      assert read == old(rest)[..count] && rest == old(rest)[count..];
      r := Ok(read);
    }

    method ReadVarint(width: nat) returns (r: Result<u64, LogError>)
      modifies this
      ensures Follows(r, rest, Scalar(width, old(rest)))
    {
      var marker := ReadExact(1);
      if marker.Err? {
        return Err(Envelope(UnexpectedEnd));
      }
      if marker.value[0] < 251 {
        return Ok(marker.value[0] as int);
      }
      var size := MarkedSize(marker.value[0], width);
      if size == 0 {
        return Err(Envelope(InvalidInteger));
      }
      assert |old(rest)| >= 1 + size ==>
          old(rest)[1..][..size] == old(rest)[1..1 + size] && old(rest)[1..][size..] == old(rest)[1 + size..];
      var bytes := ReadExact(size);
      if bytes.Err? {
        return Err(Envelope(UnexpectedEnd));
      }
      Widths();
      r := Ok(LeValue(bytes.value));
    }

    /** Reads the initialization through a fixed 4 KiB buffer. */
    method ReadInitialization(length: nat) returns (r: Result<seq<byte>, LogError>)
      modifies this
      ensures Follows(r, rest, Raw(length, old(rest)))
    {
      var initialization := [];
      while |initialization| < length
        invariant |initialization| <= length && initialization + rest == old(rest)
      {
        var missing := length - |initialization|;
        var block := ReadExact(if missing < 4096 then missing else 4096);
        if block.Err? {
          return Err(block.error);
        }
        initialization := initialization + block.value;
      }
      assert initialization == old(rest)[..length] && rest == old(rest)[length..];
      r := Ok(initialization);
    }
  }

  lemma SlicesMove<T>(xs: seq<T>, a: nat, n: nat)
    requires a + n <= |xs|
    ensures xs[a..][..n] == xs[a..a + n] && xs[a..][n..] == xs[a + n..]
  {
  }

  class ReplayReader {
    const source: Source
    const header: Header

    constructor (source: Source, header: Header)
      ensures this.source == source && this.header == header
    {
      this.source := source;
      this.header := header;
    }

    /** A record's payload, gathered from the slices of the source; none if they end too soon. */
    method ReadPayload(length: nat) returns (r: Option<seq<byte>>)
      modifies source
      ensures r == if |old(source.rest)| < length then None else Some(old(source.rest)[..length])
      ensures r.Some? ==> source.rest == old(source.rest)[length..]
    {
      var payload := [];
      while |payload| < length
        invariant |payload| <= length && payload + source.rest == old(source.rest)
      {
        var available := source.FillBuf();
        if available == [] {
          return None;
        }
        var size := if |available| < length - |payload| then |available| else length - |payload|;
        assert available[..size] == source.rest[..size];
        payload := payload + available[..size];
        source.Consume(size);
      }
      assert payload == old(source.rest)[..length] && source.rest == old(source.rest)[length..];
      r := Some(payload);
    }

    method Next() returns (r: Next)
      modifies source
      ensures r == NextRecord(old(source.rest))
      ensures r.Record? ==> source.rest == r.rest
      ensures r.End? ==> source.rest == []
    {
      hide LeValue, Decode;
      var first := source.FillBuf();
      if first == [] {
        return End;
      }
      var prefix := source.ReadExact(4);
      if prefix.Err? {
        return Bad(TruncatedLength);
      }
      var length := LeValue(prefix.value);
      if length > MAX_REPLAY_RECORD_BYTES {
        return Bad(RecordTooLarge);
      }
      var payload := ReadPayload(length);
      if payload.None? {
        return Bad(TruncatedRecord);
      }
      SlicesMove(old(source.rest), 4, length);
      var decoded := DecodeEnvelope(TickKind, payload.value);
      match decoded
      case Err(e) => r := Bad(Envelope(e));
      case Ok(OfTick(advance)) => r := Record(advance, source.rest);
    }
  }

  /** `from_reader`: parse and validate the header, leaving the source at the first record. */
  method OpenReader(source: Source) returns (r: Result<ReplayReader, LogError>)
    modifies source
    ensures match ReadHeader(old(source.rest))
            case Ok((h, b)) => r.Ok? && r.value.header == h && r.value.source == source && source.rest == b
            case Err(e) => r == Err(e)
    ensures r.Ok? ==> fresh(r.value)
  {
    var magic := source.ReadExact(4);
    if magic.Err? {
      return Err(magic.error);
    }
    if magic.value != MAGIC {
      return Err(WrongMagic);
    }
    var protocolId := source.ReadVarint(8);
    if protocolId.Err? {
      return Err(protocolId.error);
    }
    var formatVersion := source.ReadVarint(4);
    if formatVersion.Err? {
      return Err(formatVersion.error);
    }
    var gameId := source.ReadExact(16);
    if gameId.Err? {
      return Err(gameId.error);
    }
    var gameVersion := source.ReadVarint(4);
    if gameVersion.Err? {
      return Err(gameVersion.error);
    }
    var tickNanos := source.ReadVarint(8);
    if tickNanos.Err? {
      return Err(tickNanos.error);
    }
    var length := source.ReadVarint(8);
    if length.Err? {
      return Err(length.error);
    }
    if length.value > MAX_PAYLOAD_BYTES {
      return Err(InitializationTooLarge);
    }
    var initialization := source.ReadInitialization(length.value);
    if initialization.Err? {
      return Err(initialization.error);
    }
    if protocolId.value != PROTOCOL_ID {
      return Err(WrongProtocol);
    }
    if formatVersion.value != FORMAT_VERSION {
      return Err(WrongFormat);
    }
    if !(MIN_TICK_NANOS <= tickNanos.value <= MAX_TICK_NANOS) {
      return Err(BadTickDuration);
    }
    var reader := new ReplayReader(source, Header(magic.value, protocolId.value, formatVersion.value,
      gameId.value, gameVersion.value, tickNanos.value, initialization.value));
    r := Ok(reader);
  }

  class ReplayWriter {
    var bytes: seq<byte>

    constructor (header: Header)
      ensures bytes == EncodeHeader(header)
    {
      bytes := EncodeHeader(header);
    }

    method Append(advance: TickAdvance) returns (ok: bool)
      modifies this
      ensures ok == (|EncodeTick(advance)| <= MAX_REPLAY_RECORD_BYTES)
      ensures bytes == if ok then old(bytes) + Frame(advance) else old(bytes)
    {
      var payload := EncodeTick(advance);
      hide EncodeTick, LeBytes;
      if |payload| > MAX_REPLAY_RECORD_BYTES {
        return false;
      }
      bytes := bytes + LeBytes(|payload|, 4);
      bytes := bytes + payload;
      assert bytes == old(bytes) + Frame(advance);
      ok := true;
    }
  }
}

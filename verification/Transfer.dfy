/**
  Server side of verified startup: the windowed save transfer to one client and the
  bookkeeping that bounds it (crates/synctick/src/startup.rs:15-171).

  The transfer is a fixed message list: `Begin`, then the save in chunks. A peer's window is
  always the slice of that list between the first unacknowledged and the first unsent message.
*/
module Transfer {
  import opened Bytes
  import opened Envelope

  const RENET_SLICE_BYTES: nat := 1200
  const CHANNEL_SAVE_MAX_MEM: nat := 0x40_0000
  const STARTUP_TIMEOUT: nat := 30_000_000_000

  /** What the receiving channel reserves for a message of this size: whole slices. */
  function ReceiveMemory(encodedBytes: nat): nat {
    (encodedBytes + RENET_SLICE_BYTES - 1) / RENET_SLICE_BYTES * RENET_SLICE_BYTES
  }

  datatype TransferPhase = Transferring | AwaitingReadiness | Verified

  datatype Peer = Peer(
    phase: TransferPhase, began: bool, offset: nat, received: nat,
    outstanding: seq<(nat, nat)>, memory: int, replayed: nat, lastProgress: nat)

  function NewPeer(now: nat): Peer {
    Peer(Transferring, false, 0, 0, [], 0, 0, now)
  }

  function Cost(m: SaveMessage): nat { ReceiveMemory(|EncodeSave(m)|) }

  datatype Pumped = Pumped(peer: Peer, sent: seq<SaveMessage>)

  /** Send as `grants` allows: the transport accepts that many more messages before it refuses one. */
  function Pump(p: Peer, save: seq<byte>, md: SaveMetadata, grants: nat): Pumped {
    if p.phase != Transferring then Pumped(p, [])
    else if p.began then PumpChunks(p, save, grants)
    else if grants == 0 then Pumped(p, [])
    else
      var cost := Cost(Begin(md));
      var begun := p.(began := true, outstanding := p.outstanding + [(0, cost)], memory := p.memory + cost);
      var rest := PumpChunks(begun, save, grants - 1);
      rest.(sent := [Begin(md)] + rest.sent)
  }

  function PumpChunks(p: Peer, save: seq<byte>, grants: nat): Pumped
    decreases if p.offset < |save| then |save| - p.offset else 0
  {
    if p.offset >= |save| then Pumped(p.(phase := AwaitingReadiness), [])
    else
      var end := Min(p.offset + MAX_SAVE_CHUNK_BYTES, |save|);
      var chunk := Chunk(save[p.offset..end]);
      if grants == 0 || Cost(chunk) > CHANNEL_SAVE_MAX_MEM - p.memory then Pumped(p, [])
      else
        var sent := p.(
          offset := end, outstanding := p.outstanding + [(end, Cost(chunk))], memory := p.memory + Cost(chunk));
        var rest := PumpChunks(sent, save, grants - 1);
        rest.(sent := [chunk] + rest.sent)
  }

  /** Release every message that ends at or before the reported byte. */
  function Release(p: Peer, receivedBytes: nat): Peer
    decreases |p.outstanding|
  {
    if p.outstanding == [] || receivedBytes == 0 || p.outstanding[0].0 > receivedBytes then p
    else Release(p.(outstanding := p.outstanding[1..], memory := p.memory - p.outstanding[0].1), receivedBytes)
  }

  /** The guard on a progress report. */
  predicate Admissible(p: Peer, md: SaveMetadata, receivedBytes: nat, replayedTick: nat) {
    && p.phase != Verified
    && receivedBytes >= p.received
    && (receivedBytes == p.received || exists i :: 0 <= i < |p.outstanding| && p.outstanding[i].0 == receivedBytes)
    && p.replayed <= replayedTick <= md.tick
    && (replayedTick == 0 || receivedBytes == md.totalBytes)
  }

  /** `StartupPeer::receive`; `None` is the protocol error that disconnects the peer. */
  function Receive(p: Peer, m: ClientMessage, md: SaveMetadata, now: nat): Option<Peer> {
    match m
    case Progress(receivedBytes, replayedTick) =>
      if !Admissible(p, md, receivedBytes, replayedTick) then None
      else if receivedBytes > p.received || replayedTick > p.replayed then
        Some(Release(p.(lastProgress := now, received := receivedBytes, replayed := replayedTick), receivedBytes))
      else Some(p)
    case Ready(tick, hash) =>
      if p.phase == AwaitingReadiness && tick == md.tick && hash == md.hash then
        Some(p.(phase := Verified, lastProgress := now))
      else None
    case Input(_) => None
  }

  predicate TimedOut(p: Peer, now: nat) {
    p.phase != Verified && now >= p.lastProgress + STARTUP_TIMEOUT
  }

  // ----- The message list of one transfer -----

  function Chunks(save: seq<byte>): nat { (|save| + MAX_SAVE_CHUNK_BYTES - 1) / MAX_SAVE_CHUNK_BYTES }

  /** Save bytes delivered by the first `i` chunks. */
  function End(save: seq<byte>, i: nat): (end: nat)
    ensures end <= |save|
  {
    Min(i * MAX_SAVE_CHUNK_BYTES, |save|)
  }

  /** `Begin` and every chunk. */
  function Total(save: seq<byte>): nat { 1 + Chunks(save) }

  function Nth(md: SaveMetadata, save: seq<byte>, i: nat): SaveMessage {
    if i == 0 then Begin(md) else Chunk(save[End(save, i - 1)..End(save, i)])
  }

  /** Messages `a` up to but not including `b`. */
  function Slice(md: SaveMetadata, save: seq<byte>, a: nat, b: nat): seq<SaveMessage>
    requires a <= b
  {
    seq(b - a, i requires 0 <= i => Nth(md, save, a + i))
  }

  function Window(md: SaveMetadata, save: seq<byte>, a: nat, b: nat): seq<(nat, nat)>
    requires a <= b
  {
    seq(b - a, i requires 0 <= i => (End(save, a + i), Cost(Nth(md, save, a + i))))
  }

  function TotalCost(window: seq<(nat, nat)>): nat {
    if window == [] then 0 else window[0].1 + TotalCost(window[1..])
  }

  /** The save bytes carried by messages. */
  function Carried(ms: seq<SaveMessage>): seq<byte> {
    if ms == [] then [] else (if ms[0].Chunk? then ms[0].bytes else []) + Carried(ms[1..])
  }

  lemma CarriedCons(m: SaveMessage, ms: seq<SaveMessage>)
    ensures Carried([m] + ms) == if m.Chunk? then m.bytes + Carried(ms) else Carried(ms)
    ensures Carried([]) == []
  {
    assert ([m] + ms)[1..] == ms;
  }

  lemma {:induction false} CarriedPush(ms: seq<SaveMessage>, m: SaveMessage)
    ensures Carried(ms + [m]) == if m.Chunk? then Carried(ms) + m.bytes else Carried(ms)
  {
    if ms == [] {
      assert ms + [m] == [m] + [];
      CarriedCons(m, []);
    } else {
      assert (ms + [m])[1..] == ms[1..] + [m];
      CarriedPush(ms[1..], m);
    }
  }

  lemma EndsIncrease(save: seq<byte>, i: nat, j: nat)
    requires i < j <= Chunks(save)
    ensures End(save, i) < End(save, j)
    ensures End(save, i + 1) == Min(End(save, i) + MAX_SAVE_CHUNK_BYTES, |save|)
    ensures j == Chunks(save) <==> End(save, j) == |save|
  {
  }

  lemma LastEnd(save: seq<byte>)
    ensures End(save, Chunks(save)) == |save|
  {
  }

  lemma SliceSteps(md: SaveMetadata, save: seq<byte>, a: nat, b: nat)
    requires a <= b
    ensures Slice(md, save, a, b) + [Nth(md, save, b)] == Slice(md, save, a, b + 1)
    ensures Window(md, save, a, b) + [(End(save, b), Cost(Nth(md, save, b)))] == Window(md, save, a, b + 1)
    ensures a < b ==> Slice(md, save, a, b) == [Nth(md, save, a)] + Slice(md, save, a + 1, b)
    ensures a < b ==> Window(md, save, a, b) == [(End(save, a), Cost(Nth(md, save, a)))] + Window(md, save, a + 1, b)
  {
    hide Nth, End, Cost;
  }

  lemma SliceJoins(md: SaveMetadata, save: seq<byte>, a: nat, b: nat, c: nat)
    requires a <= b <= c
    ensures Slice(md, save, a, b) + Slice(md, save, b, c) == Slice(md, save, a, c)
  {
  }

  lemma {:induction false} CostAppend(window: seq<(nat, nat)>, x: (nat, nat))
    ensures TotalCost(window + [x]) == TotalCost(window) + x.1
  {
    if window == [] {
      assert window + [x] == [x] && [x][1..] == [];
    } else {
      assert (window + [x])[1..] == window[1..] + [x];
      CostAppend(window[1..], x);
    }
  }

  /** A window always has room for `Begin` and one chunk, and a chunk never costs more than 263 KiB. */
  lemma CostBounds(m: SaveMessage)
    requires m.Begin? || 0 < |m.bytes| <= MAX_SAVE_CHUNK_BYTES
    ensures 0 < Cost(m) <= 262_800
    ensures m.Begin? ==> Cost(m) == RENET_SLICE_BYTES
  {
  }

  // ----- What every interleaving of pump and receive keeps -----

  /**
    The peer stands between message `acked`, the first whose memory is still reserved, and message
    `sent`, the first not sent.
  */
  ghost predicate PeerAt(p: Peer, md: SaveMetadata, save: seq<byte>, acked: nat, sent: nat) {
    && save != [] && md.totalBytes == |save|
    && acked <= sent <= Total(save) && acked != 1
    && p.began == (sent > 0)
    && p.offset == (if sent == 0 then 0 else End(save, sent - 1))
    && p.received == (if acked == 0 then 0 else End(save, acked - 1))
    && (p.phase == Transferring <==> sent < Total(save))
    && p.outstanding == Window(md, save, acked, sent)
    && p.memory == TotalCost(p.outstanding)
    && p.memory <= CHANNEL_SAVE_MAX_MEM
    && p.replayed <= md.tick && (p.replayed > 0 ==> acked == Total(save))
  }

  /** What is outstanding ends at strictly increasing bytes, none beyond what was sent. */
  lemma OutstandingEndsIncrease(p: Peer, md: SaveMetadata, save: seq<byte>, acked: nat, sent: nat)
    requires PeerAt(p, md, save, acked, sent)
    ensures |p.outstanding| == sent - acked
    ensures forall i, j :: 0 <= i < j < |p.outstanding| ==> p.outstanding[i].0 < p.outstanding[j].0
    ensures forall i :: 0 <= i < |p.outstanding| ==> p.outstanding[i].0 <= p.offset <= |save|
  {
    hide Cost, End;
    forall i, j | 0 <= i < j < |p.outstanding| ensures p.outstanding[i].0 < p.outstanding[j].0 {
      EndsIncrease(save, acked + i, acked + j);
    }
    forall i | 0 <= i < |p.outstanding| ensures p.outstanding[i].0 <= p.offset {
      if acked + i < sent - 1 {
        EndsIncrease(save, acked + i, sent - 1);
      }
    }
  }

  lemma NewPeerAt(md: SaveMetadata, save: seq<byte>, now: nat)
    requires save != [] && md.totalBytes == |save|
    ensures PeerAt(NewPeer(now), md, save, 0, 0)
  {
  }

  /** The peer after one more message of the list was handed to the transport. */
  function WithSent(p: Peer, end: nat, cost: nat): Peer {
    p.(offset := end, outstanding := p.outstanding + [(end, cost)], memory := p.memory + cost)
  }

  lemma NextChunk(md: SaveMetadata, save: seq<byte>, sent: nat)
    requires 0 < sent < Total(save)
    ensures var offset := End(save, sent - 1);
      offset < |save| && Min(offset + MAX_SAVE_CHUNK_BYTES, |save|) == End(save, sent)
      && Nth(md, save, sent) == Chunk(save[offset..End(save, sent)])
  {
    EndsIncrease(save, sent - 1, sent);
  }

  lemma SentOne(p: Peer, md: SaveMetadata, save: seq<byte>, acked: nat, sent: nat)
    requires PeerAt(p, md, save, acked, sent) && 0 < sent < Total(save)
    requires Cost(Nth(md, save, sent)) <= CHANNEL_SAVE_MAX_MEM - p.memory
    ensures var p' := WithSent(p, End(save, sent), Cost(Nth(md, save, sent)));
      PeerAt(if sent + 1 == Total(save) then p'.(phase := AwaitingReadiness) else p', md, save, acked, sent + 1)
  {
    hide Cost, Total, Nth, End, Window;
    SliceSteps(md, save, acked, sent);
    CostAppend(p.outstanding, (End(save, sent), Cost(Nth(md, save, sent))));
  }

  /** Why a pump stopped where it did: the transport, the end of the list, or a full window. */
  ghost predicate PumpIsMaximal(p: Peer, md: SaveMetadata, save: seq<byte>, sent: nat, count: nat, grants: nat) {
    count == grants || sent == Total(save) || p.memory + Cost(Nth(md, save, sent)) > CHANNEL_SAVE_MAX_MEM
  }

  /** What `pump` promises: the next messages of the list in order, and as many as may be sent. */
  ghost predicate PumpedOn(p: Peer, md: SaveMetadata, save: seq<byte>, acked: nat, sent: nat, grants: nat, r: Pumped) {
    && |r.sent| <= grants
    && PeerAt(r.peer, md, save, acked, sent + |r.sent|)
    && r.sent == Slice(md, save, sent, sent + |r.sent|)
    && r.peer.received == p.received && r.peer.replayed == p.replayed && r.peer.lastProgress == p.lastProgress
    && (r.peer.phase == Verified <==> p.phase == Verified)
    && PumpIsMaximal(r.peer, md, save, sent + |r.sent|, |r.sent|, grants)
  }

  lemma PumpedMore(p: Peer, p': Peer, md: SaveMetadata, save: seq<byte>, acked: nat, sent: nat, grants: nat,
      later: Pumped)
    requires acked <= sent < Total(save) && grants > 0
    requires p'.received == p.received && p'.replayed == p.replayed && p'.lastProgress == p.lastProgress
    requires p.phase != Verified && p'.phase != Verified
    requires PumpedOn(p', md, save, acked, sent + 1, grants - 1, later)
    ensures PumpedOn(p, md, save, acked, sent, grants, later.(sent := [Nth(md, save, sent)] + later.sent))
  {
    hide PeerAt, Cost, Nth, Total;
    var r := later.(sent := [Nth(md, save, sent)] + later.sent);
    SliceSteps(md, save, sent, sent + |r.sent|);
    assert PumpIsMaximal(later.peer, md, save, sent + |r.sent|, |later.sent|, grants - 1);
  }

  lemma {:induction false} PumpChunksKeeps(p: Peer, md: SaveMetadata, save: seq<byte>, acked: nat, sent: nat,
      grants: nat)
    requires PeerAt(p, md, save, acked, sent) && 0 < sent < Total(save)
    ensures PumpedOn(p, md, save, acked, sent, grants, PumpChunks(p, save, grants))
    decreases grants
  {
    hide Cost, Slice, Window, Nth;
    NextChunk(md, save, sent);
    var cost := Cost(Nth(md, save, sent));
    if grants == 0 || cost > CHANNEL_SAVE_MAX_MEM - p.memory {
      NothingSent(md, save, sent);
    } else {
      SentOne(p, md, save, acked, sent);
      LastEnd(save);
      var p' := WithSent(p, End(save, sent), cost);
      if sent + 1 < Total(save) {
        PumpChunksKeeps(p', md, save, acked, sent + 1, grants - 1);
      } else {
        NothingSent(md, save, sent + 1);
      }
      PumpedMore(p, p', md, save, acked, sent, grants, PumpChunks(p', save, grants - 1));
    }
  }

  lemma NothingSent(md: SaveMetadata, save: seq<byte>, sent: nat)
    ensures Slice(md, save, sent, sent) == []
  {
  }

  /** `pump` sends the next messages of the list in order, and never more than the window admits. */
  lemma PumpKeeps(p: Peer, md: SaveMetadata, save: seq<byte>, acked: nat, sent: nat, grants: nat)
    requires PeerAt(p, md, save, acked, sent)
    ensures PumpedOn(p, md, save, acked, sent, grants, Pump(p, save, md, grants))
  {
    hide Cost;
    if p.phase != Transferring || (!p.began && grants == 0) {
      NothingSent(md, save, sent);
    } else if p.began {
      PumpChunksKeeps(p, md, save, acked, sent, grants);
    } else {
      var begun := Begun(p, md);
      BeginSent(p, md, save, acked, sent);
      hide PeerAt, PumpedOn, Nth;
      PumpChunksKeeps(begun, md, save, acked, 1, grants - 1);
      PumpedMore(p, begun, md, save, acked, 0, grants, PumpChunks(begun, save, grants - 1));
      assert Nth(md, save, 0) == Begin(md) by {
        BeginIsFirst(md, save);
      }
    }
  }

  // ----- What a window takes in real slices -----

  /** The slices a message of this size travels in: full ones, and one for what is left over. */
  function SlicesFor(bytes: nat): nat {
    if bytes == 0 then 0 else if bytes <= 1200 then 1 else 1 + SlicesFor(bytes - 1200)
  }

  /** The receiver's memory for messages not yet taken: whole slices of each one's encoding. */
  function Reserved(ms: seq<SaveMessage>): nat {
    if ms == [] then 0 else 1200 * SlicesFor(|EncodeSave(ms[0])|) + Reserved(ms[1..])
  }

  lemma OneSliceMore(n: nat)
    ensures (n + 1200) / 1200 == n / 1200 + 1
  {
  }

  /** What is charged for a message is the least number of whole slices that holds it. */
  lemma {:induction false} MemoryIsWholeSlices(bytes: nat)
    ensures ReceiveMemory(bytes) == 1200 * SlicesFor(bytes)
    ensures bytes <= ReceiveMemory(bytes) < bytes + 1200
  {
    if bytes > 1200 {
      MemoryIsWholeSlices(bytes - 1200);
      OneSliceMore(bytes - 1);
    }
  }

  lemma {:induction false} WindowIsReserved(md: SaveMetadata, save: seq<byte>, a: nat, b: nat)
    requires a <= b
    ensures TotalCost(Window(md, save, a, b)) == Reserved(Slice(md, save, a, b))
    decreases b - a
  {
    hide ReceiveMemory, SlicesFor, EncodeSave, Nth;
    if a < b {
      SliceSteps(md, save, a, b);
      MemoryIsWholeSlices(|EncodeSave(Nth(md, save, a))|);
      WindowIsReserved(md, save, a + 1, b);
    }
  }

  lemma {:induction false} LessIsReserved(md: SaveMetadata, save: seq<byte>, a: nat, a': nat, b: nat)
    requires a <= a' <= b
    ensures Reserved(Slice(md, save, a', b)) <= Reserved(Slice(md, save, a, b))
    decreases a' - a
  {
    hide SlicesFor, EncodeSave, Nth;
    if a < a' {
      SliceSteps(md, save, a, b);
      LessIsReserved(md, save, a + 1, a', b);
    }
  }

  /** In real sizes, what is sent and not acknowledged takes at most 4 MiB of the receiver. */
  lemma WindowFits(p: Peer, md: SaveMetadata, save: seq<byte>, acked: nat, sent: nat)
    requires PeerAt(p, md, save, acked, sent)
    ensures p.memory == Reserved(Slice(md, save, acked, sent)) <= 0x40_0000
  {
    hide Cost, Reserved, Slice, TotalCost;
    WindowIsReserved(md, save, acked, sent);
  }

  /**
    `pump` fills the window and no more: what is outstanding afterwards fits 4 MiB of whole slices,
    and it stopped only because the transport took no more, because everything is sent, or because
    the next message would not have fitted.
  */
  lemma PumpFillsTheWindow(p: Peer, md: SaveMetadata, save: seq<byte>, acked: nat, sent: nat, grants: nat)
    requires PeerAt(p, md, save, acked, sent)
    ensures var r := Pump(p, save, md, grants);
      var sent' := sent + |r.sent|;
      && r.sent == Slice(md, save, sent, sent') && sent' <= Total(save)
      && Reserved(Slice(md, save, acked, sent')) <= 0x40_0000
      && (|r.sent| == grants || sent' == Total(save) || Reserved(Slice(md, save, acked, sent' + 1)) > 0x40_0000)
  {
    hide Pump, Cost, Reserved, Slice, Window, TotalCost, Nth;
    PumpKeeps(p, md, save, acked, sent, grants);
    var r := Pump(p, save, md, grants);
    var sent' := sent + |r.sent|;
    WindowFits(r.peer, md, save, acked, sent');
    WindowIsReserved(md, save, acked, sent' + 1);
    SliceSteps(md, save, acked, sent');
    CostAppend(Window(md, save, acked, sent'), (End(save, sent'), Cost(Nth(md, save, sent'))));
  }

  lemma BeginIsFirst(md: SaveMetadata, save: seq<byte>)
    ensures Nth(md, save, 0) == Begin(md)
  {
  }

  function Begun(p: Peer, md: SaveMetadata): Peer {
    p.(began := true, outstanding := p.outstanding + [(0, Cost(Begin(md)))], memory := p.memory + Cost(Begin(md)))
  }

  lemma BeginSent(p: Peer, md: SaveMetadata, save: seq<byte>, acked: nat, sent: nat)
    requires PeerAt(p, md, save, acked, sent) && !p.began
    ensures acked == 0 && sent == 0 && p.phase == Transferring && 1 < Total(save)
    ensures PeerAt(Begun(p, md), md, save, 0, 1)
  {
    hide Cost;
    CostBounds(Begin(md));
    CostAppend(p.outstanding, (0, Cost(Begin(md))));
    assert Begun(p, md).outstanding == Window(md, save, 0, 1);
    EndsIncrease(save, 0, Chunks(save));
  }

  lemma NearlyEmptyWindow(md: SaveMetadata, save: seq<byte>, acked: nat, sent: nat)
    requires acked == sent || (acked == 0 && sent == 1)
    ensures TotalCost(Window(md, save, acked, sent)) <= RENET_SLICE_BYTES
  {
    hide Cost;
    CostBounds(Begin(md));
    if acked == sent {
      assert Window(md, save, acked, sent) == [];
    } else {
      assert Window(md, save, 0, 1) == [(0, Cost(Begin(md)))];
      assert [(0, Cost(Begin(md)))][1..] == [];
    }
  }

  /** A window that holds nothing but `Begin` has room for a chunk. */
  lemma BeginLeavesRoom(p: Peer, md: SaveMetadata, save: seq<byte>, acked: nat, sent: nat)
    requires PeerAt(p, md, save, acked, sent) && sent < 2
    ensures sent < Total(save) && p.memory + Cost(Nth(md, save, sent)) <= CHANNEL_SAVE_MAX_MEM
  {
    hide Cost, Slice, Window;
    EndsIncrease(save, 0, Chunks(save));
    if sent > 0 {
      NextChunk(md, save, sent);
    }
    CostBounds(Nth(md, save, sent));
    NearlyEmptyWindow(md, save, acked, sent);
  }

  /** An unfinished transfer whose chunks are all acknowledged can always send another message. */
  lemma NeverStalls(p: Peer, md: SaveMetadata, save: seq<byte>, acked: nat, sent: nat, grants: nat)
    requires PeerAt(p, md, save, acked, sent) && sent < Total(save) && grants > 0
    requires acked == sent || (acked == 0 && sent == 1)
    ensures Pump(p, save, md, grants).sent != []
  {
    PumpKeeps(p, md, save, acked, sent, grants);
    hide Cost, Pump, Slice, Window;
    if sent > 0 {
      NextChunk(md, save, sent);
    }
    CostBounds(Nth(md, save, sent));
    NearlyEmptyWindow(md, save, acked, sent);
  }

  // ----- Receiving -----

  lemma {:induction false} ReleaseIs(p: Peer, md: SaveMetadata, save: seq<byte>, acked: nat, sent: nat, j: nat)
    requires acked <= j + 1 && 0 < j < sent <= Total(save)
    requires p.outstanding == Window(md, save, acked, sent) && p.memory == TotalCost(p.outstanding)
    ensures var window := Window(md, save, j + 1, sent);
      Release(p, End(save, j)) == p.(outstanding := window, memory := TotalCost(window))
    decreases j + 1 - acked
  {
    hide Cost, Nth, End;
    if acked < sent {
      SliceSteps(md, save, acked, sent);
      assert p.outstanding[1..] == Window(md, save, acked + 1, sent);
      ReleaseBoundary(save, acked, j);
    }
    if acked <= j {
      var p' := p.(outstanding := p.outstanding[1..], memory := p.memory - p.outstanding[0].1);
      ReleaseIs(p', md, save, acked + 1, sent, j);
    }
  }

  lemma ReleaseBoundary(save: seq<byte>, i: nat, j: nat)
    requires i <= j + 1 && 0 < j <= Chunks(save)
    ensures i <= j ==> End(save, i) <= End(save, j) && End(save, j) > 0
    ensures i == j + 1 <= Chunks(save) ==> End(save, i) > End(save, j)
  {
    EndsIncrease(save, 0, j);
    if i < j {
      EndsIncrease(save, i, j);
    } else if j < i <= Chunks(save) {
      EndsIncrease(save, j, i);
    }
  }

  /** The first message still reserved after a peer's window was trimmed. */
  function AckedNow(p: Peer, sent: nat): int { sent - |p.outstanding| }

  /** Some refreshes of the liveness clock: each one costs an acknowledgement or a replayed tick. */
  function Credit(acked: int, replayed: nat): int { (if acked == 0 then 0 else acked - 1) + replayed }

  /** A reported byte count is a chunk boundary between what was acknowledged and what was sent. */
  lemma ReportedBoundary(p: Peer, md: SaveMetadata, save: seq<byte>, acked: nat, sent: nat, receivedBytes: nat)
    returns (j: nat)
    requires PeerAt(p, md, save, acked, sent) && receivedBytes > p.received
    requires exists i :: 0 <= i < |p.outstanding| && p.outstanding[i].0 == receivedBytes
    ensures acked <= j < sent && 0 < j && receivedBytes == End(save, j)
  {
    hide Cost;
    var i :| 0 <= i < |p.outstanding| && p.outstanding[i].0 == receivedBytes;
    j := acked + i;
  }

  /** Any report the guard admits keeps the window exact, and pays for the refresh it causes. */
  lemma ReceiveKeeps(p: Peer, m: ClientMessage, md: SaveMetadata, save: seq<byte>, acked: nat, sent: nat, now: nat)
    requires PeerAt(p, md, save, acked, sent) && Receive(p, m, md, now).Some?
    ensures var p' := Receive(p, m, md, now).value;
      var acked' := AckedNow(p', sent);
      && acked <= acked' && PeerAt(p', md, save, acked', sent)
      && (p'.lastProgress == p.lastProgress || p'.phase == Verified
          || (p'.lastProgress == now && Credit(acked', p'.replayed) > Credit(acked, p.replayed)))
      && Credit(acked', p'.replayed) >= Credit(acked, p.replayed)
  {
    hide Cost, Nth;
    match m
    case Progress(receivedBytes, replayedTick) =>
      var p0 := p.(lastProgress := now, received := receivedBytes, replayed := replayedTick);
      if receivedBytes > p.received {
        var j := ReportedBoundary(p, md, save, acked, sent, receivedBytes);
        ReleaseIs(p0, md, save, acked, sent, j);
        WindowShrinks(md, save, acked, j + 1, sent);
        EndsIncreaseTo(save, j);
      } else if replayedTick > p.replayed {
        assert acked == Total(save) ==> Window(md, save, acked, sent) == [];
        AllReceived(save, acked, p.received);
      }
    case Ready(_, _) =>
  }

  lemma AllReceived(save: seq<byte>, acked: nat, received: nat)
    requires save != [] && acked <= Total(save) && received == (if acked == 0 then 0 else End(save, acked - 1))
    ensures received == |save| ==> acked == Total(save)
  {
    if 0 < acked < Total(save) {
      EndsIncrease(save, acked - 1, acked);
    }
  }

  lemma EndsIncreaseTo(save: seq<byte>, j: nat)
    requires j <= Chunks(save)
    ensures End(save, j) == |save| ==> j == Chunks(save) || save == []
  {
    if j < Chunks(save) {
      EndsIncrease(save, j, Chunks(save));
    }
  }

  lemma {:induction false} WindowShrinks(md: SaveMetadata, save: seq<byte>, a: nat, a': nat, b: nat)
    requires a <= a' <= b
    ensures TotalCost(Window(md, save, a', b)) <= TotalCost(Window(md, save, a, b))
    decreases a' - a
  {
    hide Cost, Nth, End;
    if a < a' {
      SliceSteps(md, save, a, b);
      assert Window(md, save, a, b)[1..] == Window(md, save, a + 1, b);
      WindowShrinks(md, save, a + 1, a', b);
    }
  }

  // ----- Honest reports are admitted -----

  /** Bytes delivered by the first `taken` messages of the list. */
  function Delivered(save: seq<byte>, taken: nat): nat { if taken == 0 then 0 else End(save, taken - 1) }

  lemma DeliveredIncreases(save: seq<byte>, i: nat, j: nat)
    requires i <= j <= Total(save)
    ensures Delivered(save, i) <= Delivered(save, j) <= |save|
    ensures i < j && 1 < j ==> Delivered(save, i) < Delivered(save, j)
    ensures save != [] && Delivered(save, j) == |save| ==> j == Total(save)
    ensures Delivered(save, Total(save)) == |save|
  {
    LastEnd(save);
    if 0 < i < j {
      EndsIncrease(save, i - 1, j - 1);
    } else if 1 < j {
      EndsIncrease(save, 0, j - 1);
    }
    if 0 < j {
      EndsIncreaseTo(save, j - 1);
    }
  }

  /**
    A client that has taken the first `taken` messages, at least those it already acknowledged and
    at most those sent, and reports truthfully, is never refused; and the report acknowledges
    exactly what it took.
  */
  lemma TruthfulReportAdmitted(
      p: Peer, md: SaveMetadata, save: seq<byte>, acked: nat, sent: nat, taken: nat, replayedTick: nat, now: nat)
    requires PeerAt(p, md, save, acked, sent) && p.phase != Verified
    requires acked <= taken <= sent && p.replayed <= replayedTick <= md.tick
    requires replayedTick > 0 ==> taken == Total(save)
    ensures Delivered(save, taken) <= U64_MAX && replayedTick <= U64_MAX
    ensures var r := Receive(p, Progress(Delivered(save, taken), replayedTick), md, now);
      && r.Some? && r.value.replayed == replayedTick && r.value.received == Delivered(save, taken)
      && r.value.phase == p.phase
      && AckedNow(r.value, sent) == if taken == 1 then 0 else taken
  {
    hide Cost;
    DeliveredIncreases(save, acked, taken);
    DeliveredIncreases(save, taken, Total(save));
    var bytes := Delivered(save, taken);
    if acked < taken && 1 < taken {
      assert p.outstanding[taken - 1 - acked].0 == bytes;
    }
    var r := Receive(p, Progress(bytes, replayedTick), md, now);
    if r.Some? {
      ReceiveKeeps(p, Progress(bytes, replayedTick), md, save, acked, sent, now);
      ReleaseKeeps(p.(lastProgress := now, received := bytes, replayed := replayedTick), bytes);
      AckedFollowsReceived(r.value, md, save, AckedNow(r.value, sent), sent, taken);
    }
  }

  lemma {:induction false} ReleaseKeeps(p: Peer, receivedBytes: nat)
    ensures var r := Release(p, receivedBytes);
      r == p.(outstanding := r.outstanding, memory := r.memory)
    decreases |p.outstanding|
  {
    if p.outstanding != [] && receivedBytes != 0 && p.outstanding[0].0 <= receivedBytes {
      ReleaseKeeps(p.(outstanding := p.outstanding[1..], memory := p.memory - p.outstanding[0].1), receivedBytes);
    }
  }

  lemma AckedFollowsReceived(p: Peer, md: SaveMetadata, save: seq<byte>, acked: nat, sent: nat, taken: nat)
    requires PeerAt(p, md, save, acked, sent) && taken <= sent && p.received == Delivered(save, taken)
    ensures acked == if taken == 1 then 0 else taken
  {
    if acked < taken {
      DeliveredIncreases(save, acked, taken);
    } else {
      DeliveredIncreases(save, taken, acked);
    }
  }

  // ----- Rounds of the startup loop -----

  /** One message as decoded; `None` is a malformed envelope. */
  type Arrival = Option<ClientMessage>

  function ReceiveAll(p: Peer, arrivals: seq<Arrival>, md: SaveMetadata, now: nat): Option<Peer>
    decreases |arrivals|
  {
    if arrivals == [] then Some(p)
    else if arrivals[0].None? then None
    else
      var next := Receive(p, arrivals[0].value, md, now);
      if next.None? then None else ReceiveAll(next.value, arrivals[1..], md, now)
  }

  /** What one iteration of `wait_for_clients` meets for one peer. */
  datatype Round = Round(now: nat, grants: nat, arrivals: seq<Arrival>, hashReport: bool)

  /** Pump, receive everything, then the liveness check; `None` disconnects the peer. */
  function ServePeer(p: Peer, save: seq<byte>, md: SaveMetadata, round: Round): Option<Peer> {
    var received := ReceiveAll(Pump(p, save, md, round.grants).peer, round.arrivals, md, round.now);
    if received.None? || round.hashReport || TimedOut(received.value, round.now) then None else received
  }

  lemma {:induction false} ReceiveAllKeeps(
      p: Peer, arrivals: seq<Arrival>, md: SaveMetadata, save: seq<byte>, acked: nat, sent: nat, now: nat)
    requires PeerAt(p, md, save, acked, sent) && ReceiveAll(p, arrivals, md, now).Some?
    ensures var p' := ReceiveAll(p, arrivals, md, now).value;
      var acked' := AckedNow(p', sent);
      && acked <= acked' && PeerAt(p', md, save, acked', sent)
      && (p'.lastProgress == p.lastProgress || p'.phase == Verified
          || (p'.lastProgress == now && Credit(acked', p'.replayed) > Credit(acked, p.replayed)))
      && Credit(acked', p'.replayed) >= Credit(acked, p.replayed)
      && (p.phase == Verified ==> p'.phase == Verified)
    decreases |arrivals|
  {
    hide Cost, PeerAt, Receive;
    if arrivals == [] {
      assert AckedNow(p, sent) == acked by {
        WindowLength(p, md, save, acked, sent);
      }
    } else {
      var m := arrivals[0].value;
      ReceiveKeeps(p, m, md, save, acked, sent, now);
      VerifiedIsFinal(p, m, md, now);
      var p1 := Receive(p, m, md, now).value;
      ReceiveAllKeeps(p1, arrivals[1..], md, save, AckedNow(p1, sent), sent, now);
    }
  }

  lemma WindowLength(p: Peer, md: SaveMetadata, save: seq<byte>, acked: nat, sent: nat)
    requires PeerAt(p, md, save, acked, sent)
    ensures AckedNow(p, sent) == acked
  {
  }

  lemma VerifiedStays(p: Peer, arrivals: seq<Arrival>, md: SaveMetadata, now: nat)
    ensures p.phase == Verified && ReceiveAll(p, arrivals, md, now).Some? ==>
      ReceiveAll(p, arrivals, md, now).value == p
  {
    if arrivals != [] && arrivals[0].Some? {
      VerifiedIsFinal(p, arrivals[0].value, md, now);
    }
  }

  /** The liveness clock is refreshed exactly by what moves the peer on. */
  lemma MovedMeansRefreshed(p: Peer, m: ClientMessage, md: SaveMetadata, now: nat)
    ensures var r := Receive(p, m, md, now);
      r.Some? ==>
        || r.value.lastProgress == now
        || (r.value.lastProgress == p.lastProgress && r.value.received == p.received && r.value.replayed == p.replayed)
  {
    match m
    case Progress(receivedBytes, replayedTick) =>
      ReleaseKeeps(p.(lastProgress := now, received := receivedBytes, replayed := replayedTick), receivedBytes);
    case _ =>
  }

  lemma {:induction false} AllMovedMeansRefreshed(p: Peer, arrivals: seq<Arrival>, md: SaveMetadata, now: nat)
    ensures var r := ReceiveAll(p, arrivals, md, now);
      r.Some? ==>
        || r.value.lastProgress == now
        || (r.value.lastProgress == p.lastProgress && r.value.received == p.received && r.value.replayed == p.replayed)
    decreases |arrivals|
  {
    hide Receive;
    if arrivals != [] && arrivals[0].Some? && Receive(p, arrivals[0].value, md, now).Some? {
      MovedMeansRefreshed(p, arrivals[0].value, md, now);
      AllMovedMeansRefreshed(Receive(p, arrivals[0].value, md, now).value, arrivals[1..], md, now);
    }
  }

  lemma GivenWithinSave(p: Peer, md: SaveMetadata, save: seq<byte>, acked: nat, sent: nat)
    requires PeerAt(p, md, save, acked, sent)
    ensures sent <= Total(save)
  {
  }

  /** A verified peer accepts nothing more during startup. */
  lemma VerifiedIsFinal(p: Peer, m: ClientMessage, md: SaveMetadata, now: nat)
    ensures p.phase == Verified ==> Receive(p, m, md, now).None?
  {
  }

  /** A peer's fate over a run of iterations. */
  function ServeRounds(p: Peer, save: seq<byte>, md: SaveMetadata, rounds: seq<Round>): Option<Peer> {
    if rounds == [] then Some(p)
    else
      var before := ServeRounds(p, save, md, rounds[..|rounds| - 1]);
      if before.None? then None else ServePeer(before.value, save, md, rounds[|rounds| - 1])
  }

  function Before(start: nat, rounds: seq<Round>, i: nat): nat
    requires i <= |rounds|
  {
    if i == 0 then start else rounds[i - 1].now
  }

  /** Iterations start no earlier than the connection and at most `gap` apart. */
  ghost predicate Paced(start: nat, rounds: seq<Round>, gap: nat) {
    forall i :: 0 <= i < |rounds| ==> Before(start, rounds, i) <= rounds[i].now <= Before(start, rounds, i) + gap
  }

  lemma Distribute(c: int, k: int, unit: nat)
    ensures (c + k) * unit == c * unit + k * unit
  {
  }

  lemma CreditCosts(c: int, c': int, unit: nat)
    requires c <= c'
    ensures c * unit <= c' * unit
    ensures c < c' ==> c * unit + unit <= c' * unit
  {
    var k: nat := c' - c;
    Distribute(c, k, unit);
    if k > 0 {
      Distribute(1, k - 1, unit);
    }
  }

  lemma PacedPrefix(start: nat, rounds: seq<Round>, gap: nat)
    requires Paced(start, rounds, gap) && rounds != []
    ensures var (earlier, last) := (rounds[..|rounds| - 1], rounds[|rounds| - 1]);
      && Paced(start, earlier, gap)
      && Before(start, earlier, |earlier|) <= last.now <= Before(start, earlier, |earlier|) + gap
  {
    var earlier := rounds[..|rounds| - 1];
    forall i | 0 <= i < |earlier|
      ensures Before(start, earlier, i) <= earlier[i].now <= Before(start, earlier, i) + gap
    {
      assert earlier[i] == rounds[i] && Before(start, earlier, i) == Before(start, rounds, i);
    }
    assert Before(start, earlier, |earlier|) == Before(start, rounds, |earlier|);
  }

  /** One surviving iteration: the window stays exact and a refreshed clock was paid for. */
  lemma RoundPays(p: Peer, md: SaveMetadata, save: seq<byte>, acked: nat, sent: nat, round: Round)
    returns (acked': nat, sent': nat)
    requires PeerAt(p, md, save, acked, sent) && ServePeer(p, save, md, round).Some?
    ensures var p' := ServePeer(p, save, md, round).value;
      && PeerAt(p', md, save, acked', sent')
      && (p'.phase != Verified ==>
            && p.phase != Verified && round.now < p'.lastProgress + STARTUP_TIMEOUT
            && Credit(acked, p.replayed) <= Credit(acked', p'.replayed)
            && (p'.lastProgress == p.lastProgress
                || (p'.lastProgress == round.now && Credit(acked, p.replayed) < Credit(acked', p'.replayed))))
  {
    hide Cost, Pump, ReceiveAll, PeerAt;
    PumpKeeps(p, md, save, acked, sent, round.grants);
    var pumped := Pump(p, save, md, round.grants);
    sent' := sent + |pumped.sent|;
    ReceiveAllKeeps(pumped.peer, round.arrivals, md, save, acked, sent', round.now);
    acked' := AckedNow(ServePeer(p, save, md, round).value, sent');
  }

  /**
    Waiting for one client is bounded: however it spends its messages, a peer that is still not
    ready was refreshed at most once per chunk and once per saved tick.
  */
  lemma {:induction false} StartupWaitIsBounded(
      start: nat, save: seq<byte>, md: SaveMetadata, rounds: seq<Round>, gap: nat)
    returns (acked: nat, sent: nat)
    requires save != [] && md.totalBytes == |save| && Paced(start, rounds, gap)
    requires ServeRounds(NewPeer(start), save, md, rounds).Some?
    ensures var p := ServeRounds(NewPeer(start), save, md, rounds).value;
      var now := Before(start, rounds, |rounds|);
      && PeerAt(p, md, save, acked, sent)
      && (p.phase != Verified ==>
            && now < p.lastProgress + STARTUP_TIMEOUT
            && p.lastProgress <= start + Credit(acked, p.replayed) * (STARTUP_TIMEOUT + gap)
            && now < start + (Chunks(save) + md.tick) * (STARTUP_TIMEOUT + gap) + STARTUP_TIMEOUT)
  {
    hide Cost, ServePeer, Total, Chunks, Paced, PeerAt;
    var unit := STARTUP_TIMEOUT + gap;
    var p := ServeRounds(NewPeer(start), save, md, rounds).value;
    if rounds == [] {
      acked, sent := 0, 0;
      NewPeerAt(md, save, start);
    } else {
      var earlier, round := rounds[..|rounds| - 1], rounds[|rounds| - 1];
      PacedPrefix(start, rounds, gap);
      var acked0, sent0 := StartupWaitIsBounded(start, save, md, earlier, gap);
      var p0 := ServeRounds(NewPeer(start), save, md, earlier).value;
      acked, sent := RoundPays(p0, md, save, acked0, sent0, round);
      if p.phase != Verified {
        CreditCosts(Credit(acked0, p0.replayed), Credit(acked, p.replayed), unit);
      }
    }
    CreditBounded(p, md, save, acked, sent);
    CreditCosts(Credit(acked, p.replayed), Chunks(save) + md.tick, unit);
  }

  lemma CreditBounded(p: Peer, md: SaveMetadata, save: seq<byte>, acked: nat, sent: nat)
    requires PeerAt(p, md, save, acked, sent)
    ensures Credit(acked, p.replayed) <= Chunks(save) + md.tick
  {
  }

  // ----- The peer record itself -----

  /** `later` with messages `sent` already handed over. */
  function SentBefore(sent: seq<SaveMessage>, later: Pumped): Pumped { later.(sent := sent + later.sent) }

  lemma SentNothingBefore(later: Pumped)
    ensures SentBefore([], later) == later
  {
    assert [] + later.sent == later.sent;
  }

  lemma PumpChunksUnfolds(sent: seq<SaveMessage>, p: Peer, save: seq<byte>, grants: nat)
    ensures var end := Min(p.offset + MAX_SAVE_CHUNK_BYTES, |save|);
      SentBefore(sent, PumpChunks(p, save, grants))
        == if p.offset >= |save| then Pumped(p.(phase := AwaitingReadiness), sent)
           else
             var chunk := Chunk(save[p.offset..end]);
             if grants == 0 || Cost(chunk) > CHANNEL_SAVE_MAX_MEM - p.memory then Pumped(p, sent)
             else SentBefore(sent + [chunk], PumpChunks(WithSent(p, end, Cost(chunk)), save, grants - 1))
  {
    hide Cost;
    assert sent + [] == sent;
    if p.offset < |save| && grants > 0 {
      var end := Min(p.offset + MAX_SAVE_CHUNK_BYTES, |save|);
      var chunk := Chunk(save[p.offset..end]);
      Regroup(sent, [chunk], PumpChunks(WithSent(p, end, Cost(chunk)), save, grants - 1).sent);
    }
  }

  /** The peer's window is some exact slice of the transfer's message list. */
  ghost predicate Tracked(p: Peer, md: SaveMetadata, save: seq<byte>) {
    exists acked: nat, sent: nat :: PeerAt(p, md, save, acked, sent)
  }

  lemma TrackedMemory(p: Peer, md: SaveMetadata, save: seq<byte>)
    requires Tracked(p, md, save)
    ensures p.memory == TotalCost(p.outstanding) <= CHANNEL_SAVE_MAX_MEM
    ensures !p.began ==> p.outstanding == []
  {
  }

  lemma PumpTracked(p: Peer, md: SaveMetadata, save: seq<byte>, grants: nat)
    requires Tracked(p, md, save)
    ensures Tracked(Pump(p, save, md, grants).peer, md, save)
  {
    hide Cost, Pump;
    var acked: nat, sent: nat :| PeerAt(p, md, save, acked, sent);
    PumpKeeps(p, md, save, acked, sent, grants);
  }

  lemma ReceiveTracked(p: Peer, m: ClientMessage, md: SaveMetadata, save: seq<byte>, now: nat)
    requires Tracked(p, md, save)
    ensures Receive(p, m, md, now).Some? ==> Tracked(Receive(p, m, md, now).value, md, save)
  {
    hide Cost, Receive;
    if Receive(p, m, md, now).Some? {
      var acked: nat, sent: nat :| PeerAt(p, md, save, acked, sent);
      ReceiveKeeps(p, m, md, save, acked, sent, now);
      assert PeerAt(Receive(p, m, md, now).value, md, save, AckedNow(Receive(p, m, md, now).value, sent), sent);
    }
  }

  // ----- Exactly which messages a peer may send -----

  /** Readiness is for the announced state and no other, after everything was sent, and once. */
  lemma ReadyExactly(p: Peer, tick: u64, hash: u64, md: SaveMetadata, now: nat)
    ensures Receive(p, Ready(tick, hash), md, now).Some? <==>
      p.phase == AwaitingReadiness && tick == md.tick && hash == md.hash
    ensures Receive(p, Ready(tick, hash), md, now).Some? ==>
      Receive(p, Ready(tick, hash), md, now).value.phase == Verified
  {
  }

  /**
    A progress report is admitted exactly when it names the end of a sent message at or after the
    last acknowledged one, and a replayed tick that neither goes back nor beyond the save and is
    zero until all bytes are there.
  */
  lemma ProgressExactly(p: Peer, md: SaveMetadata, save: seq<byte>, acked: nat, sent: nat,
      receivedBytes: u64, replayedTick: u64, now: nat)
    requires PeerAt(p, md, save, acked, sent)
    ensures Receive(p, Progress(receivedBytes, replayedTick), md, now).Some? <==>
      && p.phase != Verified
      && (exists taken :: acked <= taken <= sent && receivedBytes == Delivered(save, taken))
      && p.replayed <= replayedTick <= md.tick && (replayedTick > 0 ==> receivedBytes == |save|)
  {
    hide Cost, Release;
    if Receive(p, Progress(receivedBytes, replayedTick), md, now).Some? {
      if receivedBytes == p.received {
        assert receivedBytes == Delivered(save, acked);
      } else {
        var j := ReportedBoundary(p, md, save, acked, sent, receivedBytes);
        assert receivedBytes == Delivered(save, j + 1);
      }
    }
    if exists taken :: acked <= taken <= sent && receivedBytes == Delivered(save, taken) {
      var taken :| acked <= taken <= sent && receivedBytes == Delivered(save, taken);
      DeliveredIncreases(save, acked, taken);
      if acked < taken && 1 < taken {
        assert p.outstanding[taken - 1 - acked].0 == receivedBytes;
      }
    }
  }

  /** Commands, malformed envelopes, readiness for another state, and progress beyond the save. */
  predicate Improper(arrival: Arrival, md: SaveMetadata) {
    match arrival
    case None => true
    case Some(Input(_)) => true
    case Some(Ready(tick, hash)) => tick != md.tick || hash != md.hash
    case Some(Progress(receivedBytes, replayedTick)) =>
      receivedBytes > md.totalBytes || replayedTick > md.tick || (replayedTick > 0 && receivedBytes != md.totalBytes)
  }

  lemma ImproperRefused(p: Peer, arrival: Arrival, md: SaveMetadata, save: seq<byte>, acked: nat, sent: nat, now: nat)
    requires PeerAt(p, md, save, acked, sent) && Improper(arrival, md) && arrival.Some?
    ensures Receive(p, arrival.value, md, now).None?
  {
    hide Cost;
    if arrival.value.Progress? {
      ProgressExactly(p, md, save, acked, sent, arrival.value.receivedBytes, arrival.value.replayedTick, now);
    }
  }

  /** One improper message, wherever it stands among the others, or a fingerprint report costs the peer its place. */
  lemma {:induction false} ImproperArrivalDisconnects(
      p: Peer, arrivals: seq<Arrival>, md: SaveMetadata, save: seq<byte>, acked: nat, sent: nat, now: nat, i: nat)
    requires PeerAt(p, md, save, acked, sent) && i < |arrivals| && Improper(arrivals[i], md)
    ensures ReceiveAll(p, arrivals, md, now).None?
    decreases |arrivals|
  {
    hide Cost, PeerAt, Receive, Improper;
    if arrivals[0].Some? {
      if i == 0 {
        ImproperRefused(p, arrivals[0], md, save, acked, sent, now);
      } else if Receive(p, arrivals[0].value, md, now).Some? {
        ReceiveKeeps(p, arrivals[0].value, md, save, acked, sent, now);
        var p' := Receive(p, arrivals[0].value, md, now).value;
        ImproperArrivalDisconnects(p', arrivals[1..], md, save, AckedNow(p', sent), sent, now, i - 1);
      }
    }
  }

  lemma ImproperRoundDisconnects(p: Peer, save: seq<byte>, md: SaveMetadata, round: Round)
    requires Tracked(p, md, save)
    requires round.hashReport || exists i :: 0 <= i < |round.arrivals| && Improper(round.arrivals[i], md)
    ensures ServePeer(p, save, md, round).None?
  {
    hide Pump, Improper;
    if !round.hashReport {
      var i :| 0 <= i < |round.arrivals| && Improper(round.arrivals[i], md);
      PumpTracked(p, md, save, round.grants);
      var p' := Pump(p, save, md, round.grants).peer;
      var acked: nat, sent: nat :| PeerAt(p', md, save, acked, sent);
      ImproperArrivalDisconnects(p', round.arrivals, md, save, acked, sent, round.now, i);
    }
  }

  /** A peer becomes ready only by saying so, of the announced state, once everything was sent to it. */
  lemma {:induction false} ReadyBySaying(p: Peer, arrivals: seq<Arrival>, md: SaveMetadata, now: nat)
    requires ReceiveAll(p, arrivals, md, now).Some?
    requires p.phase != Verified && ReceiveAll(p, arrivals, md, now).value.phase == Verified
    ensures p.phase == AwaitingReadiness && Some(Ready(md.tick, md.hash)) in arrivals
    decreases |arrivals|
  {
    hide Receive;
    var m := arrivals[0].value;
    PhaseMovesBySaying(p, m, md, now);
    var p' := Receive(p, m, md, now).value;
    if p'.phase != Verified {
      ReadyBySaying(p', arrivals[1..], md, now);
    }
  }

  lemma PhaseMovesBySaying(p: Peer, m: ClientMessage, md: SaveMetadata, now: nat)
    requires Receive(p, m, md, now).Some?
    ensures var p' := Receive(p, m, md, now).value;
      p'.phase == p.phase || (p.phase == AwaitingReadiness && p'.phase == Verified && m == Ready(md.tick, md.hash))
  {
    match m
    case Progress(receivedBytes, replayedTick) =>
      ReleaseKeeps(p.(lastProgress := now, received := receivedBytes, replayed := replayedTick), receivedBytes);
    case _ =>
  }

  lemma SentBeforeReady(p: Peer, md: SaveMetadata, save: seq<byte>)
    requires Tracked(p, md, save) && p.phase == AwaitingReadiness
    ensures p.offset == |save|
  {
    hide Cost;
    LastEnd(save);
  }

  class StartupPeer {
    var phase: TransferPhase
    var began: bool
    var offset: nat
    var received: nat
    var outstanding: seq<(nat, nat)>
    var receiveMemory: nat
    var replayed: nat
    var lastProgress: nat

    function AsPeer(): Peer
      reads this
    {
      Peer(phase, began, offset, received, outstanding, receiveMemory, replayed, lastProgress)
    }

    ghost predicate Valid(md: SaveMetadata, save: seq<byte>)
      reads this
    {
      Tracked(AsPeer(), md, save)
    }

    constructor (now: nat)
      ensures AsPeer() == NewPeer(now)
    {
      phase, began, offset, received, outstanding := Transferring, false, 0, 0, [];
      receiveMemory, replayed, lastProgress := 0, 0, now;
    }

    method PumpTo(md: SaveMetadata, save: seq<byte>, grants: nat) returns (messages: seq<SaveMessage>)
      requires Valid(md, save)
      modifies this
      ensures Valid(md, save)
      ensures Pumped(AsPeer(), messages) == Pump(old(AsPeer()), save, md, grants)
    {
      hide Cost, Tracked, PumpChunks;
      PumpTracked(AsPeer(), md, save, grants);
      TrackedMemory(AsPeer(), md, save);
      messages := [];
      if phase != Transferring {
        return;
      }
      if began {
        messages := PumpRest(save, grants);
        return;
      }
      if grants == 0 {
        return;
      }
      var cost := Cost(Begin(md));
      CostBounds(Begin(md));
      outstanding := outstanding + [(0, cost)];
      receiveMemory := receiveMemory + cost;
      began := true;
      messages := PumpRest(save, grants - 1);
      messages := [Begin(md)] + messages;
    }

    /** The chunk loop of `pump`. */
    method PumpRest(save: seq<byte>, grants: nat) returns (messages: seq<SaveMessage>)
      requires phase == Transferring && receiveMemory <= CHANNEL_SAVE_MAX_MEM
      modifies this
      ensures Pumped(AsPeer(), messages) == PumpChunks(old(AsPeer()), save, grants)
      ensures receiveMemory <= CHANNEL_SAVE_MAX_MEM
    {
      hide Cost, PumpChunks;
      var room := grants;
      messages := [];
      SentNothingBefore(PumpChunks(AsPeer(), save, room));
      while offset < |save|
        invariant phase == Transferring && receiveMemory <= CHANNEL_SAVE_MAX_MEM
        invariant PumpChunks(old(AsPeer()), save, grants) == SentBefore(messages, PumpChunks(AsPeer(), save, room))
      {
        PumpChunksUnfolds(messages, AsPeer(), save, room);
        var end := Min(offset + MAX_SAVE_CHUNK_BYTES, |save|);
        var chunk := Chunk(save[offset..end]);
        var cost := Cost(chunk);
        // The subtraction cannot underflow: reserved memory never exceeds the channel's.
        var free: nat := CHANNEL_SAVE_MAX_MEM - receiveMemory;
        if room == 0 || cost > free {
          return;
        }
        messages := messages + [chunk];
        outstanding := outstanding + [(end, cost)];
        receiveMemory := receiveMemory + cost;
        offset := end;
        room := room - 1;
      }
      PumpChunksUnfolds(messages, AsPeer(), save, room);
      phase := AwaitingReadiness;
    }

    method ReceiveMessage(m: ClientMessage, md: SaveMetadata, ghost save: seq<byte>, now: nat) returns (ok: bool)
      requires Valid(md, save)
      modifies this
      ensures Valid(md, save)
      ensures ok <==> Receive(old(AsPeer()), m, md, now).Some?
      ensures AsPeer() == if ok then Receive(old(AsPeer()), m, md, now).value else old(AsPeer())
    {
      hide Cost, Tracked;
      ReceiveTracked(AsPeer(), m, md, save, now);
      TrackedMemory(AsPeer(), md, save);
      match m {
        case Input(_) =>
          return false;
        case Ready(tick, hash) =>
          if !(phase == AwaitingReadiness && tick == md.tick && hash == md.hash) {
            return false;
          }
          phase := Verified;
          lastProgress := now;
        case Progress(receivedBytes, replayedTick) =>
          if !Admissible(AsPeer(), md, receivedBytes, replayedTick) {
            return false;
          }
          if receivedBytes > received || replayedTick > replayed {
            lastProgress := now;
            received := receivedBytes;
            replayed := replayedTick;
            ReleaseConsumed(receivedBytes);
          }
      }
      ok := true;
    }

    /** The release loop of `receive`. */
    method ReleaseConsumed(receivedBytes: nat)
      requires receiveMemory == TotalCost(outstanding)
      modifies this
      ensures AsPeer() == Release(old(AsPeer()), receivedBytes)
    {
      while outstanding != []
        invariant receiveMemory == TotalCost(outstanding)
        invariant Release(old(AsPeer()), receivedBytes) == Release(AsPeer(), receivedBytes)
        decreases |outstanding|
      {
        if receivedBytes == 0 || outstanding[0].0 > receivedBytes {
          return;
        }
        // The subtraction cannot underflow: reserved memory is the sum over the window.
        receiveMemory := receiveMemory - outstanding[0].1;
        outstanding := outstanding[1..];
      }
    }

    /** Receive until the first malformed or unacceptable message. */
    method ReceiveMessages(arrivals: seq<Arrival>, md: SaveMetadata, ghost save: seq<byte>, now: nat) returns (ok: bool)
      requires Valid(md, save)
      modifies this
      ensures Valid(md, save)
      ensures ok <==> ReceiveAll(old(AsPeer()), arrivals, md, now).Some?
      ensures ok ==> AsPeer() == ReceiveAll(old(AsPeer()), arrivals, md, now).value
    {
      hide Receive, Tracked;
      ghost var before := AsPeer();
      var i := 0;
      assert arrivals[0..] == arrivals;
      while i < |arrivals|
        invariant i <= |arrivals| && Valid(md, save)
        invariant ReceiveAll(before, arrivals, md, now) == ReceiveAll(AsPeer(), arrivals[i..], md, now)
      {
        assert arrivals[i..][0] == arrivals[i] && arrivals[i..][1..] == arrivals[i + 1..];
        if arrivals[i].None? {
          return false;
        }
        var received := ReceiveMessage(arrivals[i].value, md, save, now);
        if !received {
          return false;
        }
        i := i + 1;
      }
      ok := true;
    }

    /** One iteration of `wait_for_clients` for this peer; `keep` is false when it must be disconnected. */
    method Serve(md: SaveMetadata, save: seq<byte>, round: Round) returns (sent: seq<SaveMessage>, keep: bool)
      requires Valid(md, save)
      modifies this
      ensures Valid(md, save)
      ensures sent == Pump(old(AsPeer()), save, md, round.grants).sent
      ensures keep <==> ServePeer(old(AsPeer()), save, md, round).Some?
      ensures keep ==> AsPeer() == ServePeer(old(AsPeer()), save, md, round).value
    {
      hide Pump, ReceiveAll, TimedOut, Tracked;
      sent := PumpTo(md, save, round.grants);
      var received := ReceiveMessages(round.arrivals, md, save, round.now);
      var late := IsTimedOut(round.now);
      keep := received && !round.hashReport && !late;
    }

    method IsTimedOut(now: nat) returns (late: bool)
      ensures late <==> TimedOut(AsPeer(), now)
    {
      var waited: nat := if now > lastProgress then now - lastProgress else 0;
      late := phase != Verified && waited >= STARTUP_TIMEOUT;
    }
  }
}

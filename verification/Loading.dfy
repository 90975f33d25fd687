/**
  An honest client's startup refines the transfer: after any number of messages it holds exactly
  the save bytes they delivered, it replays exactly the save, and the state it comes to is the
  authority's (crates/synctick/src/startup.rs:210-315, crates/synctick/src/run_client.rs:60-110).
*/
module Loading {
  import opened Bytes
  import opened Envelope
  import opened ReplayLog
  import opened Simulation
  import opened Replay
  import opened Saves
  import T = Transfer
  import opened Replica

  /** What the authority offers: a game, the save, its description, and what the save means. */
  datatype Offer<!S> = Offer(game: Game<S>, save: seq<byte>, md: SaveMetadata, loaded: Saves.Loaded<S>)

  ghost predicate Sound<S>(u: Offer<S>) {
    Meaning(u.game, u.save) == Some(u.loaded) && Describes(u.game, u.md, u.save, u.loaded.state)
  }

  function Body<S>(u: Offer<S>): seq<byte>
    requires ReadHeader(u.save).Ok?
  {
    ReadHeader(u.save).value.1
  }

  /** The state the save's header initializes. */
  function Genesis<S>(u: Offer<S>): S {
    var initial := Initialize(u.game, u.loaded.header);
    if initial.Some? then initial.value else u.loaded.state
  }

  /** Ticks between fingerprints, on the authority and on every replica: both hold the save's header. */
  function Interval<S>(u: Offer<S>): (interval: nat)
    ensures interval > 0
  {
    var tickNanos := u.loaded.header.tickNanos;
    if MIN_TICK_NANOS <= tickNanos <= MAX_TICK_NANOS then
      HashIntervalIsNearestSecond(tickNanos);
      HashInterval(tickNanos)
    else 1
  }

  /** Whatever `run_server` loaded or mirrored, what it offers its clients is sound. */
  lemma OffersAreSound<S>(g: Game<S>, own: Header, load: Option<seq<byte>>, recording: bool)
    requires Shaped(own) && Compatible(own) && StartFrom(g, own, load).Some?
    requires |SaveBytes(StartFrom(g, own, load).value, load, recording)| <= U64_MAX
    ensures var l := StartFrom(g, own, load).value;
      var save := SaveBytes(l, load, recording);
      Sound(Offer(g, save, SaveMetadata(|save|, g.tickOf(l.state), g.hashOf(l.state)), l))
  {
    hide Meaning, StartFrom, SaveBytes, Shaped, Compatible;
    SaveMeansState(g, own, load, recording);
  }

  /** What the save's bytes mean. */
  lemma SaveFacts<S>(u: Offer<S>)
    requires Sound(u)
    ensures ReadHeader(u.save) == Ok((u.loaded.header, Body(u)))
    ensures Parse(Body(u)) == (u.loaded.records, Clean)
  {
    hide Parse, Run, Initialize;
  }

  /** What its records come to. */
  lemma OfferFacts<S>(u: Offer<S>)
    requires Sound(u)
    ensures u.save != [] && u.md.totalBytes == |u.save|
    ensures Initialize(u.game, u.loaded.header).Some? && u.game.tickOf(Genesis(u)) == 0
    ensures Run(u.game, Genesis(u), u.loaded.records) == Ok(u.loaded.state)
    ensures |u.loaded.records| == u.md.tick == u.game.tickOf(u.loaded.state)
    ensures u.md.hash == u.game.hashOf(u.loaded.state)
  {
    hide Parse, Run;
    HeaderIsNotEmpty(u.save);
    RunNumbersTicks(u.game, Genesis(u), u.loaded.records);
  }

  lemma IntervalIsTheHeaders<S>(u: Offer<S>)
    requires Sound(u)
    ensures Interval(u) == HashInterval(u.loaded.header.tickNanos)
  {
    hide Parse, Run, Initialize;
  }

  /** `s` is the state after the first `k` saved records. */
  ghost predicate Reached<S>(u: Offer<S>, s: S, k: nat) {
    && k <= |u.loaded.records|
    && Run(u.game, Genesis(u), u.loaded.records[..k]) == Ok(s)
  }

  /** `s` is the state after the first `k` saved records, and `rest` holds exactly the others. */
  ghost predicate Midway<S>(u: Offer<S>, s: S, k: nat, rest: seq<byte>) {
    Reached(u, s, k) && Parse(rest) == (u.loaded.records[k..], Clean)
  }

  lemma ReachedTick<S>(u: Offer<S>, s: S, k: nat)
    requires Sound(u) && Reached(u, s, k)
    ensures u.game.tickOf(s) == k <= u.md.tick
    ensures k == |u.loaded.records| ==> s == u.loaded.state
  {
    OfferFacts(u);
    RunNumbersTicks(u.game, Genesis(u), u.loaded.records[..k]);
    assert u.loaded.records[..|u.loaded.records|] == u.loaded.records;
  }

  /** A client that has consumed the first `taken` messages of the transfer. */
  ghost predicate StartupAt<S>(u: Offer<S>, c: Startup, sim: Option<S>, taken: nat) {
    && taken <= T.Total(u.save) && c.received == T.Delivered(u.save, taken)
    && match c.phase
       case Receiving(begin, bytes) =>
         && taken < T.Total(u.save) && begin == (if taken == 0 then None else Some(u.md))
         && bytes == u.save[..c.received] && sim == None && c.replayed == 0
       case Loading(md, header, rest) =>
         && taken == T.Total(u.save) && md == u.md && header == u.loaded.header
         && (match sim
             case None => ReadHeader(u.save) == Ok((header, rest)) && c.replayed == 0
             case Some(s) => Midway(u, s, c.replayed, rest))
       case AwaitingStart(md) =>
         taken == T.Total(u.save) && md == u.md && sim == Some(u.loaded.state) && c.replayed == u.md.tick
       case Live => taken == T.Total(u.save)
  }

  // ----- Receiving -----

  /** The chunk that follows `taken` messages carries on exactly where they ended. */
  lemma NextChunk(md: SaveMetadata, save: seq<byte>, taken: nat)
    requires 0 < taken < T.Total(save)
    ensures var (from, to) := (T.Delivered(save, taken), T.Delivered(save, taken + 1));
      && from < to <= |save| && to - from <= MAX_SAVE_CHUNK_BYTES
      && T.Nth(md, save, taken) == Chunk(save[from..to])
      && save[..from] + save[from..to] == save[..to]
      && (to == |save| <==> taken + 1 == T.Total(save))
  {
    T.EndsIncrease(save, taken - 1, taken);
    T.DeliveredIncreases(save, taken + 1, T.Total(save));
  }

  lemma ReceivedBegin<S>(u: Offer<S>, c: Startup)
    requires Sound(u) && StartupAt(u, c, None, 0)
    ensures var r := ReceiveSave(c, T.Nth(u.md, u.save, 0));
      r.Ok? && StartupAt(u, r.value, None, 1) && r.value.replayed == 0
  {
    hide Parse, Run, ReadHeader, Sound, Midway, Initialize;
    OfferFacts(u);
    T.DeliveredIncreases(u.save, 1, T.Total(u.save));
  }

  lemma ReceivedChunk<S>(u: Offer<S>, c: Startup, taken: nat)
    requires Sound(u) && StartupAt(u, c, None, taken) && 0 < taken < T.Total(u.save)
    ensures var r := ReceiveSave(c, T.Nth(u.md, u.save, taken));
      r.Ok? && StartupAt(u, r.value, None, taken + 1) && r.value.replayed == 0
  {
    hide Parse, Run, ReadHeader, Sound, Midway, Initialize, T.Total, T.Delivered, T.Nth;
    OfferFacts(u);
    SaveFacts(u);
    NextChunk(u.md, u.save, taken);
    assert u.save[..|u.save|] == u.save;
  }

  lemma {:induction false} ReceivedSlice<S>(u: Offer<S>, c: Startup, sim: Option<S>, taken: nat, n: nat)
    requires Sound(u) && StartupAt(u, c, sim, taken) && taken + n <= T.Total(u.save)
    ensures var r := ReceiveSaves(c, T.Slice(u.md, u.save, taken, taken + n));
      && r.Ok? && StartupAt(u, r.value, sim, taken + n)
      && (n == 0 ==> r.value == c) && (n > 0 ==> r.value.replayed == 0)
    decreases n
  {
    hide Sound, StartupAt, ReceiveSave, T.Nth, T.Total;
    if n > 0 {
      T.SliceSteps(u.md, u.save, taken, taken + n);
      NotYetLoaded(u, c, sim, taken);
      if taken == 0 {
        ReceivedBegin(u, c);
      } else {
        ReceivedChunk(u, c, taken);
      }
      var next := ReceiveSave(c, T.Nth(u.md, u.save, taken)).value;
      assert T.Slice(u.md, u.save, taken, taken + n)[1..] == T.Slice(u.md, u.save, taken + 1, taken + n);
      ReceivedSlice(u, next, None, taken + 1, n - 1);
    }
  }

  lemma NotYetLoaded<S>(u: Offer<S>, c: Startup, sim: Option<S>, taken: nat)
    requires Sound(u) && StartupAt(u, c, sim, taken) && taken < T.Total(u.save)
    ensures sim == None && c.phase.Receiving?
  {
  }

  // ----- Replaying -----

  /** A batch on a sound save never fails: it moves along the one fold that produced the offered state. */
  ghost predicate BatchAlong<S>(u: Offer<S>, k: nat, r: Batch<S>) {
    var k' := k + |r.done|;
    && !r.status.Failed? && Reached(u, r.state, k')
    && (r.status.More? ==> Midway(u, r.state, k', r.rest))
    && (r.status.Finished? ==> k' == |u.loaded.records|)
  }

  lemma BatchReaches<S>(u: Offer<S>, s: S, k: nat, rest: seq<byte>, limit: nat)
    requires Sound(u) && Midway(u, s, k, rest)
    ensures BatchAlong(u, k, RunBatch(u.game, s, rest, limit))
  {
    hide Sound, Parse, Run, RunBatch, IsFold, Initialize;
    OfferFacts(u);
    BatchIsAFold(u.game, s, rest, limit);
    FoldStaysOnLog(u.game, Genesis(u), u.loaded.records, s, k, limit, RunBatch(u.game, s, rest, limit));
  }

  /** What one step comes to, for a client that holds the whole save. */
  ghost predicate SteppedTo<S>(u: Offer<S>, c: Startup, r: Result<Stepped<S>, ClientError>) {
    && r.Ok? && var to := r.value.startup;
    && StartupAt(u, to, r.value.sim, T.Total(u.save)) && !to.phase.Receiving?
    && to.received == c.received && c.replayed <= to.replayed
    && match to.phase
       case Loading(_, _, _) => r.value.message == None && r.value.sim.Some?
       case AwaitingStart(_) => r.value.message == Some(Ready(u.md.tick, u.md.hash))
       case _ => false
  }

  lemma BatchDone<S>(u: Offer<S>, c: Startup, batch: Batch<S>)
    requires Sound(u) && c.phase.Loading? && c.phase.metadata == u.md && c.phase.header == u.loaded.header
    requires c.received == T.Delivered(u.save, T.Total(u.save))
    requires BatchAlong(u, c.replayed, batch)
    ensures SteppedTo(u, c, AfterBatch(u.game, c, batch.state, batch.rest, batch.status.Finished?))
  {
    hide Sound, Reached, Midway, Run, Parse, ReadHeader, Initialize, T.Total, T.Delivered;
    OfferFacts(u);
    ReachedTick(u, batch.state, c.replayed + |batch.done|);
  }

  /** A client that holds the whole save always passes: it never errs, and ends with the fingerprint. */
  lemma StepAtSave<S>(u: Offer<S>, c: Startup, sim: Option<S>, cutoff: nat)
    requires Sound(u) && StartupAt(u, c, sim, T.Total(u.save)) && c.phase.Loading?
    ensures SteppedTo(u, c, LoadStep(u.game, c, sim, cutoff))
  {
    hide Sound, Parse, RunBatch, Run, AfterBatch, BatchAlong, ReadHeader, SteppedTo, T.Total, T.Delivered;
    OfferFacts(u);
    SaveFacts(u);
    var s := if sim.None? then Genesis(u) else sim.value;
    if sim.None? {
      assert u.loaded.records[..0] == [] && u.loaded.records[0..] == u.loaded.records;
      RunNothing(u.game, s);
    }
    var (rest, limit) := (c.phase.rest, Min(cutoff, BATCH_RECORDS));
    BatchReaches(u, s, c.replayed, rest, limit);
    BatchDone(u, c, RunBatch(u.game, s, rest, limit));
    assert !RunBatch(u.game, s, rest, limit).status.Failed? by {
      AlongNeverFails(u, c.replayed, RunBatch(u.game, s, rest, limit));
    }
  }

  lemma RunNothing<S>(g: Game<S>, s: S)
    ensures Run(g, s, []) == Ok(s)
  {
  }

  lemma AlongNeverFails<S>(u: Offer<S>, k: nat, r: Batch<S>)
    requires BatchAlong(u, k, r)
    ensures !r.status.Failed?
  {
  }

  // ----- Reporting -----

  /** What a progress report stands for: messages consumed and ticks replayed when it was sent. */
  type Mark = (nat, nat)

  predicate Below(x: Mark, y: Mark) { x.0 <= y.0 && x.1 <= y.1 }

  /** `m` truthfully reports `mark`. */
  ghost predicate Truthful<S>(u: Offer<S>, m: ClientMessage, mark: Mark) {
    && m.Progress? && m.receivedBytes == T.Delivered(u.save, mark.0) && m.replayedTick == mark.1
    && mark.0 <= T.Total(u.save) && mark.1 <= u.md.tick && (mark.1 > 0 ==> mark.0 == T.Total(u.save))
  }

  /** Truthful reports that only ever grow, from `low` to `high`, and leave out nothing reported. */
  ghost predicate Growing<S>(u: Offer<S>, ms: seq<ClientMessage>, marks: seq<Mark>, low: Mark, high: Mark)
    decreases |ms|
  {
    if ms == [] then
      marks == [] && Below(low, high) && T.Delivered(u.save, low.0) == T.Delivered(u.save, high.0) && low.1 == high.1
    else marks != [] && Truthful(u, ms[0], marks[0]) && Below(low, marks[0]) && Growing(u, ms[1..], marks[1..],
        marks[0], high)
  }

  lemma {:induction false} GrowingJoins<S>(
      u: Offer<S>, xs: seq<ClientMessage>, ms: seq<Mark>, ys: seq<ClientMessage>, ns: seq<Mark>, low: Mark,
          mid: Mark, high: Mark)
    requires Growing(u, xs, ms, low, mid) && Growing(u, ys, ns, mid, high)
    ensures Growing(u, xs + ys, ms + ns, low, high)
    decreases |xs|
  {
    hide Truthful;
    if xs == [] {
      assert xs + ys == ys && ms + ns == ns;
      GrowingFromLower(u, ys, ns, low, mid, high);
    } else {
      assert (xs + ys)[1..] == xs[1..] + ys && (ms + ns)[1..] == ms[1..] + ns;
      GrowingJoins(u, xs[1..], ms[1..], ys, ns, ms[0], mid, high);
    }
  }

  lemma {:induction false} GrowingFromLower<S>(u: Offer<S>, ms: seq<ClientMessage>, marks: seq<Mark>, lower: Mark,
      low: Mark, high: Mark)
    requires Below(lower, low) && T.Delivered(u.save, lower.0) == T.Delivered(u.save, low.0) && lower.1 == low.1
    requires Growing(u, ms, marks, low, high)
    ensures Growing(u, ms, marks, lower, high)
    decreases |ms|
  {
    if ms != [] {
      GrowingBounds(u, ms, marks, low, high);
    }
  }

  lemma {:induction false} GrowingBounds<S>(u: Offer<S>, ms: seq<ClientMessage>, marks: seq<Mark>, low: Mark,
      high: Mark)
    requires Growing(u, ms, marks, low, high)
    ensures Below(low, high) && |ms| == |marks|
    decreases |ms|
  {
    if ms != [] {
      GrowingBounds(u, ms[1..], marks[1..], marks[0], high);
    }
  }

  /** The marks of the progress reports among messages sent after `taken` messages were consumed. */
  function ProgressMarks(taken: nat, ms: seq<ClientMessage>): seq<Mark> {
    if ms == [] then []
    else (if ms[0].Progress? then [(taken, ms[0].replayedTick)] else []) + ProgressMarks(taken, ms[1..])
  }

  /** Between two iterations: everything received has been acknowledged. */
  ghost predicate ClientAt<S>(u: Offer<S>, c: Client<S>, taken: nat) {
    && StartupAt(u, c.startup, c.sim, taken)
    && c.reported.0 == c.startup.received && c.reported.1 <= c.startup.replayed
  }

  lemma NewClientAt<S>(u: Offer<S>)
    requires u.save != []
    ensures ClientAt(u, NewClient(), 0)
  {
    T.EndsIncrease(u.save, 0, T.Chunks(u.save));
  }

  lemma ReportIsTruthful<S>(u: Offer<S>, c: Client<S>, taken: nat)
    requires StartupAt(u, c.startup, c.sim, taken)
    requires c.startup.phase.Receiving? || c.startup.phase.Loading?
    requires Sound(u)
    ensures Truthful(u, Progress(c.startup.received, c.startup.replayed), (taken, c.startup.replayed))
  {
    hide Sound, Run, Parse, ReadHeader, Initialize, T.Total, T.Delivered;
    if c.startup.phase.Loading? && c.sim.Some? {
      ReachedTick(u, c.sim.value, c.startup.replayed);
    }
  }

  /** A client whose startup is over, or that has nothing new: an iteration's loading part is silent. */
  lemma LoadedTurnIsSilent<S>(u: Offer<S>, c: Client<S>, turn: Replica.Turn)
    requires ClientAt(u, c, T.Total(u.save)) && !IsLoading(c.startup) && turn.saves == []
    ensures LoadTurn(u.game, c, turn) == Ok((c, []))
  {
    hide T.Total, T.Delivered;
    var nothing: seq<ClientMessage> := [];
    assert nothing + nothing + nothing == nothing;
  }

  lemma ReceivedIsDelivered<S>(u: Offer<S>, c: Startup, sim: Option<S>, taken: nat)
    requires StartupAt(u, c, sim, taken)
    ensures c.received == T.Delivered(u.save, taken) && taken <= T.Total(u.save)
  {
    hide T.Delivered, T.Total;
  }

  lemma ReportingGrows<S>(u: Offer<S>, c: Client<S>, taken: nat, due: bool, low: nat)
    requires Sound(u) && StartupAt(u, c.startup, c.sim, taken) && c.reported.1 <= c.startup.replayed && low <= taken
    requires c.reported.0 == T.Delivered(u.save, low)
    requires if due then IsLoading(c.startup) else c.startup.received == c.reported.0
    ensures var (c', ms) := Reporting(c, due);
      && c' == c.(reported := c'.reported) && c'.reported.1 <= c.startup.replayed
      && (c.reported.0 == c.startup.received || due ==> c'.reported.0 == c.startup.received)
      && Growing(u, ms, ProgressMarks(taken, ms), (low, c.reported.1), (taken, c'.reported.1))
  {
    hide Sound, StartupAt, Truthful, T.Total, T.Delivered;
    ReceivedIsDelivered(u, c.startup, c.sim, taken);
    var (c', ms) := Reporting(c, due);
    if ms != [] {
      ReportIsTruthful(u, c, taken);
      assert ms[1..] == [] && ProgressMarks(taken, ms) == [(taken, c.startup.replayed)];
      assert ProgressMarks(taken, ms)[1..] == [];
    }
  }

  /** One loading iteration of a client that consumes the next `n` messages. */
  ghost predicate LoadedOn<S>(
      u: Offer<S>, c: Client<S>, taken: nat, n: nat, r: Result<(Client<S>, seq<ClientMessage>), ClientError>)
  {
    && r.Ok? && var (c', ms) := r.value;
    && ClientAt(u, c', taken + n) && !c'.startup.phase.Live?
    && exists progress :: ms == progress + Announced(u, c')
         && Growing(u, progress, ProgressMarks(taken + n, ms), (taken, c.reported.1), (taken + n, c'.reported.1))
  }

  /** The readiness message of a client that just finished loading. */
  function Announced<S>(u: Offer<S>, c: Client<S>): seq<ClientMessage> {
    if c.startup.phase.AwaitingStart? then [Ready(u.md.tick, u.md.hash)] else []
  }

  lemma {:induction false} ProgressMarksJoin(taken: nat, xs: seq<ClientMessage>, ys: seq<ClientMessage>)
    ensures ProgressMarks(taken, xs + ys) == ProgressMarks(taken, xs) + ProgressMarks(taken, ys)
    decreases |xs|
  {
    if xs == [] {
      assert xs + ys == ys;
    } else {
      assert (xs + ys)[1..] == xs[1..] + ys;
      ProgressMarksJoin(taken, xs[1..], ys);
      Regroup(if xs[0].Progress? then [(taken, xs[0].replayedTick)] else [],
        ProgressMarks(taken, xs[1..]), ProgressMarks(taken, ys));
    }
  }

  /** Receiving part of the iteration: save messages, then the prompt acknowledgement. */
  lemma AcknowledgedOn<S>(u: Offer<S>, c: Client<S>, taken: nat, n: nat)
    returns (c2: Client<S>, ack: seq<ClientMessage>)
    requires Sound(u) && ClientAt(u, c, taken) && taken + n <= T.Total(u.save) && IsLoading(c.startup)
    ensures var received := ReceiveSaves(c.startup, T.Slice(u.md, u.save, taken, taken + n));
      && received.Ok?
      && var c1 := c.(startup := received.value);
      (c2, ack) == Reporting(c1, c1.startup.received != c1.reported.0)
    ensures ClientAt(u, c2, taken + n) && IsLoading(c2.startup)
    ensures Growing(u, ack, ProgressMarks(taken + n, ack), (taken, c.reported.1), (taken + n, c2.reported.1))
  {
    hide Sound, ReceiveSaves, T.Slice, T.Total, T.Delivered, Midway, ReadHeader;
    ReceivedSlice(u, c.startup, c.sim, taken, n);
    var c1 := c.(startup := ReceiveSaves(c.startup, T.Slice(u.md, u.save, taken, taken + n)).value);
    if n > 0 {
      NotYetLoaded(u, c.startup, c.sim, taken);
    }
    StillLoading(u, c.startup, T.Slice(u.md, u.save, taken, taken + n));
    ReportingGrows(u, c1, taken + n, c1.startup.received != c1.reported.0, taken);
    var reported := Reporting(c1, c1.startup.received != c1.reported.0);
    c2, ack := reported.0, reported.1;
  }

  lemma {:induction false} StillLoading<S>(u: Offer<S>, c: Startup, ms: seq<SaveMessage>)
    requires IsLoading(c)
    ensures ReceiveSaves(c, ms).Ok? ==> IsLoading(ReceiveSaves(c, ms).value)
    decreases |ms|
  {
    hide ReadHeader;
    if ms != [] && ReceiveSave(c, ms[0]).Ok? {
      StillLoading(u, ReceiveSave(c, ms[0]).value, ms[1..]);
    }
  }

  /** Replaying part of the iteration. */
  lemma ReplayedOn<S>(u: Offer<S>, c: Client<S>, taken: nat, cutoff: nat)
    requires Sound(u) && ClientAt(u, c, taken) && IsLoading(c.startup)
    ensures var r := LoadStep(u.game, c.startup, c.sim, cutoff);
      && r.Ok?
      && var c' := c.(startup := r.value.startup, sim := r.value.sim);
      && ClientAt(u, c', taken) && !c'.startup.phase.Live?
      && Announced(u, c') == (if r.value.message.Some? then [r.value.message.value] else [])
  {
    hide Sound, T.Total, T.Delivered, Midway, ReadHeader, RunBatch, AfterBatch, Initialize;
    if c.startup.phase.Loading? {
      StepAtSave(u, c.startup, c.sim, cutoff);
    }
  }

  lemma LoadTurnKeeps<S>(u: Offer<S>, c: Client<S>, taken: nat, n: nat, turn: Replica.Turn)
    requires Sound(u) && ClientAt(u, c, taken) && taken + n <= T.Total(u.save) && IsLoading(c.startup)
    requires turn.saves == T.Slice(u.md, u.save, taken, taken + n)
    ensures LoadedOn(u, c, taken, n, LoadTurn(u.game, c, turn))
  {
    hide Sound, ReceiveSaves, LoadStep, Reporting, StartupAt, T.Slice, T.Total, T.Delivered, Growing, ProgressMarks;
    var now := taken + n;
    var c2, ack := AcknowledgedOn(u, c, taken, n);
    ReplayedOn(u, c2, now, turn.cutoff);
    var step := LoadStep(u.game, c2.startup, c2.sim, turn.cutoff).value;
    var c3 := c2.(startup := step.startup, sim := step.sim);
    var ready := Announced(u, c3);
    var due := turn.timer && IsLoading(c3.startup);
    ReceivedIsDelivered(u, c3.startup, c3.sim, now);
    ReportingGrows(u, c3, now, due, now);
    var (c4, progress) := Reporting(c3, due);
    GrowingJoins(u, ack, ProgressMarks(now, ack), progress, ProgressMarks(now, progress),
      (taken, c.reported.1), (now, c2.reported.1), (now, c4.reported.1));
    ReadySitsLast(u, c3, due, now, ack, progress);
    var ms := ack + ready + progress;
    assert LoadTurn(u.game, c, turn) == Ok((c4, ms));
    assert ms == (ack + progress) + Announced(u, c4);
    assert Growing(u, ack + progress, ProgressMarks(now, ms), (taken, c.reported.1), (now, c4.reported.1));
    assert ClientAt(u, c4, now);
  }

  /** Readiness and a timed report exclude each other, so readiness comes last. */
  lemma ReadySitsLast<S>(u: Offer<S>, c: Client<S>, due: bool, taken: nat, ack: seq<ClientMessage>,
      progress: seq<ClientMessage>)
    requires due ==> IsLoading(c.startup)
    requires progress == Reporting(c, due).1
    ensures ack + Announced(u, c) + progress == (ack + progress) + Announced(u, c)
    ensures ProgressMarks(taken, ack + Announced(u, c) + progress)
         == ProgressMarks(taken, ack) + ProgressMarks(taken, progress)
  {
    var ready := Announced(u, c);
    ProgressMarksJoin(taken, ack + progress, ready);
    ProgressMarksJoin(taken, ack, progress);
    if ready == [] {
      assert ack + ready + progress == ack + progress == (ack + progress) + ready;
    } else {
      assert progress == [];
      assert ack + ready + progress == ack + ready == (ack + progress) + ready;
      assert ready[1..] == [];
      assert ProgressMarks(taken, ready) == [] + ProgressMarks(taken, ready[1..]);
    }
  }
}

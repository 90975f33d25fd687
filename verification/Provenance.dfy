/**
  Where a replica's state comes from. A replica trusts no server: from its own checks alone, over
  any run against any sender, it follows that it plays a state it initialized and replayed itself,
  that this state had the announced tick and fingerprint, that Start named exactly those, and that
  everything since is one fold of the ticks it heard
  (crates/synctick/src/startup.rs:213-315, crates/synctick/src/run_client.rs:48-143).
*/
module Provenance {
  import opened Bytes
  import opened Envelope
  import opened ReplayLog
  import opened Simulation
  import opened Replay
  import opened Saves
  import T = Transfer
  import opened Replica
  import opened Following

  // ----- What a replica has to show for its phase -----

  /** `saves` opens with the announcement of `md`, and its chunks carry all the announced bytes. */
  ghost predicate Delivered(saves: seq<SaveMessage>, md: SaveMetadata) {
    saves != [] && saves[0] == Begin(md) && |T.Carried(saves)| == md.totalBytes
  }

  /** `done` is what was replayed of a log whose records are in `body`; `rest` is still unread. */
  ghost predicate Replayed<S>(
      g: Game<S>, header: Header, body: seq<byte>, rest: seq<byte>, s: S, done: seq<TickAdvance>)
  {
    && Initialize(g, header).Some?
    && Run(g, Initialize(g, header).value, done) == Ok(s)
    && Parse(body) == (done + Parse(rest).0, Parse(rest).1)
  }

  /** A save being replayed: opened as a log, and the simulation so far is one fold from its header. */
  ghost predicate Halfway<S>(g: Game<S>, save: seq<byte>, header: Header, rest: seq<byte>, sim: Option<S>) {
    && ReadHeader(save).Ok? && ReadHeader(save).value.0 == header
    && var body := ReadHeader(save).value.1;
      match sim
      case None => rest == body
      case Some(s) => exists done :: Replayed(g, header, body, rest, s, done)
  }

  /** `save` means a state that has the announced tick and fingerprint. */
  ghost predicate Checked<S>(g: Game<S>, save: seq<byte>, md: SaveMetadata) {
    var loaded := Meaning(g, save);
    loaded.Some? && Describes(g, md, save, loaded.value.state)
  }

  /** Start for the announced state was heard in that state, then `log`, and `s` is where that leads. */
  ghost predicate InPlay<S>(g: Game<S>, saves: seq<SaveMessage>, downs: seq<ServerMessage>, md: SaveMetadata,
      log: seq<TickAdvance>, s: S)
  {
    && Delivered(saves, md) && Checked(g, T.Carried(saves), md)
    && downs == [Start(md.tick, md.hash)] + Ticks(log)
    && Run(g, Meaning(g, T.Carried(saves)).value.state, log) == Ok(s)
  }

  ghost predicate PlaysOn<S>(g: Game<S>, saves: seq<SaveMessage>, downs: seq<ServerMessage>, s: S) {
    exists md, log :: InPlay(g, saves, downs, md, log, s)
  }

  /** One announcement, then chunks of 1 byte to 256 KiB. */
  ghost predicate Orderly(saves: seq<SaveMessage>) {
    forall i :: 0 <= i < |saves| ==> saves[i].Begin? == (i == 0) && (i > 0 ==> 0 < |saves[i].bytes| <= 0x4_0000)
  }

  /** What a replica holds, in terms of every save message and every lockstep message it was ever sent. */
  ghost predicate Genuine<S>(g: Game<S>, c: Client<S>, saves: seq<SaveMessage>, downs: seq<ServerMessage>) {
    var (save, received, replayed, sim) := (T.Carried(saves), c.startup.received, c.startup.replayed, c.sim);
    && Orderly(saves)
    && match c.startup.phase
    case Receiving(begin, bytes) =>
      && downs == [] && sim == None && replayed == 0 && bytes == save && received == |save|
      && (if begin.None? then saves == [] else saves != [] && saves[0] == Begin(begin.value))
      && (begin.Some? ==> |save| < begin.value.totalBytes)
    case Loading(md, header, rest) =>
      && downs == [] && Delivered(saves, md) && received == md.totalBytes
      && Halfway(g, save, header, rest, sim)
      && (sim.Some? ==> replayed == g.tickOf(sim.value) <= md.tick)
    case AwaitingStart(md) =>
      downs == [] && Delivered(saves, md) && Checked(g, save, md) && sim == Some(Meaning(g, save).value.state)
    case Live =>
      sim.Some? && PlaysOn(g, saves, downs, sim.value)
  }

  // ----- Receiving -----

  lemma GenuineSave<S>(g: Game<S>, c: Client<S>, saves: seq<SaveMessage>, downs: seq<ServerMessage>, m: SaveMessage)
    requires Genuine(g, c, saves, downs) && ReceiveSave(c.startup, m).Ok?
    ensures Genuine(g, c.(startup := ReceiveSave(c.startup, m).value), saves + [m], downs)
  {
    hide ReadHeader, T.Carried, Checked, Replayed;
    T.CarriedPush(saves, m);
    T.CarriedCons(m, []);
    assert [] + [m] == [m];
    assert T.Carried(saves) + [] == T.Carried(saves);
  }

  lemma {:induction false} GenuineSaves<S>(
      g: Game<S>, c: Client<S>, saves: seq<SaveMessage>, downs: seq<ServerMessage>, ms: seq<SaveMessage>)
    requires Genuine(g, c, saves, downs) && ReceiveSaves(c.startup, ms).Ok?
    ensures Genuine(g, c.(startup := ReceiveSaves(c.startup, ms).value), saves + ms, downs)
    decreases |ms|
  {
    hide ReceiveSave, Genuine;
    if ms == [] {
      assert saves + ms == saves;
    } else {
      GenuineSave(g, c, saves, downs, ms[0]);
      GenuineSaves(g, c.(startup := ReceiveSave(c.startup, ms[0]).value), saves + [ms[0]], downs, ms[1..]);
      Regroup(saves, [ms[0]], ms[1..]);
      assert ms == [ms[0]] + ms[1..];
    }
  }

  // ----- Replaying -----

  lemma BatchReplays<S>(
      g: Game<S>, header: Header, body: seq<byte>, rest: seq<byte>, s: S, done: seq<TickAdvance>, limit: nat)
    requires Replayed(g, header, body, rest, s, done)
    ensures var r := RunBatch(g, s, rest, limit);
      && (r.status.More? ==> Replayed(g, header, body, r.rest, r.state, done + r.done))
      && (r.status.Finished? ==>
            Parse(body) == (done + r.done, Clean)
            && Run(g, Initialize(g, header).value, done + r.done) == Ok(r.state))
  {
    hide Parse, Run, RunBatch, Initialize, AdvanceTick;
    BatchIsAFold(g, s, rest, limit);
    var r := RunBatch(g, s, rest, limit);
    RunAppend(g, Initialize(g, header).value, done, r.done);
    var records := Parse(rest).0;
    assert records == r.done + records[|r.done|..];
    Regroup(done, r.done, records[|r.done|..]);
  }

  /** Whether its simulation is fresh or already under way, a save being replayed has replayed something. */
  lemma ReadyToReplay<S>(g: Game<S>, save: seq<byte>, header: Header, rest: seq<byte>, sim: Option<S>, ready: S)
    returns (done: seq<TickAdvance>)
    requires Halfway(g, save, header, rest, sim)
    requires (if sim.None? then Initialize(g, header) else sim) == Some(ready)
    ensures Initialize(g, header).Some? && Replayed(g, header, ReadHeader(save).value.1, rest, ready, done)
  {
    hide Parse, ReadHeader, Initialize;
    if sim.None? {
      done := [];
      assert done + Parse(rest).0 == Parse(rest).0;
    } else {
      done :| Replayed(g, header, ReadHeader(save).value.1, rest, ready, done);
    }
  }

  lemma ReplayedWhole<S>(g: Game<S>, save: seq<byte>, records: seq<TickAdvance>, s: S)
    requires ReadHeader(save).Ok? && Initialize(g, ReadHeader(save).value.0).Some?
    requires Parse(ReadHeader(save).value.1) == (records, Clean)
    requires Run(g, Initialize(g, ReadHeader(save).value.0).value, records) == Ok(s)
    ensures Meaning(g, save) == Some(Saves.Loaded(ReadHeader(save).value.0, records, s))
  {
    hide ReadHeader, Initialize, Parse, Run;
  }

  lemma GenuineStep<S>(g: Game<S>, c: Client<S>, saves: seq<SaveMessage>, downs: seq<ServerMessage>, cutoff: nat)
    requires Genuine(g, c, saves, downs) && LoadStep(g, c.startup, c.sim, cutoff).Ok?
    ensures var r := LoadStep(g, c.startup, c.sim, cutoff).value;
      Genuine(g, c.(startup := r.startup, sim := r.sim), saves, downs)
    ensures var r := LoadStep(g, c.startup, c.sim, cutoff).value;
      r.message.Some? ==>
        r.sim.Some? && r.message.value == Ready(g.tickOf(r.sim.value), g.hashOf(r.sim.value))
  {
    hide RunBatch, Initialize, ReadHeader, Parse, Run, Meaning, T.Carried, Replayed;
    if c.startup.phase.Loading? {
      var (save, header, rest) := (T.Carried(saves), c.startup.phase.header, c.startup.phase.rest);
      var ready := if c.sim.None? then Initialize(g, header).value else c.sim.value;
      var done := ReadyToReplay(g, save, header, rest, c.sim, ready);
      var batch := RunBatch(g, ready, rest, Min(cutoff, BATCH_RECORDS));
      BatchReplays(g, header, ReadHeader(save).value.1, rest, ready, done, Min(cutoff, BATCH_RECORDS));
      if batch.status.Finished? {
        ReplayedWhole(g, save, done + batch.done, batch.state);
      }
    }
  }

  /** Replay is bounded: one step executes at most 128 records. */
  lemma StepsAreBounded<S>(g: Game<S>, c: Startup, sim: Option<S>, cutoff: nat)
    requires LoadStep(g, c, sim, cutoff).Ok? && LoadStep(g, c, sim, cutoff).value.sim.Some?
    ensures var before := if sim.None? then 0 else g.tickOf(sim.value);
      before <= g.tickOf(LoadStep(g, c, sim, cutoff).value.sim.value) <= before + 128
  {
    hide RunBatch, Initialize, Parse, Run;
    if c.phase.Loading? {
      var ready := if sim.None? then Initialize(g, c.phase.header).value else sim.value;
      var batch := RunBatch(g, ready, c.phase.rest, Min(cutoff, BATCH_RECORDS));
      BatchIsAFold(g, ready, c.phase.rest, Min(cutoff, BATCH_RECORDS));
      RunNumbersTicks(g, ready, batch.done);
    }
  }

  // ----- Playing -----

  lemma StartHeard<S>(g: Game<S>, saves: seq<SaveMessage>, md: SaveMetadata)
    requires Delivered(saves, md) && Checked(g, T.Carried(saves), md)
    ensures PlaysOn(g, saves, [Start(md.tick, md.hash)], Meaning(g, T.Carried(saves)).value.state)
  {
    hide Meaning, T.Carried, Describes;
    var start: ServerMessage := Start(md.tick, md.hash);
    assert [start] == [start] + Ticks([]);
    assert InPlay(g, saves, [start], md, [], Meaning(g, T.Carried(saves)).value.state);
  }

  lemma TickHeard<S>(g: Game<S>, saves: seq<SaveMessage>, downs: seq<ServerMessage>, s: S, advance: TickAdvance)
    requires PlaysOn(g, saves, downs, s) && AdvanceTick(g, s, advance).Ok?
    ensures PlaysOn(g, saves, downs + [Tick(advance)], AdvanceTick(g, s, advance).value)
  {
    hide AdvanceTick, Run, Meaning, T.Carried, Describes;
    var md, log :| InPlay(g, saves, downs, md, log, s);
    RunPush(g, Meaning(g, T.Carried(saves)).value.state, log, advance);
    assert Ticks(log + [advance]) == Ticks(log) + [Tick(advance)];
    Regroup([Start(md.tick, md.hash)], Ticks(log), [Tick(advance)]);
    assert InPlay(g, saves, downs + [Tick(advance)], md, log + [advance], AdvanceTick(g, s, advance).value);
  }

  lemma GenuineHear<S>(g: Game<S>, interval: nat, c: Client<S>, saves: seq<SaveMessage>, downs: seq<ServerMessage>,
      m: ServerMessage, publishes: bool)
    requires interval > 0 && Genuine(g, c, saves, downs) && Hear(g, interval, c, m, publishes).Ok?
    ensures Genuine(g, Hear(g, interval, c, m, publishes).value.client, saves, downs + [m])
  {
    hide AdvanceTick, PlaysOn, Meaning, T.Carried, Delivered, Describes;
    match m
    case Start(_, _) =>
      StartHeard(g, saves, c.startup.phase.expected);
      assert downs + [m] == [m];
    case Tick(advance) =>
      TickHeard(g, saves, downs, c.sim.value, advance);
  }

  lemma {:induction false} GenuineHearing<S>(
      g: Game<S>, interval: nat, c: Client<S>, saves: seq<SaveMessage>, downs: seq<ServerMessage>,
      ms: seq<ServerMessage>, publishes: bool)
    requires interval > 0 && Genuine(g, c, saves, downs) && HearAll(g, interval, c, ms, publishes).Ok?
    ensures Genuine(g, HearAll(g, interval, c, ms, publishes).value.client, saves, downs + ms)
    decreases |ms|
  {
    hide Hear, Genuine;
    if ms == [] {
      assert downs + ms == downs;
    } else {
      GenuineHear(g, interval, c, saves, downs, ms[0], publishes);
      var next := Hear(g, interval, c, ms[0], publishes).value.client;
      GenuineHearing(g, interval, next, saves, downs + [ms[0]], ms[1..], publishes);
      Regroup(downs, [ms[0]], ms[1..]);
      assert ms == [ms[0]] + ms[1..];
    }
  }

  // ----- Whole iterations and whole runs -----

  lemma GenuineTurn<S>(
      g: Game<S>, interval: nat, c: Client<S>, saves: seq<SaveMessage>, downs: seq<ServerMessage>, turn: Turn)
    requires interval > 0 && Genuine(g, c, saves, downs) && TakeTurn(g, interval, c, turn).Ok?
    ensures Genuine(g, TakeTurn(g, interval, c, turn).value.client, saves + turn.saves, downs + turn.downs)
  {
    hide ReceiveSaves, LoadStep, HearAll, Forwarded, T.Carried, Halfway, Checked, PlaysOn, Delivered;
    GenuineSaves(g, c, saves, downs, turn.saves);
    var c1 := c.(startup := ReceiveSaves(c.startup, turn.saves).value);
    var c2 := Reporting(c1, c1.startup.received != c1.reported.0).0;
    GenuineStep(g, c2, saves + turn.saves, downs, turn.cutoff);
    GenuineHearing(g, interval, LoadTurn(g, c, turn).value.0, saves + turn.saves, downs, turn.downs, turn.publishes);
  }

  /** A replica's fate over a run of its own iterations, against any server. */
  function TakeTurns<S>(g: Game<S>, interval: nat, c: Client<S>, turns: seq<Turn>): Result<Client<S>, ClientError>
    requires interval > 0
    decreases |turns|
  {
    if turns == [] then Ok(c)
    else
      var first := TakeTurn(g, interval, c, turns[0]);
      if first.Err? then Err(first.error) else TakeTurns(g, interval, first.value.client, turns[1..])
  }

  function SavesSent(turns: seq<Turn>): seq<SaveMessage> {
    if turns == [] then [] else turns[0].saves + SavesSent(turns[1..])
  }

  function DownsSent(turns: seq<Turn>): seq<ServerMessage> {
    if turns == [] then [] else turns[0].downs + DownsSent(turns[1..])
  }

  lemma {:induction false} GenuineRun<S>(g: Game<S>, interval: nat, c: Client<S>, saves: seq<SaveMessage>,
      downs: seq<ServerMessage>, turns: seq<Turn>)
    requires interval > 0 && Genuine(g, c, saves, downs) && TakeTurns(g, interval, c, turns).Ok?
    ensures Genuine(g, TakeTurns(g, interval, c, turns).value, saves + SavesSent(turns), downs + DownsSent(turns))
    decreases |turns|
  {
    hide TakeTurn, Genuine;
    if turns == [] {
      assert saves + [] == saves && downs + [] == downs;
    } else {
      GenuineTurn(g, interval, c, saves, downs, turns[0]);
      var next := TakeTurn(g, interval, c, turns[0]).value.client;
      GenuineRun(g, interval, next, saves + turns[0].saves, downs + turns[0].downs, turns[1..]);
      Regroup(saves, turns[0].saves, SavesSent(turns[1..]));
      Regroup(downs, turns[0].downs, DownsSent(turns[1..]));
    }
  }

  /**
    Whatever a server sends, what a replica holds after any run is accounted for: while receiving,
    exactly the bytes sent, short of what was announced; while replaying, one fold of a part of
    those bytes, within the announced tick; afterwards the state they mean, with the announced tick
    and fingerprint; and in play what the ticks heard since Start make of that state.
  */
  lemma NoServerFoolsAReplica<S>(g: Game<S>, interval: nat, turns: seq<Turn>)
    requires interval > 0 && TakeTurns(g, interval, NewClient(), turns).Ok?
    ensures Genuine(g, TakeTurns(g, interval, NewClient(), turns).value, SavesSent(turns), DownsSent(turns))
  {
    hide TakeTurn, Halfway, Checked, PlaysOn, Delivered;
    GenuineRun(g, interval, NewClient(), [], [], turns);
    assert [] + SavesSent(turns) == SavesSent(turns) && [] + DownsSent(turns) == DownsSent(turns);
  }

  /** The same for a replica in play, spelled out: what it verified, and what it has executed since. */
  lemma PlaysWhatItVerified<S>(g: Game<S>, interval: nat, turns: seq<Turn>)
    returns (md: SaveMetadata, verified: S, log: seq<TickAdvance>)
    requires interval > 0 && TakeTurns(g, interval, NewClient(), turns).Ok?
    requires TakeTurns(g, interval, NewClient(), turns).value.startup.phase.Live?
    ensures SavesSent(turns) != [] && SavesSent(turns)[0] == Begin(md)
    ensures var save := T.Carried(SavesSent(turns));
      |save| == md.totalBytes && Meaning(g, save).Some? && Meaning(g, save).value.state == verified
    ensures g.tickOf(verified) == md.tick && g.hashOf(verified) == md.hash
    ensures DownsSent(turns) == [Start(md.tick, md.hash)] + Ticks(log)
    ensures var sim := TakeTurns(g, interval, NewClient(), turns).value.sim;
      sim.Some? && Run(g, verified, log) == Ok(sim.value)
  {
    hide TakeTurns, Meaning, T.Carried, Run, Halfway;
    NoServerFoolsAReplica(g, interval, turns);
    var (c, saves) := (TakeTurns(g, interval, NewClient(), turns).value, SavesSent(turns));
    md, log :| InPlay(g, saves, DownsSent(turns), md, log, c.sim.value);
    verified := Meaning(g, T.Carried(saves)).value.state;
  }
}

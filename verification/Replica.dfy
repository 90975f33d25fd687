/**
  The joining side of a session: it buffers the announced save, replays it in batches, checks what
  it comes to, and from Start on executes what the authority broadcasts
  (crates/synctick/src/startup.rs:173-332, crates/synctick/src/run_client.rs:37-197).
*/
module Replica {
  import opened Bytes
  import opened Envelope
  import opened ReplayLog
  import opened Simulation
  import opened Replay

  datatype ClientPhase =
    | Receiving(begin: Option<SaveMetadata>, bytes: seq<byte>)
    | Loading(metadata: SaveMetadata, header: Header, rest: seq<byte>)
    | AwaitingStart(expected: SaveMetadata)
    | Live

  datatype Startup = Startup(phase: ClientPhase, received: u64, replayed: u64)

  /** The whole replica. `sim` is absent until the save's header initialized it. */
  datatype Client<S> = Client(startup: Startup, sim: Option<S>, reported: (u64, u64))

  /** Every way a replica gives up; each ends its session. */
  datatype ClientError =
    | SaveOutsideReceiving | BadBegin | ChunkBeforeBegin | BadChunk | BadHeader(cause: LogError)
    | NotInitialized | ReplayBroken(why: ReplayError) | ReplayTooLong | FingerprintMismatch
    | BadStart | TickBeforeStart | TickRefused(reason: SimError)

  function NewClient<S>(): Client<S> {
    Client(Startup(Receiving(None, []), 0, 0), None, (0, 0))
  }

  // ----- Receiving the save -----

  function ReceiveSave(c: Startup, m: SaveMessage): Result<Startup, ClientError> {
    if !c.phase.Receiving? then Err(SaveOutsideReceiving)
    else match m
      case Begin(begin) =>
        if c.phase.begin.Some? || begin.totalBytes == 0 then Err(BadBegin)
        else Complete(c.(phase := c.phase.(begin := Some(begin))))
      case Chunk(chunk) =>
        if c.phase.begin.None? then Err(ChunkBeforeBegin)
        else if chunk == [] || |chunk| > MAX_SAVE_CHUNK_BYTES
             || c.received + |chunk| > c.phase.begin.value.totalBytes then Err(BadChunk)
        else Complete(c.(phase := c.phase.(bytes := c.phase.bytes + chunk), received := c.received + |chunk|))
  }

  /** Once every announced byte is there, the buffer must open as a log. */
  function Complete(c: Startup): Result<Startup, ClientError>
    requires c.phase.Receiving? && c.phase.begin.Some?
  {
    if c.received != c.phase.begin.value.totalBytes then Ok(c)
    else match ReadHeader(c.phase.bytes)
      case Err(e) => Err(BadHeader(e))
      case Ok((header, rest)) => Ok(c.(phase := Loading(c.phase.begin.value, header, rest)))
  }

  function ReceiveSaves(c: Startup, ms: seq<SaveMessage>): Result<Startup, ClientError>
    decreases |ms|
  {
    if ms == [] then Ok(c)
    else
      var next := ReceiveSave(c, ms[0]);
      if next.Err? then next else ReceiveSaves(next.value, ms[1..])
  }

  // ----- Replaying it -----

  datatype Stepped<S> = Stepped(startup: Startup, sim: Option<S>, message: Option<ClientMessage>)

  /** One bounded batch; the last one compares the final fingerprint. */
  function LoadStep<S>(g: Game<S>, c: Startup, sim: Option<S>, cutoff: nat): Result<Stepped<S>, ClientError> {
    if !c.phase.Loading? then Ok(Stepped(c, sim, None))
    else
      var ready := if sim.None? then Initialize(g, c.phase.header) else sim;
      if ready.None? then Err(NotInitialized)
      else
        var batch := RunBatch(g, ready.value, c.phase.rest, Min(cutoff, BATCH_RECORDS));
        if batch.status.Failed? then Err(ReplayBroken(batch.status.error))
        else AfterBatch(g, c, batch.state, batch.rest, batch.status.Finished?)
  }

  function AfterBatch<S>(g: Game<S>, c: Startup, s: S, rest: seq<byte>, finished: bool): Result<Stepped<S>, ClientError>
    requires c.phase.Loading?
  {
    var md := c.phase.metadata;
    if g.tickOf(s) > md.tick then Err(ReplayTooLong)
    else if !finished then Ok(Stepped(c.(phase := c.phase.(rest := rest), replayed := g.tickOf(s)), Some(s), None))
    else if g.tickOf(s) != md.tick || g.hashOf(s) != md.hash then Err(FingerprintMismatch)
    else Ok(Stepped(c.(phase := AwaitingStart(md), replayed := g.tickOf(s)), Some(s), Some(Ready(md.tick, md.hash))))
  }

  function BeginPlay(c: Startup, tick: u64, hash: u64): Result<Startup, ClientError> {
    if c.phase.AwaitingStart? && tick == c.phase.expected.tick && hash == c.phase.expected.hash then
      Ok(c.(phase := Live))
    else Err(BadStart)
  }

  // ----- Live play -----

  datatype Heard<S> = Heard(client: Client<S>, reports: seq<Report>)

  function Hear<S>(g: Game<S>, interval: nat, c: Client<S>, m: ServerMessage,
      publishes: bool): Result<Heard<S>, ClientError>
    requires interval > 0
  {
    match m
    case Start(tick, hash) =>
      var started := BeginPlay(c.startup, tick, hash);
      if started.Err? then Err(started.error)
      else if !publishes then Err(TickRefused(PublishFailed))
      else Ok(Heard(c.(startup := started.value), []))
    case Tick(advance) =>
      if !c.startup.phase.Live? then Err(TickBeforeStart)
      else if c.sim.None? then Err(NotInitialized)
      else
        var next := AdvanceTick(g, c.sim.value, advance);
        if next.Err? then Err(TickRefused(next.error))
        else if !publishes then Err(TickRefused(PublishFailed))
        else Ok(Heard(
          c.(sim := Some(next.value)),
          if advance.tick % interval == 0 then [Report(advance.tick, g.hashOf(next.value))] else []))
  }

  function HearAll<S>(g: Game<S>, interval: nat, c: Client<S>, ms: seq<ServerMessage>,
      publishes: bool): Result<Heard<S>, ClientError>
    requires interval > 0
    decreases |ms|
  {
    if ms == [] then Ok(Heard(c, []))
    else
      var first := Hear(g, interval, c, ms[0], publishes);
      if first.Err? then first
      else
        var later := HearAll(g, interval, first.value.client, ms[1..], publishes);
        if later.Err? then later else Ok(later.value.(reports := first.value.reports + later.value.reports))
  }

  /** A replica whose game cannot publish what it hears does not go on. */
  lemma UnpublishedStops<S>(g: Game<S>, interval: nat, c: Client<S>, ms: seq<ServerMessage>)
    requires interval > 0 && ms != []
    ensures HearAll(g, interval, c, ms, false).Err?
  {
    hide AdvanceTick;
  }

  // ----- One iteration of the client loop -----

  /**
    What one iteration meets: queued local commands, arrived save chunks, where the replay batch is
    cut off, whether the progress timer is due, processed lockstep messages, and whether the game's
    publication hook succeeds.
  */
  datatype Turn = Turn(
    commands: seq<seq<byte>>, saves: seq<SaveMessage>, cutoff: nat, timer: bool,
    downs: seq<ServerMessage>, publishes: bool)

  /** What it sends on the lockstep and the verification channel. */
  datatype Turned<S> = Turned(client: Client<S>, ups: seq<ClientMessage>, reports: seq<Report>)

  /** Commands submitted before Start are dropped, never deferred. */
  function Forwarded(live: bool, commands: seq<seq<byte>>): seq<ClientMessage> {
    if !live || commands == [] then [] else [Input(commands[0])] + Forwarded(live, commands[1..])
  }

  predicate IsLoading(c: Startup) { c.phase.Receiving? || c.phase.Loading? }

  /** A progress report when `due` and something changed since the last one. */
  function Reporting<S>(c: Client<S>, due: bool): (Client<S>, seq<ClientMessage>)
  {
    var now := (c.startup.received, c.startup.replayed);
    if due && now != c.reported then
      (c.(reported := now), [Progress(now.0, now.1)])
    else (c, [])
  }

  /** Save bytes are consumed, acknowledged at once, and one replay batch runs. */
  function LoadTurn<S>(g: Game<S>, c: Client<S>, turn: Turn): Result<(Client<S>, seq<ClientMessage>), ClientError> {
    var received := ReceiveSaves(c.startup, turn.saves);
    if received.Err? then Err(received.error)
    else
      var c1 := c.(startup := received.value);
      var (c2, acknowledgement) := Reporting(c1, c1.startup.received != c1.reported.0);
      var loaded := LoadStep(g, c2.startup, c2.sim, turn.cutoff);
      if loaded.Err? then Err(loaded.error)
      else
        var c3 := c2.(startup := loaded.value.startup, sim := loaded.value.sim);
        var ready := if loaded.value.message.Some? then [loaded.value.message.value] else [];
        var (c4, progress) := Reporting(c3, turn.timer && IsLoading(c3.startup));
        Ok((c4, acknowledgement + ready + progress))
  }

  function TakeTurn<S>(g: Game<S>, interval: nat, c: Client<S>, turn: Turn): Result<Turned<S>, ClientError>
    requires interval > 0
  {
    var inputs := Forwarded(c.startup.phase.Live?, turn.commands);
    var loaded := LoadTurn(g, c, turn);
    if loaded.Err? then Err(loaded.error)
    else
      var heard := HearAll(g, interval, loaded.value.0, turn.downs, turn.publishes);
      if heard.Err? then Err(heard.error)
      else Ok(Turned(heard.value.client, inputs + loaded.value.1, heard.value.reports))
  }

  // ----- The replica itself -----

  /** What was heard with `reports` already sent. */
  function AfterReports<S>(reports: seq<Report>, r: Result<Heard<S>, ClientError>): Result<Heard<S>, ClientError> {
    if r.Err? then r else Ok(r.value.(reports := reports + r.value.reports))
  }

  lemma HearAllUnfolds<S>(g: Game<S>, interval: nat, c: Client<S>, ms: seq<ServerMessage>, publishes: bool,
      reports: seq<Report>)
    requires interval > 0
    ensures ms == [] ==> AfterReports(reports, HearAll(g, interval, c, ms, publishes)) == Ok(Heard(c, reports))
    ensures AfterReports([], HearAll(g, interval, c, ms, publishes)) == HearAll(g, interval, c, ms, publishes)
    ensures ms != [] ==>
      var first := Hear(g, interval, c, ms[0], publishes);
      AfterReports(reports, HearAll(g, interval, c, ms, publishes))
        == if first.Err? then first
           else
             AfterReports(reports + first.value.reports, HearAll(g, interval, first.value.client, ms[1..], publishes))
  {
    hide Hear;
    assert reports + [] == reports;
    var all := HearAll(g, interval, c, ms, publishes);
    if all.Ok? {
      assert [] + all.value.reports == all.value.reports;
      if ms != [] {
        var first := Hear(g, interval, c, ms[0], publishes).value;
        Regroup(reports, first.reports, HearAll(g, interval, first.client, ms[1..], publishes).value.reports);
      }
    }
  }

  datatype ReplicaPhase =
    | ReceivingSave(begin: Option<SaveMetadata>, bytes: seq<byte>)
    | ReplayingSave(metadata: SaveMetadata, reader: ReplayReader)
    | ReadyToStart(expected: SaveMetadata)
    | InPlay
    | Abandoned

  /** `ClientStartup` and the state of `client_loop`. `interval` is the adapter's `hash_interval`. */
  class ReplicaSession<S> {
    const game: Game<S>
    const interval: nat
    var phase: ReplicaPhase
    var received: u64
    var replayed: u64
    var driver: Driver?<S>
    var reported: (u64, u64)

    constructor (game: Game<S>, interval: nat)
      requires interval > 0
      ensures Valid() && fresh(Owned()) && !phase.Abandoned?
      ensures AsClient() == NewClient() && this.game == game && this.interval == interval
    {
      this.game, this.interval := game, interval;
      phase, received, replayed := ReceivingSave(None, []), 0, 0;
      driver, reported := null, (0, 0);
    }

    function Owned(): set<object>
      reads this
    {
      {this}
      + (if phase.ReplayingSave? then {phase.reader.source} else {})
      + (if driver != null then {driver} else {})
    }

    ghost predicate Valid()
      reads this
    {
      interval > 0 && (driver != null ==> driver.game == game)
    }

    function AsStartup(): Startup
      requires !phase.Abandoned?
      reads this, Owned()
    {
      var now :=
        match phase
        case ReceivingSave(begin, bytes) => Receiving(begin, bytes)
        case ReplayingSave(md, reader) => Loading(md, reader.header, reader.source.rest)
        case ReadyToStart(md) => AwaitingStart(md)
        case InPlay => Live;
      Startup(now, received, replayed)
    }

    function AsSim(): Option<S>
      reads Owned()
    {
      if driver == null then None else Some(driver.state)
    }

    function AsClient(): Client<S>
      requires !phase.Abandoned?
      reads this, Owned()
    {
      Client(AsStartup(), AsSim(), reported)
    }

    method ReceiveSaveMessage(m: SaveMessage) returns (error: Option<ClientError>)
      requires Valid() && !phase.Abandoned?
      modifies Owned()
      ensures Valid() && fresh(Owned() - old(Owned())) && driver == old(driver) && reported == old(reported)
      ensures driver != null ==> driver.state == old(driver.state)
      ensures var spec := ReceiveSave(old(AsStartup()), m);
        match error
        case None => !phase.Abandoned? && spec == Ok(AsStartup())
        case Some(e) => spec == Err(e)
    {
      hide ReadHeader;
      if !phase.ReceivingSave? {
        return Some(SaveOutsideReceiving);
      }
      var begin, bytes := phase.begin, phase.bytes;
      match m {
        case Begin(announced) =>
          if begin.Some? || announced.totalBytes == 0 {
            return Some(BadBegin);
          }
          begin := Some(announced);
        case Chunk(chunk) =>
          if begin.None? {
            return Some(ChunkBeforeBegin);
          }
          if chunk == [] || |chunk| > MAX_SAVE_CHUNK_BYTES || received + |chunk| > begin.value.totalBytes {
            return Some(BadChunk);
          }
          bytes := bytes + chunk;
          received := received + |chunk|;
      }
      phase := ReceivingSave(begin, bytes);
      if received == begin.value.totalBytes {
        // The buffer is gone from here on: a replica whose save does not open cannot go on.
        phase := Abandoned;
        var source := new Source(bytes);
        var front := OpenReader(source);
        if front.Err? {
          return Some(BadHeader(front.error));
        }
        phase := ReplayingSave(begin.value, front.value);
      }
      error := None;
    }

    /** One bounded replay batch. */
    method Step(cutoff: nat) returns (r: Result<Option<ClientMessage>, ClientError>)
      requires Valid() && !phase.Abandoned?
      modifies Owned()
      ensures Valid() && fresh(Owned() - old(Owned())) && reported == old(reported)
      ensures var spec := LoadStep(game, old(AsStartup()), old(AsSim()), cutoff);
        match r
        case Ok(message) => !phase.Abandoned? && spec == Ok(Stepped(AsStartup(), AsSim(), message))
        case Err(e) => spec == Err(e)
    {
      hide RunBatch, Initialize;
      if !phase.ReplayingSave? {
        return Ok(None);
      }
      var md, reader := phase.metadata, phase.reader;
      if driver == null {
        var initial := Initialize(game, reader.header);
        if initial.None? {
          return Err(NotInitialized);
        }
        driver := new Driver(game, initial.value);
      }
      var records, status := ReplayBatch(driver, reader, null, cutoff);
      if status.Failed? {
        return Err(ReplayBroken(status.error));
      }
      replayed := game.tickOf(driver.state);
      if replayed > md.tick {
        return Err(ReplayTooLong);
      }
      if status.More? {
        return Ok(None);
      }
      if replayed != md.tick || game.hashOf(driver.state) != md.hash {
        return Err(FingerprintMismatch);
      }
      phase := ReadyToStart(md);
      r := Ok(Some(Ready(md.tick, md.hash)));
    }

    method StartPlay(tick: u64, hash: u64) returns (ok: bool)
      requires Valid() && !phase.Abandoned?
      modifies `phase
      ensures Valid() && Owned() <= old(Owned())
      ensures ok <==> BeginPlay(old(AsStartup()), tick, hash).Ok?
      ensures ok ==> !phase.Abandoned? && AsStartup() == BeginPlay(old(AsStartup()), tick, hash).value
    {
      ok := phase.ReadyToStart? && tick == phase.expected.tick && hash == phase.expected.hash;
      if ok {
        phase := InPlay;
      }
    }

    /** One lockstep message: Start, or an authoritative tick executed and, when due, reported. */
    method HearMessage(m: ServerMessage, publishes: bool) returns (r: Result<seq<Report>, ClientError>)
      requires Valid() && !phase.Abandoned?
      modifies Owned()
      ensures Valid() && fresh(Owned() - old(Owned()))
      ensures var spec := Hear(game, interval, old(AsClient()), m, publishes);
        match r
        case Ok(reports) => !phase.Abandoned? && spec == Ok(Heard(AsClient(), reports))
        case Err(e) => spec == Err(e)
    {
      hide AdvanceTick, HooksEntered;
      match m {
        case Start(tick, hash) =>
          var ok := StartPlay(tick, hash);
          if !ok {
            return Err(BadStart);
          }
          if !publishes {
            return Err(TickRefused(PublishFailed));
          }
          r := Ok([]);
        case Tick(advance) =>
          if !phase.InPlay? {
            return Err(TickBeforeStart);
          }
          if driver == null {
            return Err(NotInitialized);
          }
          var ticked := driver.Tick(advance, Playing, publishes);
          if ticked.Err? {
            return Err(TickRefused(ticked.error));
          }
          r := Ok(if advance.tick % interval == 0 then [Report(advance.tick, game.hashOf(driver.state))] else []);
      }
    }

    method HearMessages(ms: seq<ServerMessage>, publishes: bool) returns (r: Result<seq<Report>, ClientError>)
      requires Valid() && !phase.Abandoned?
      modifies Owned()
      ensures Valid() && fresh(Owned() - old(Owned()))
      ensures var spec := HearAll(game, interval, old(AsClient()), ms, publishes);
        match r
        case Ok(reports) => !phase.Abandoned? && spec == Ok(Heard(AsClient(), reports))
        case Err(e) => spec == Err(e)
    {
      hide Hear, HearAll;
      ghost var spec := HearAll(game, interval, AsClient(), ms, publishes);
      var reports: seq<Report> := [];
      var i := 0;
      HearAllUnfolds(game, interval, AsClient(), ms, publishes, []);
      assert ms[0..] == ms;
      while i < |ms|
        invariant i <= |ms| && Valid() && !phase.Abandoned? && fresh(Owned() - old(Owned()))
        invariant spec == AfterReports(reports, HearAll(game, interval, AsClient(), ms[i..], publishes))
      {
        HearAllUnfolds(game, interval, AsClient(), ms[i..], publishes, reports);
        assert ms[i..][0] == ms[i] && ms[i..][1..] == ms[i + 1..];
        var heard := HearMessage(ms[i], publishes);
        if heard.Err? {
          return Err(heard.error);
        }
        reports := reports + heard.value;
        i := i + 1;
      }
      assert ms[i..] == [];
      HearAllUnfolds(game, interval, AsClient(), [], publishes, reports);
      r := Ok(reports);
    }

    method ReceiveSaveMessages(ms: seq<SaveMessage>) returns (error: Option<ClientError>)
      requires Valid() && !phase.Abandoned?
      modifies Owned()
      ensures Valid() && fresh(Owned() - old(Owned())) && reported == old(reported)
      ensures var spec := ReceiveSaves(old(AsStartup()), ms);
        match error
        case None => !phase.Abandoned? && spec == Ok(AsStartup()) && AsSim() == old(AsSim())
        case Some(e) => spec == Err(e)
    {
      hide ReceiveSave;
      ghost var spec := ReceiveSaves(AsStartup(), ms);
      var i := 0;
      assert ms[0..] == ms;
      while i < |ms|
        invariant i <= |ms| && Valid() && !phase.Abandoned? && fresh(Owned() - old(Owned()))
        invariant reported == old(reported) && AsSim() == old(AsSim()) && spec == ReceiveSaves(AsStartup(), ms[i..])
      {
        assert ms[i..][0] == ms[i] && ms[i..][1..] == ms[i + 1..];
        error := ReceiveSaveMessage(ms[i]);
        if error.Some? {
          return;
        }
        i := i + 1;
      }
      error := None;
    }

    /** A progress report when `due` and something changed since the last one. */
    method ReportProgress(due: bool) returns (ms: seq<ClientMessage>)
      requires Valid() && !phase.Abandoned?
      modifies `reported
      ensures Valid() && Owned() == old(Owned())
      ensures !phase.Abandoned? && (AsClient(), ms) == Reporting(old(AsClient()), due)
    {
      ms := [];
      if due && (received, replayed) != reported {
        reported := (received, replayed);
        ms := [Progress(received, replayed)];
      }
    }

    /** The startup part of an iteration. */
    method LoadOnce(turn: Turn) returns (r: Result<seq<ClientMessage>, ClientError>)
      requires Valid() && !phase.Abandoned?
      modifies Owned()
      ensures Valid() && fresh(Owned() - old(Owned()))
      ensures var spec := LoadTurn(game, old(AsClient()), turn);
        match r
        case Ok(ms) => !phase.Abandoned? && spec == Ok((AsClient(), ms))
        case Err(e) => spec == Err(e)
    {
      hide ReceiveSaves, LoadStep, Reporting, AsSim;
      var failed := ReceiveSaveMessages(turn.saves);
      if failed.Some? {
        return Err(failed.value);
      }
      var acknowledgement := ReportProgress(received != reported.0);
      var step := Step(turn.cutoff);
      if step.Err? {
        return Err(step.error);
      }
      var ready := if step.value.Some? then [step.value.value] else [];
      var progress := ReportProgress(turn.timer && (phase.ReceivingSave? || phase.ReplayingSave?));
      r := Ok(acknowledgement + ready + progress);
    }

    method ForwardInputs(commands: seq<seq<byte>>) returns (ms: seq<ClientMessage>)
      ensures ms == Forwarded(phase.InPlay?, commands)
    {
      ms := [];
      if !phase.InPlay? {
        return;
      }
      var i := 0;
      while i < |commands|
        invariant i <= |commands|
        invariant Forwarded(true, commands) == ms + Forwarded(true, commands[i..])
      {
        assert commands[i..][0] == commands[i] && commands[i..][1..] == commands[i + 1..];
        ms := ms + [Input(commands[i])];
        i := i + 1;
      }
    }

    /** One iteration of `client_loop`. */
    method TakeOneTurn(turn: Turn) returns (r: Result<(seq<ClientMessage>, seq<Report>), ClientError>)
      requires Valid() && !phase.Abandoned?
      modifies Owned()
      ensures Valid() && fresh(Owned() - old(Owned()))
      ensures var spec := TakeTurn(game, interval, old(AsClient()), turn);
        match r
        case Ok((ups, reports)) => !phase.Abandoned? && spec == Ok(Turned(AsClient(), ups, reports))
        case Err(e) => spec == Err(e)
    {
      hide LoadTurn, HearAll, Forwarded;
      var inputs := ForwardInputs(turn.commands);
      var loaded := LoadOnce(turn);
      if loaded.Err? {
        return Err(loaded.error);
      }
      var heard := HearMessages(turn.downs, turn.publishes);
      if heard.Err? {
        return Err(heard.error);
      }
      r := Ok((inputs + loaded.value, heard.value));
    }
  }
}

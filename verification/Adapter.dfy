/**
  The adapter between a game and the driver (crates/synctick/src/api.rs:163-177, 239-330): a game
  with typed initialization and commands becomes the byte-level game every session runs on.
*/
module Adapter {
  import opened Bytes
  import opened Envelope
  import opened ReplayLog
  import opened Simulation
  import opened Live
  import C = Codec

  datatype Input = GameInput(participant: Participant, command: C.Value)

  /** A game as its author writes it: two schemas, construction and a deterministic step. */
  datatype Definition<!S> = Definition(
    gameId: seq<byte>, version: u64, initialization: C.Schema, command: C.Schema,
    create: (C.Value, u64) -> Option<S>, advance: (S, u64, seq<Input>) -> Option<S>,
    tickOf: S -> u64, hashOf: S -> u64)

  ghost predicate WellFormed<S>(d: Definition<S>) {
    C.WellFormed(d.initialization) && C.WellFormed(d.command)
  }

  /** `validate_header`. */
  predicate ValidHeader<S>(d: Definition<S>, header: Header) {
    && header.gameId == d.gameId && header.gameVersion == d.version
    && MIN_TICK_NANOS <= header.tickNanos <= MAX_TICK_NANOS
    && C.ValidatePayload(d.initialization, header.initialization).Ok?
  }

  function Create<S>(d: Definition<S>, header: Header): Option<S> {
    if !ValidHeader(d, header) then None
    else
      match C.DecodePayload(d.initialization, header.initialization)
      case Ok(initial) => d.create(initial, header.tickNanos)
      case Err(_) => None
  }

  function DecodeInputs<S>(d: Definition<S>, commands: seq<Command>): Result<seq<Input>, C.CodecError>
    decreases |commands|
  {
    if commands == [] then Ok([])
    else
      var command := C.DecodePayload(d.command, commands[0].payload);
      if command.Err? then Err(command.error)
      else
        var others := DecodeInputs(d, commands[1..]);
        if others.Err? then others else Ok([GameInput(commands[0].participant, command.value)] + others.value)
  }

  function Advance<S>(d: Definition<S>, s: S, tick: TickAdvance): Option<S> {
    var inputs := DecodeInputs(d, tick.inputs);
    if inputs.Err? then None else d.advance(s, tick.tick, inputs.value)
  }

  predicate Admits<S>(d: Definition<S>, payload: seq<byte>) {
    C.ValidatePayload(d.command, payload).Ok?
  }

  /** The game the driver runs. */
  function Adapt<S>(d: Definition<S>): Game<S> {
    Game(
      header => Create(d, header), (s, tick) => Advance(d, s, tick), d.tickOf, d.hashOf, payload => Admits(d, payload))
  }

  /** Admission bounds payloads: what every session asks of its game. */
  lemma AdaptedIsBounded<S>(d: Definition<S>)
    ensures Bounded(Adapt(d))
  {
    hide C.Validate;
  }

  /** What an honest client submits is admitted: exactly the encodings of sendable commands are. */
  lemma AdmitsExactlyEncodings<S>(d: Definition<S>, payload: seq<byte>)
    requires WellFormed(d)
    ensures Adapt(d).accepts(payload) <==>
      exists v :: C.HasType(d.command, v) && C.EncodePayload(d.command, v) == Ok(payload)
  {
    hide C.Validate, C.Decode, C.Encode, C.HasType;
    C.AdmissionImpliesExecution(d.command, payload);
    C.DecodesExactly(d.command, payload);
  }

  /** Every command admitted, none fails to decode: same origins, same order, the very values validated. */
  lemma {:induction false} AdmittedInputsDecode<S>(d: Definition<S>, commands: seq<Command>)
    ensures DecodeInputs(d, commands).Ok? <==> forall i :: 0 <= i < |commands| ==> Adapt(d).accepts(commands[i].payload)
    ensures DecodeInputs(d, commands).Ok? ==>
      var inputs := DecodeInputs(d, commands).value;
      && |inputs| == |commands|
      && forall i :: 0 <= i < |commands| ==>
          inputs[i].participant == commands[i].participant
          && C.DecodePayload(d.command, commands[i].payload) == Ok(inputs[i].command)
    decreases |commands|
  {
    hide C.ValidatePayload, C.DecodePayload;
    if commands != [] {
      C.AdmissionImpliesExecution(d.command, commands[0].payload);
      AdmittedInputsDecode(d, commands[1..]);
      assert forall i :: 0 < i < |commands| ==> commands[i] == commands[1..][i - 1];
      if C.DecodePayload(d.command, commands[0].payload).Err? {
        assert !Adapt(d).accepts(commands[0].payload);
      } else if DecodeInputs(d, commands[1..]).Err? {
        var i :| 0 <= i < |commands| - 1 && !Adapt(d).accepts(commands[1..][i].payload);
        assert !Adapt(d).accepts(commands[i + 1].payload);
      }
    }
  }

  ghost predicate AllAdmitted<S>(g: Game<S>, commands: seq<Command>) {
    forall i :: 0 <= i < |commands| ==> g.accepts(commands[i].payload)
  }

  lemma AdmittedTogether<S>(g: Game<S>, xs: seq<Command>, ys: seq<Command>)
    requires AllAdmitted(g, xs) && AllAdmitted(g, ys)
    ensures AllAdmitted(g, xs + ys)
  {
  }

  lemma NothingToAdmit<S>(g: Game<S>)
    ensures AllAdmitted(g, [])
  {
  }

  lemma OriginDoesNotMatter<S>(g: Game<S>, p: Participant, payloads: seq<seq<byte>>)
    requires forall i :: 0 <= i < |payloads| ==> g.accepts(payloads[i])
    ensures AllAdmitted(g, Commands(p, payloads))
  {
  }

  lemma {:induction false} RemoteCommandsAdmitted<S>(g: Game<S>, order: seq<u64>, mails: map<u64, Mail>,
      served: set<u64>)
    requires forall id :: id in order ==> id in mails
    ensures AllAdmitted(g, RemoteCommands(g, order, mails, served))
  {
    hide Accepted, AllAdmitted;
    NothingToAdmit(g);
    if order != [] {
      var id := order[0];
      AcceptedAreAdmitted(g, mails[id].messages);
      OriginDoesNotMatter(g, Remote(id), Accepted(g, mails[id].messages));
      RemoteCommandsAdmitted(g, order[1..], mails, served);
      AdmittedTogether(g, FirstCommands(g, id, mails[id], served), RemoteCommands(g, order[1..], mails, served));
    }
  }

  /** No gathered tick can fail to decode, on the authority, on a replica or in replay. */
  lemma GatheredTicksDecode<S>(
      d: Definition<S>, interval: nat, policy: Policy, a: Authority<S>, order: seq<u64>, mails: map<u64, Mail>,
      local: seq<seq<byte>>, r: Gathered)
    requires interval > 0
    requires forall id :: id in order ==> id in mails
    requires GatheredAll(Adapt(d), interval, policy, a, order, mails, local, r)
    ensures DecodeInputs(d, r.inputs).Ok?
  {
    hide Adapt, ClientVerdict, RemoteCommands, Charge;
    var remote := RemoteCommands(Adapt(d), order, mails, a.verified.Keys);
    RemoteCommandsAdmitted(Adapt(d), order, mails, a.verified.Keys);
    OriginDoesNotMatter(Adapt(d), Host, local);
    AdmittedTogether(Adapt(d), remote, Commands(Host, local));
    AdmittedInputsDecode(d, r.inputs);
  }

  // ----- A session plays its author's game -----

  /** `inputs` is what `commands` say: each one's origin, and the value its payload encodes. */
  ghost predicate Reads<S>(d: Definition<S>, commands: seq<Command>, inputs: seq<Input>) {
    && |inputs| == |commands|
    && forall i :: 0 <= i < |commands| ==>
        && inputs[i].participant == commands[i].participant
        && C.DecodePayload(d.command, commands[i].payload) == Ok(inputs[i].command)
  }

  lemma {:induction false} ReadsOnlyOneWay<S>(d: Definition<S>, commands: seq<Command>, inputs: seq<Input>)
    requires Reads(d, commands, inputs)
    ensures DecodeInputs(d, commands) == Ok(inputs)
    decreases |commands|
  {
    hide C.DecodePayload;
    if commands == [] {
      assert inputs == [];
    } else {
      assert forall i :: 0 <= i < |commands| - 1 ==>
        commands[1..][i] == commands[i + 1] && inputs[1..][i] == inputs[i + 1];
      ReadsOnlyOneWay(d, commands[1..], inputs[1..]);
      assert inputs == [inputs[0]] + inputs[1..];
    }
  }

  lemma Readable<S>(d: Definition<S>, commands: seq<Command>) returns (inputs: seq<Input>)
    requires DecodeInputs(d, commands).Ok?
    ensures Reads(d, commands, inputs)
  {
    hide C.DecodePayload, C.ValidatePayload, DecodeInputs;
    AdmittedInputsDecode(d, commands);
    inputs := DecodeInputs(d, commands).value;
  }

  /**
    Executing a tick is one step of the author's game on exactly the commands the tick holds, in
    order and with their origins. It succeeds exactly when the tick is the next one, the game takes
    the step and it arrives at that tick.
  */
  lemma TickPlaysTheGame<S>(d: Definition<S>, s: S, t: TickAdvance, inputs: seq<Input>)
    requires Reads(d, t.inputs, inputs)
    ensures AdvanceTick(Adapt(d), s, t).Ok? <==>
      && d.tickOf(s) + 1 == t.tick
      && d.advance(s, t.tick, inputs).Some? && d.tickOf(d.advance(s, t.tick, inputs).value) == t.tick
    ensures AdvanceTick(Adapt(d), s, t).Ok? ==>
      Some(AdvanceTick(Adapt(d), s, t).value) == d.advance(s, t.tick, inputs)
  {
    hide DecodeInputs, Reads;
    ReadsOnlyOneWay(d, t.inputs, inputs);
  }

  /** No tick with a command that is not an encoding of the game's command type is ever executed. */
  lemma ExecutedTickIsReadable<S>(d: Definition<S>, s: S, t: TickAdvance) returns (inputs: seq<Input>)
    requires AdvanceTick(Adapt(d), s, t).Ok?
    ensures Reads(d, t.inputs, inputs)
  {
    hide DecodeInputs, Reads;
    inputs := Readable(d, t.inputs);
  }

  /** The author's game alone, one step per turn. */
  function Played<S>(d: Definition<S>, s: S, turns: seq<seq<Input>>): Option<S>
    decreases |turns|
  {
    if turns == [] then Some(s)
    else if d.tickOf(s) == U64_MAX then None
    else
      var next := d.advance(s, d.tickOf(s) + 1, turns[0]);
      if next.None? || d.tickOf(next.value) != d.tickOf(s) + 1 then None else Played(d, next.value, turns[1..])
  }

  /** `turns` is what the records of a log say, tick by tick. */
  ghost predicate ReadsAll<S>(d: Definition<S>, records: seq<TickAdvance>, turns: seq<seq<Input>>) {
    |turns| == |records| && forall i :: 0 <= i < |records| ==> Reads(d, records[i].inputs, turns[i])
  }

  /**
    Running a log, on the authority, on a replica or in replay, is playing the author's game: it
    succeeds exactly when the records are the next ticks without a gap and the game takes every turn.
  */
  lemma {:induction false} RunPlaysTheGame<S>(d: Definition<S>, s: S, records: seq<TickAdvance>,
      turns: seq<seq<Input>>)
    requires ReadsAll(d, records, turns)
    ensures Run(Adapt(d), s, records).Ok? <==>
      Played(d, s, turns).Some? && forall i :: 0 <= i < |records| ==> records[i].tick == d.tickOf(s) + 1 + i
    ensures Run(Adapt(d), s, records).Ok? ==> Some(Run(Adapt(d), s, records).value) == Played(d, s, turns)
    decreases |records|
  {
    hide Adapt, AdvanceTick, Reads;
    if records != [] {
      assert forall i :: 0 <= i < |records| - 1 ==>
        records[1..][i] == records[i + 1] && turns[1..][i] == turns[i + 1];
      TickPlaysTheGame(d, s, records[0], turns[0]);
      var next := AdvanceTick(Adapt(d), s, records[0]);
      if next.Ok? {
        RunPlaysTheGame(d, next.value, records[1..], turns[1..]);
        assert (forall i :: 0 < i < |records| ==> records[i].tick == d.tickOf(s) + 1 + i) <==>
            forall i :: 0 <= i < |records| - 1 ==> records[1..][i].tick == d.tickOf(next.value) + 1 + i;
      }
    }
  }

  lemma {:induction false} RunIsReadable<S>(d: Definition<S>, s: S, records: seq<TickAdvance>)
    returns (turns: seq<seq<Input>>)
    requires Run(Adapt(d), s, records).Ok?
    ensures ReadsAll(d, records, turns)
    decreases |records|
  {
    hide Adapt, AdvanceTick, Reads;
    if records == [] {
      turns := [];
    } else {
      var first := ExecutedTickIsReadable(d, s, records[0]);
      var later := RunIsReadable(d, AdvanceTick(Adapt(d), s, records[0]).value, records[1..]);
      turns := [first] + later;
      assert forall i :: 0 < i < |records| ==> records[i] == records[1..][i - 1] && turns[i] == later[i - 1];
    }
  }

  /** A session opens exactly for this game and version, a legal tick, and an initialization the game accepts. */
  lemma OpensTheGame<S>(d: Definition<S>, header: Header, s: S)
    ensures Initialize(Adapt(d), header) == Some(s) <==>
      && header.gameId == d.gameId && header.gameVersion == d.version
      && 1_000 <= header.tickNanos <= 1_000_000_000
      && exists v :: C.DecodePayload(d.initialization, header.initialization) == Ok(v)
           && d.create(v, header.tickNanos) == Some(s) && d.tickOf(s) == 0
  {
    hide C.DecodePayload, C.ValidatePayload;
    C.AdmissionImpliesExecution(d.initialization, header.initialization);
  }

  // ----- The decoding loop of `advance` -----

  lemma DecodeInputsUnfolds<S>(d: Definition<S>, done: seq<Input>, commands: seq<Command>)
    ensures var all := DecodeInputs(d, commands);
      && (commands == [] ==> all == Ok([]) && done + [] == done)
      && (commands != [] ==>
            match C.DecodePayload(d.command, commands[0].payload)
            case Err(e) => all == Err(e)
            case Ok(v) =>
              var others := DecodeInputs(d, commands[1..]);
              if others.Err? then all == others
              else all.Ok? && done + all.value == (done + [GameInput(commands[0].participant, v)]) + others.value)
  {
    hide C.DecodePayload;
    if commands != [] && DecodeInputs(d, commands).Ok? {
      var v := C.DecodePayload(d.command, commands[0].payload).value;
      Regroup(done, [GameInput(commands[0].participant, v)], DecodeInputs(d, commands[1..]).value);
    }
  }

  method DecodeAll<S>(d: Definition<S>, commands: seq<Command>) returns (r: Result<seq<Input>, C.CodecError>)
    ensures r == DecodeInputs(d, commands)
  {
    hide C.DecodePayload, DecodeInputs;
    var inputs: seq<Input> := [];
    var i := 0;
    ghost var all := DecodeInputs(d, commands);
    assert commands[0..] == commands;
    assert all.Ok? ==> [] + all.value == all.value;
    while i < |commands|
      invariant i <= |commands|
      invariant match DecodeInputs(d, commands[i..])
                case Ok(others) => all == Ok(inputs + others)
                case Err(e) => all == Err(e)
    {
      assert commands[i..][0] == commands[i] && commands[i..][1..] == commands[i + 1..];
      DecodeInputsUnfolds(d, inputs, commands[i..]);
      var command := C.DecodeBytes(d.command, commands[i].payload);
      if command.Err? {
        return Err(command.error);
      }
      inputs := inputs + [GameInput(commands[i].participant, command.value)];
      i := i + 1;
    }
    assert commands[i..] == [];
    DecodeInputsUnfolds(d, inputs, []);
    r := Ok(inputs);
  }
}

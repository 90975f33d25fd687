/**
  Bounded replay with an optional mirror recording, and the save a session hands to its
  clients (crates/synctick/src/replay.rs:325-389, crates/synctick/src/run_server.rs:92-140).
*/
module Replay {
  import opened Bytes
  import opened Envelope
  import opened ReplayLog
  import opened Simulation

  const BATCH_RECORDS: nat := 128

  datatype ReplayError = Log(cause: LogError) | Sim(error: SimError)
  datatype Status = More | Finished | Failed(error: ReplayError)

  /**
    Outcome of one batch: the state reached, unread bytes, executed records, records that entered
    the mirror, and why the batch ended.
  */
  datatype Batch<S> = Batch(
    state: S, rest: seq<byte>, done: seq<TickAdvance>, mirrored: seq<TickAdvance>, status: Status)

  /** `later` happened where `first` stopped; what both did, in order. */
  function Then<S>(first: Batch<S>, later: Batch<S>): Batch<S> {
    later.(done := first.done + later.done, mirrored := first.mirrored + later.mirrored)
  }

  /** `replay_batch` cut off after `limit` records, whether by count, by time or by cancellation. */
  function RunBatch<S>(g: Game<S>, s: S, b: seq<byte>, limit: nat): Batch<S>
    decreases limit
  {
    if limit == 0 then Batch(s, b, [], [], More)
    else
      var one := RunOneRecord(g, s, b);
      if one.status.More? then Then(one, RunBatch(g, one.state, one.rest, limit - 1)) else one
  }

  /** One iteration: read, check continuity, mirror, execute. */
  function RunOneRecord<S>(g: Game<S>, s: S, b: seq<byte>): Batch<S> {
    var next := NextRecord(b);
    if next.End? then Batch(s, b, [], [], Finished)
    else if next.Bad? then Batch(s, b, [], [], Failed(Log(next.error)))
    else
      var stepped := AdvanceTick(g, s, next.advance);
      if stepped.Err? then
        Batch(s, b, [], if stepped.error.TickGap? then [] else [next.advance], Failed(Sim(stepped.error)))
      else Batch(stepped.value, next.rest, [next.advance], [next.advance], More)
  }

  /** A batch in terms of the whole log `parsed` and the fold, with nothing said about where it was cut off. */
  ghost predicate IsFold<S>(g: Game<S>, s: S, parsed: (seq<TickAdvance>, Ending), limit: nat, r: Batch<S>) {
    var n := |r.done|;
    && n <= limit && r.done <= parsed.0
    && Run(g, s, r.done) == Ok(r.state)
    && (r.status.More? ==> n == limit && Parse(r.rest) == (parsed.0[n..], parsed.1))
    && (r.status.Finished? ==> n < limit && r.done == parsed.0 && parsed.1 == Clean)
    && (r.status.Failed? ==>
          if n == |parsed.0| then parsed.1.Broken? && r.status.error == Log(parsed.1.error)
          else r.status.error.Sim? && AdvanceTick(g, r.state, parsed.0[n]) == Err(r.status.error.error))
  }

  lemma OneRecordIsAFold<S>(g: Game<S>, s: S, b: seq<byte>)
    ensures IsFold(g, s, Parse(b), 1, RunOneRecord(g, s, b))
  {
    hide NextRecord;
    var next := NextRecord(b);
    if next.Record? {
      RunOne(g, s, next.advance);
      assert Parse(b).0 == [next.advance] + Parse(next.rest).0;
    }
  }

  lemma FoldsCompose<S>(g: Game<S>, s: S, parsed: (seq<TickAdvance>, Ending), m: nat, n: nat, first: Batch<S>,
      later: Batch<S>)
    requires IsFold(g, s, parsed, m, first) && first.status.More?
    requires IsFold(g, first.state, Parse(first.rest), n, later)
    ensures IsFold(g, s, parsed, m + n, Then(first, later))
  {
    hide NextRecord, AdvanceTick, Parse;
    RunAppend(g, s, first.done, later.done);
    assert parsed.0 == first.done + parsed.0[m..];
    assert parsed.0[m + |later.done|..] == parsed.0[m..][|later.done|..];
  }

  lemma {:induction false} BatchIsAFold<S>(g: Game<S>, s: S, b: seq<byte>, limit: nat)
    ensures IsFold(g, s, Parse(b), limit, RunBatch(g, s, b, limit))
    decreases limit
  {
    hide RunOneRecord, NextRecord, Parse;
    if limit == 0 {
      assert Parse(b).0[0..] == Parse(b).0;
    } else {
      OneRecordIsAFold(g, s, b);
      var one := RunOneRecord(g, s, b);
      if one.status.More? {
        BatchIsAFold(g, one.state, one.rest, limit - 1);
        FoldsCompose(g, s, Parse(b), 1, limit - 1, one, RunBatch(g, one.state, one.rest, limit - 1));
      }
    }
  }

  /** The mirror is the executed records, plus exactly the one that was the next tick and failed to execute. */
  lemma {:induction false} MirrorLeadsByAtMostOne<S>(g: Game<S>, s: S, b: seq<byte>, limit: nat)
    ensures var r := RunBatch(g, s, b, limit);
      && (if r.status.Failed? && r.status.error.Sim? && r.status.error.error != TickGap
          then |r.mirrored| == |r.done| + 1 && r.done <= r.mirrored
          else r.mirrored == r.done)
      && forall i :: 0 <= i < |r.mirrored| ==> r.mirrored[i].tick == g.tickOf(s) + 1 + i
    decreases limit
  {
    hide NextRecord;
    if limit > 0 {
      var one := RunOneRecord(g, s, b);
      if one.status.More? {
        MirrorLeadsByAtMostOne(g, one.state, one.rest, limit - 1);
      }
    }
  }

  /** Batches run one after another, each from where the previous one stopped. */
  function RunBatches<S>(g: Game<S>, s: S, b: seq<byte>, limits: seq<nat>): Batch<S>
    decreases |limits|
  {
    if limits == [] then Batch(s, b, [], [], More)
    else
      var first := RunBatch(g, s, b, limits[0]);
      if first.status.More? then Then(first, RunBatches(g, first.state, first.rest, limits[1..])) else first
  }

  function Sum(limits: seq<nat>): nat {
    if limits == [] then 0 else limits[0] + Sum(limits[1..])
  }

  /** Going on for `n` more records, if there is anything to go on from. */
  function GoOn<S>(g: Game<S>, first: Batch<S>, n: nat): Batch<S> {
    if first.status.More? then Then(first, RunBatch(g, first.state, first.rest, n)) else first
  }

  lemma ThenNothing<S>(s: S, b: seq<byte>, later: Batch<S>)
    ensures Then(Batch(s, b, [], [], More), later) == later
  {
    assert [] + later.done == later.done && [] + later.mirrored == later.mirrored;
  }

  lemma ThenRegroups<S>(first: Batch<S>, second: Batch<S>, third: Batch<S>)
    ensures Then(Then(first, second), third) == Then(first, Then(second, third))
  {
    Regroup(first.done, second.done, third.done);
    Regroup(first.mirrored, second.mirrored, third.mirrored);
  }

  lemma RunBatchUnfolds<S>(g: Game<S>, s: S, b: seq<byte>, limit: nat)
    ensures RunBatch(g, s, b, limit)
         == if limit == 0 then Batch(s, b, [], [], More) else GoOn(g, RunOneRecord(g, s, b), limit - 1)
  {
    hide RunOneRecord;
  }

  lemma {:induction false} BatchSplits<S>(g: Game<S>, s: S, b: seq<byte>, m: nat, n: nat)
    ensures RunBatch(g, s, b, m + n) == GoOn(g, RunBatch(g, s, b, m), n)
    decreases m
  {
    hide RunOneRecord, RunBatch, Then;
    RunBatchUnfolds(g, s, b, m);
    RunBatchUnfolds(g, s, b, m + n);
    if m == 0 {
      ThenNothing(s, b, RunBatch(g, s, b, n));
    } else {
      var one := RunOneRecord(g, s, b);
      if one.status.More? {
        BatchSplits(g, one.state, one.rest, m - 1, n);
        GoOnAfterThen(g, one, RunBatch(g, one.state, one.rest, m - 1), n);
      }
    }
  }

  lemma GoOnAfterThen<S>(g: Game<S>, first: Batch<S>, second: Batch<S>, n: nat)
    ensures GoOn(g, Then(first, second), n) == Then(first, GoOn(g, second, n))
  {
    hide RunBatch;
    ThenRegroups(first, second, RunBatch(g, second.state, second.rest, n));
  }

  /** However the work is divided, the outcome is that of a single batch of the same total size. */
  lemma {:induction false} BatchingIsInvisible<S>(g: Game<S>, s: S, b: seq<byte>, limits: seq<nat>)
    ensures RunBatches(g, s, b, limits) == RunBatch(g, s, b, Sum(limits))
    decreases |limits|
  {
    hide RunBatch, Then;
    if limits == [] {
      RunBatchUnfolds(g, s, b, 0);
    } else {
      BatchSplits(g, s, b, limits[0], Sum(limits[1..]));
      var first := RunBatch(g, s, b, limits[0]);
      if first.status.More? {
        BatchingIsInvisible(g, first.state, first.rest, limits[1..]);
      }
    }
  }

  lemma FailedPrefix<S>(g: Game<S>, s: S, records: seq<TickAdvance>, n: nat, reached: S)
    requires n < |records| && Run(g, s, records[..n]) == Ok(reached)
    ensures AdvanceTick(g, reached, records[n]).Err? ==> Run(g, s, records).Err?
  {
    hide AdvanceTick;
    assert records == records[..n] + records[n..];
    RunAppend(g, s, records[..n], records[n..]);
  }

  /** On a log that runs and ends cleanly, a batch from halfway never fails and stays on the fold. */
  lemma FoldStaysOnLog<S>(g: Game<S>, initial: S, records: seq<TickAdvance>, s: S, k: nat, limit: nat, r: Batch<S>)
    requires Run(g, initial, records).Ok?
    requires k <= |records| && Run(g, initial, records[..k]) == Ok(s)
    requires IsFold(g, s, (records[k..], Clean), limit, r)
    ensures var k' := k + |r.done|;
      && !r.status.Failed? && k' <= |records| && Run(g, initial, records[..k']) == Ok(r.state)
      && (r.status.More? ==> Parse(r.rest) == (records[k'..], Clean))
      && (r.status.Finished? ==> k' == |records|)
  {
    hide Parse, Run, AdvanceTick;
    PrefixGrows(records, k, r.done);
    RunAppend(g, initial, records[..k], r.done);
    if k + |r.done| < |records| {
      FailedPrefix(g, initial, records, k + |r.done|, r.state);
    }
  }

  /** Running to the end finishes exactly on clean logs that run, and then equals one fold. */
  lemma ReplayToEnd<S>(g: Game<S>, s: S, b: seq<byte>, limits: seq<nat>)
    requires Sum(limits) > |Parse(b).0|
    ensures var r := RunBatches(g, s, b, limits);
      && (r.status.Finished? <==> Parse(b).1 == Clean && Run(g, s, Parse(b).0).Ok?)
      && (r.status.Finished? ==> Run(g, s, Parse(b).0) == Ok(r.state) && r.mirrored == Parse(b).0)
  {
    hide RunBatch, RunBatches, Parse, Run, AdvanceTick;
    BatchingIsInvisible(g, s, b, limits);
    BatchIsAFold(g, s, b, Sum(limits));
    MirrorLeadsByAtMostOne(g, s, b, Sum(limits));
    var r := RunBatch(g, s, b, Sum(limits));
    var records := Parse(b).0;
    assert r.done == records[..|r.done|];
    if r.status.Failed? && |r.done| < |records| {
      FailedPrefix(g, s, records, |r.done|, r.state);
    }
  }

  /** Continuing a recording replays as if the session had never stopped. */
  lemma ContinuationIsSeamless<S>(g: Game<S>, s: S, played: seq<TickAdvance>, continued: seq<TickAdvance>)
    requires AllRecordable(played) && AllRecordable(continued)
    requires Run(g, s, played).Ok?
    ensures Parse(Frames(played + continued)) == (played + continued, Clean)
    ensures Run(g, s, Parse(Frames(played + continued)).0) == Run(g, Run(g, s, played).value, continued)
  {
    FramesAppend(played, continued);
    assert Frames(continued) == Frames(continued) + [];
    ParseOfFrames(continued, []);
    EndOfNothing();
    assert continued + [] == continued;
    ParseOfFrames(played, Frames(continued));
    RunAppend(g, s, played, continued);
  }

  // ----- Mirroring decoded records cannot overflow the record budget -----

  lemma VarintIsShortest(width: nat, b: seq<byte>)
    requires ReadScalar(width, b).Ok?
    ensures |Varint(ReadScalar(width, b).value.0)| + |ReadScalar(width, b).value.1| <= |b|
  {
    Widths();
  }

  lemma CommandIsShortest(b: seq<byte>)
    requires ReadCommand(b, true).Ok?
    ensures |EncodeCommand(ReadCommand(b, true).value.0)| + |ReadCommand(b, true).value.1| <= |b|
    ensures |ReadCommand(b, true).value.0.payload| <= MAX_PAYLOAD_BYTES
  {
    hide Varint;
    VarintIsShortest(4, b);
    var rest := ReadScalar(4, b).value.1;
    if ReadScalar(4, b).value.0 == 1 {
      VarintIsShortest(8, rest);
    }
    VarintIsShortest(8, ReadParticipant(b).value.1);
  }

  /** `b` holds `inputs`, then `rest`, in no fewer bytes than their canonical encoding. */
  ghost predicate AtLeastCanonical(inputs: seq<Command>, b: seq<byte>, rest: seq<byte>) {
    PayloadsFit(inputs) && |EncodeInputs(inputs)| + |rest| <= |b|
  }

  lemma CanonicalCons(c: Command, others: seq<Command>, b: seq<byte>, mid: seq<byte>, rest: seq<byte>)
    requires |c.payload| <= MAX_PAYLOAD_BYTES && |EncodeCommand(c)| + |mid| <= |b|
    requires AtLeastCanonical(others, mid, rest)
    ensures AtLeastCanonical([c] + others, b, rest)
  {
    hide EncodeCommand;
    var inputs := [c] + others;
    assert inputs[1..] == others;
    assert forall i :: 0 < i < |inputs| ==> inputs[i] == others[i - 1];
  }

  lemma {:induction false} InputsAreShortest(count: nat, b: seq<byte>)
    requires ReadInputs(count, b, true).Ok?
    ensures |ReadInputs(count, b, true).value.0| == count
    ensures AtLeastCanonical(ReadInputs(count, b, true).value.0, b, ReadInputs(count, b, true).value.1)
  {
    hide ReadCommand, EncodeCommand;
    if count > 0 {
      CommandIsShortest(b);
      var (c, mid) := ReadCommand(b, true).value;
      InputsAreShortest(count - 1, mid);
      var (others, rest) := ReadInputs(count - 1, mid, true).value;
      CanonicalCons(c, others, b, mid, rest);
    }
  }

  /** A record read from any log, canonical or not, can be appended and read back unchanged. */
  lemma DecodedIsRecordable(b: seq<byte>)
    requires NextRecord(b).Record?
    ensures Recordable(NextRecord(b).advance)
  {
    var length := LeValue(b[..4]);
    var payload := b[4..4 + length];
    var (tick, rest) := ReadScalar(8, payload).value;
    VarintIsShortest(8, payload);
    VarintIsShortest(8, rest);
    hide Varint, ReadScalar;
    var (count, body) := ReadLength(rest).value;
    InputsAreShortest(count, body);
  }

  lemma {:induction false} ParsedIsRecordable(b: seq<byte>)
    ensures AllRecordable(Parse(b).0)
    decreases |b|
  {
    if NextRecord(b).Record? {
      DecodedIsRecordable(b);
      ParsedIsRecordable(NextRecord(b).rest);
    }
  }

  // ----- The replay loop -----

  lemma RecordRoundTrip(bytes: seq<byte>, records: seq<TickAdvance>, advance: TickAdvance)
    ensures bytes + Frames(records) + Frame(advance) == bytes + Frames(records + [advance])
  {
    hide Frame;
    FramesAppend(records, [advance]);
    assert Frames([advance]) == Frame(advance) + Frames([]);
    assert Frame(advance) + [] == Frame(advance);
    Regroup(bytes, Frames(records), Frame(advance));
  }

  lemma BatchStep<S>(g: Game<S>, s: S, b: seq<byte>, done: seq<TickAdvance>, limit: nat)
    requires limit > 0
    ensures var soFar := Batch(s, b, done, done, More);
      var one := RunOneRecord(g, s, b);
      Then(soFar, RunBatch(g, s, b, limit))
        == if one.status.More?
           then Then(Batch(one.state, one.rest, done + one.done, done + one.done, More),
                     RunBatch(g, one.state, one.rest, limit - 1))
           else Then(soFar, one)
  {
    hide NextRecord;
    var one := RunOneRecord(g, s, b);
    if one.status.More? {
      ThenRegroups(Batch(s, b, done, done, More), one, RunBatch(g, one.state, one.rest, limit - 1));
    }
  }

  /**
    `replay_batch`. `cutoff` stands for the clock and for cancellation: the batch stops after that
    many records at the latest, and never after more than 128.
  */
  method ReplayBatch<S>(driver: Driver<S>, reader: ReplayReader, mirror: ReplayWriter?, cutoff: nat)
    returns (records: nat, status: Status)
    modifies driver, reader.source, mirror
    ensures var r := RunBatch(driver.game, old(driver.state), old(reader.source.rest), Min(cutoff, BATCH_RECORDS));
      && records == |r.done| && status == r.status
      && (!status.Failed? ==> driver.state == r.state && reader.source.rest == r.rest)
      && (mirror != null ==> mirror.bytes == old(mirror.bytes) + Frames(r.mirrored))
  {
    hide NextRecord, RunOneRecord, RunBatch, Frame;
    var limit := Min(cutoff, BATCH_RECORDS);
    var g := driver.game;
    ghost var start := RunBatch(g, driver.state, reader.source.rest, limit);
    ghost var done: seq<TickAdvance> := [];
    ThenNothing(driver.state, reader.source.rest, start);
    records := 0;
    while records < limit
      invariant records == |done| <= limit
      invariant start == Then(Batch(driver.state, reader.source.rest, done, done, More),
                              RunBatch(g, driver.state, reader.source.rest, limit - records))
      invariant mirror != null ==> mirror.bytes == old(mirror.bytes) + Frames(done)
    {
      ghost var (s, b) := (driver.state, reader.source.rest);
      BatchStep(g, s, b, done, limit - records);
      var next := reader.Next();
      ReadOneRecord(g, s, b);
      assert done + [] == done;
      match next {
        case End =>
          assert b == [] by {
            EndOnlyAtEnd(b);
          }
          return records, Finished;
        case Bad(e) =>
          return records, Failed(Log(e));
        case Record(advance, _) =>
          if !Continues(g, driver.state, advance.tick) {
            return records, Failed(Sim(TickGap));
          }
          if mirror != null {
            DecodedIsRecordable(b);
            var appended := mirror.Append(advance);
            assert appended;
            RecordRoundTrip(old(mirror.bytes), done, advance);
          }
          var ticked := driver.Tick(advance, Replaying, true);
          if ticked.Err? {
            return records, Failed(Sim(ticked.error));
          }
          done := done + [advance];
          records := records + 1;
      }
    }
    RunBatchUnfolds(g, driver.state, reader.source.rest, 0);
    assert done + [] == done;
    status := More;
  }

  lemma ReadOneRecord<S>(g: Game<S>, s: S, b: seq<byte>)
    ensures var next := NextRecord(b);
      RunOneRecord(g, s, b)
        == if next.End? then Batch(s, b, [], [], Finished)
           else if next.Bad? then Batch(s, b, [], [], Failed(Log(next.error)))
           else if AdvanceTick(g, s, next.advance).Ok? then
             Batch(AdvanceTick(g, s, next.advance).value, next.rest, [next.advance], [next.advance], More)
           else
             Batch(s, b, [], if AdvanceTick(g, s, next.advance).error.TickGap? then [] else [next.advance],
               Failed(Sim(AdvanceTick(g, s, next.advance).error)))
  {
    hide NextRecord;
  }

  lemma EndOnlyAtEnd(b: seq<byte>)
    ensures NextRecord(b).End? ==> b == []
  {
  }

  lemma LoadFails<S>(g: Game<S>, initial: S, before: seq<TickAdvance>, parsed: (seq<TickAdvance>, Ending),
      limit: nat, r: Batch<S>)
    requires Run(g, initial, before).Ok?
    requires IsFold(g, Run(g, initial, before).value, parsed, limit, r) && r.status.Failed?
    ensures parsed.1.Broken? || Run(g, initial, before + parsed.0).Err?
  {
    hide Parse, AdvanceTick;
    var s := Run(g, initial, before).value;
    RunAppend(g, initial, before, parsed.0);
    if |r.done| < |parsed.0| {
      assert r.done == parsed.0[..|r.done|];
      FailedPrefix(g, s, parsed.0, |r.done|, r.state);
    }
  }

  /** One unfinished batch moves records from the unread log to the executed ones and loses none. */
  lemma BatchAdvances(before: seq<TickAdvance>, batch: seq<TickAdvance>, rest: seq<TickAdvance>, bytes: seq<byte>)
    ensures before + (batch + rest) == (before + batch) + rest
    ensures bytes + Frames(before) + Frames(batch) == bytes + Frames(before + batch)
  {
    Regroup(before, batch, rest);
    FramesAppend(before, batch);
    Regroup(bytes, Frames(before), Frames(batch));
  }

  /** `replay_into`: batches until the end. Each batch is taken to make progress. */
  method ReplayInto<S>(driver: Driver<S>, reader: ReplayReader, mirror: ReplayWriter?) returns (total: nat, ok: bool)
    modifies driver, reader.source, mirror
    ensures var (records, ending) := Parse(old(reader.source.rest));
      && (ok <==> ending.Clean? && Run(driver.game, old(driver.state), records).Ok?)
      && (ok ==> Run(driver.game, old(driver.state), records) == Ok(driver.state) && total == |records|)
      && (ok && mirror != null ==> mirror.bytes == old(mirror.bytes) + Frames(records))
  {
    hide Parse, RunBatch, Frame, AdvanceTick;
    var (g, source) := (driver.game, reader.source);
    ghost var (initial, parsed) := (driver.state, Parse(source.rest));
    ghost var done: seq<TickAdvance> := [];
    assert done + parsed.0 == parsed.0;
    total := 0;
    var status := More;
    while status == More
      invariant total == |done| && Run(g, initial, done) == Ok(driver.state)
      invariant mirror != null ==> mirror.bytes == old(mirror.bytes) + Frames(done)
      invariant status.More? ==> parsed == (done + Parse(source.rest).0, Parse(source.rest).1)
      invariant status.Finished? ==> parsed == (done, Clean)
      invariant !status.Failed?
      decreases if status.More? then 1 + |Parse(source.rest).0| else 0
    {
      ghost var (s, b, before) := (driver.state, source.rest, done);
      var cutoff :| 1 <= cutoff <= BATCH_RECORDS;
      ghost var batch := RunBatch(g, s, b, cutoff);
      ghost var recorded := if mirror != null then mirror.bytes else [];
      var records;
      records, status := ReplayBatch(driver, reader, mirror, cutoff);
      BatchIsAFold(g, s, b, cutoff);
      if status.Failed? {
        LoadFails(g, initial, before, Parse(b), cutoff, batch);
        return total, false;
      }
      MirrorLeadsByAtMostOne(g, s, b, cutoff);
      RunAppend(g, initial, before, batch.done);
      BatchAdvances(before, batch.done, Parse(source.rest).0, if mirror != null then old(mirror.bytes) else []);
      assert Parse(b).0 == batch.done + Parse(b).0[|batch.done|..];
      total := total + records;
      done := before + batch.done;
    }
    ok := true;
  }
}

/**
  How an authority comes to a state and to the save bytes that describe it: a fresh session, a
  loaded log, or a loaded log mirrored into a new recording
  (crates/synctick/src/run_server.rs:46-140).
*/
module Saves {
  import opened Bytes
  import opened Envelope
  import opened ReplayLog
  import opened Simulation
  import opened Replay

  /** Where a session stands before it admits clients. */
  datatype Loaded<S> = Loaded(header: Header, records: seq<TickAdvance>, state: S)

  /** The state a save's readers reach: its header's initialization and one fold of its records. */
  function Meaning<S>(g: Game<S>, save: seq<byte>): Option<Loaded<S>> {
    var front := ReadHeader(save);
    if front.Err? then None
    else
      var (header, body) := front.value;
      var initial := Initialize(g, header);
      var (records, ending) := Parse(body);
      if initial.None? || ending.Broken? then None
      else
        var reached := Run(g, initial.value, records);
        if reached.Err? then None else Some(Loaded(header, records, reached.value))
  }

  /** What `run_server` starts from, given its own header and the contents of the load path, if any. */
  function StartFrom<S>(g: Game<S>, own: Header, load: Option<seq<byte>>): Option<Loaded<S>> {
    match load
    case Some(bytes) => Meaning(g, bytes)
    case None =>
      var initial := Initialize(g, own);
      if initial.None? then None else Some(Loaded(own, [], initial.value))
  }

  /** The bytes sent to clients: the recording, else the loaded file, else the bare header. */
  function SaveBytes<S>(l: Loaded<S>, load: Option<seq<byte>>, recording: bool): seq<byte> {
    if recording then EncodeHeader(l.header) + Frames(l.records)
    else if load.Some? then load.value
    else EncodeHeader(l.header)
  }

  lemma WrittenMeaning<S>(g: Game<S>, header: Header, records: seq<TickAdvance>)
    requires Shaped(header) && Compatible(header) && AllRecordable(records)
    ensures ReadHeader(EncodeHeader(header) + Frames(records)) == Ok((header, Frames(records)))
    ensures Parse(Frames(records)) == (records, Clean)
  {
    hide ReadHeader, EncodeHeader, Shaped, Compatible, AllRecordable, NextRecord;
    HeaderRoundTrip(header, Frames(records));
    EndOfNothing();
    ParseToEnding(records, [], Clean);
    assert Frames(records) + [] == Frames(records);
  }

  /**
    Whatever the three settings, clients that read the save reach exactly the authority's state. A
    loaded file is sent as it is; a recording is sent as it was written.
  */
  lemma SaveMeansState<S>(g: Game<S>, own: Header, load: Option<seq<byte>>, recording: bool)
    requires Shaped(own) && Compatible(own)
    requires StartFrom(g, own, load).Some?
    ensures var l := StartFrom(g, own, load).value;
      && Meaning(g, SaveBytes(l, load, recording)) == Some(l)
      && (load.Some? && !recording ==> SaveBytes(l, load, recording) == load.value)
      && (recording ==> ReadHeader(SaveBytes(l, load, recording)) == Ok((l.header, Frames(l.records))))
  {
    var l := StartFrom(g, own, load).value;
    if recording || load.None? {
      hide ReadHeader, EncodeHeader, Parse;
      if load.Some? {
        ParsedIsRecordable(ReadHeader(load.value).value.1);
      }
      WrittenMeaning(g, l.header, l.records);
      assert load.None? ==> EncodeHeader(l.header) + Frames([]) == EncodeHeader(l.header);
    }
  }

  /** What a client is told about the save. */
  ghost predicate Describes<S>(g: Game<S>, md: SaveMetadata, save: seq<byte>, s: S) {
    md.totalBytes == |save| && md.tick == g.tickOf(s) && md.hash == g.hashOf(s)
  }

  lemma HeaderIsNotEmpty(save: seq<byte>)
    ensures ReadHeader(save).Ok? ==> save != []
  {
  }

  /** `run_server` up to binding its socket: initialize, replay the load path, settle on the save. */
  method LoadSession<S>(g: Game<S>, own: Header, load: Option<seq<byte>>, recording: bool)
    returns (r: Option<(Driver<S>, seq<byte>, SaveMetadata)>)
    requires Shaped(own) && Compatible(own)
    ensures r.Some? <==>
      var l := StartFrom(g, own, load);
      l.Some? && |SaveBytes(l.value, load, recording)| <= U64_MAX
    ensures r.Some? ==>
      var l := StartFrom(g, own, load);
      var (driver, save, md) := r.value;
      && driver.game == g && driver.state == l.value.state
      && save == SaveBytes(l.value, load, recording) && save != []
      && Meaning(g, save) == l
      && Describes(g, md, save, driver.state)
  {
    hide ReadHeader, EncodeHeader, Parse, RunBatch;
    r := None;
    var source := new Source(if load.Some? then load.value else []);
    var reader := new ReplayReader(source, own);
    if load.Some? {
      var front := OpenReader(source);
      if front.Err? {
        return;
      }
      reader := front.value;
    }
    var header := reader.header;
    var initial := Initialize(g, header);
    if initial.None? {
      return;
    }
    var driver := new Driver(g, initial.value);
    var writer := new ReplayWriter(header);
    var mirror: ReplayWriter? := if recording then writer else null;
    ghost var body := reader.source.rest;
    if load.Some? {
      assert ReadHeader(load.value) == Ok((header, body));
      assert Parse(body).1 == Clean <==> !Parse(body).1.Broken?;
      var total, ok := ReplayInto(driver, reader, mirror);
      if !ok {
        return;
      }
    }
    assert EncodeHeader(header) + [] == EncodeHeader(header);
    var save := if mirror != null then mirror.bytes else if load.Some? then load.value else EncodeHeader(header);
    if |save| > U64_MAX {
      return;
    }
    SaveMeansState(g, own, load, recording);
    HeaderIsNotEmpty(save);
    r := Some((driver, save, SaveMetadata(|save|, g.tickOf(driver.state), g.hashOf(driver.state))));
  }
}

/**
  What a session does to the author's own game: the typed values that were submitted, in the order in
  which the authority recorded them, one step of the game per tick, on the authority and on every
  replica (crates/synctick/src/api.rs:265-310, crates/synctick/src/run_server.rs:400-419).
*/
module Authorship {
  import opened Bytes
  import opened Envelope
  import opened Simulation
  import opened Adapter
  import opened Loading
  import opened Session

  /** The game as its author creates it for the save's header, at tick zero. */
  ghost predicate Opened<S>(d: Definition<S>, u: Offer<S>, s: S) {
    && u.loaded.header.gameId == d.gameId && u.loaded.header.gameVersion == d.version
    && d.tickOf(s) == 0
    && exists v :: C.DecodePayload(d.initialization, u.loaded.header.initialization) == Ok(v)
         && d.create(v, u.loaded.header.tickNanos) == Some(s)
  }

  lemma SessionsAreOpened<S>(d: Definition<S>, u: Offer<S>)
    requires Sound(u) && u.game == Adapt(d)
    ensures Opened(d, u, Genesis(u))
  {
    hide C.DecodePayload, Sound, Adapt, Initialize;
    OfferFacts(u);
    OpensTheGame(d, u.loaded.header, Genesis(u));
  }

  /**
    In every run in play the authority's state is the author's game, created from the header and
    played one turn per record on exactly the commands the records encode.
  */
  lemma AuthorityPlaysTheGame<S>(d: Definition<S>, u: Setup<S>, events: seq<Event>)
    returns (turns: seq<seq<Input>>)
    requires Sound(u.offer) && u.offer.game == Adapt(d) && PossibleRun(u, events) && After(u, events).stage == Play
    ensures Opened(d, u.offer, Genesis(u.offer))
    ensures var a := After(u, events).authority;
      ReadsAll(d, a.log, turns) && Played(d, Genesis(u.offer), turns) == Some(a.state)
  {
    hide Sound, After, PossibleRun, Genesis, Adapt, Opened, Run, ReadsAll, Interval;
    AdaptedIsBounded(d);
    SessionsAreOpened(d, u.offer);
    AuthorityStaysVerified(u, events);
    var a := After(u, events).authority;
    turns := RunIsReadable(d, Genesis(u.offer), a.log);
    RunPlaysTheGame(d, Genesis(u.offer), a.log, turns);
  }

  /** And so is every live honest replica's, on a prefix of those turns. */
  lemma ReplicasPlayTheGame<S>(d: Definition<S>, u: Setup<S>, events: seq<Event>, id: u64)
    returns (turns: seq<seq<Input>>)
    requires Sound(u.offer) && u.offer.game == Adapt(d) && PossibleRun(u, events)
    requires id in After(u, events).links && After(u, events).links[id].client.startup.phase.Live?
    ensures Opened(d, u.offer, Genesis(u.offer))
    ensures var (log, l) := (After(u, events).authority.log, After(u, events).links[id]);
      && HeldTick(u.offer, l) <= |log| && ReadsAll(d, log[..HeldTick(u.offer, l)], turns)
      && Played(d, Genesis(u.offer), turns) == l.client.sim
  {
    hide Sound, After, PossibleRun, Genesis, Adapt, Opened, Run, ReadsAll, HeldTick;
    AdaptedIsBounded(d);
    SessionsAreOpened(d, u.offer);
    ReplicasAgree(u, events, id);
    var (log, l) := (After(u, events).authority.log, After(u, events).links[id]);
    var held := log[..HeldTick(u.offer, l)];
    turns := RunIsReadable(d, Genesis(u.offer), held);
    RunPlaysTheGame(d, Genesis(u.offer), held, turns);
  }
}

/**
  Startup never deadlocks: from every reachable state of the lobby in which an honest client is not
  yet out of time, it can be brought to readiness by nothing but further iterations of the two
  loops, while the clock runs on
  (crates/synctick/src/startup.rs:64-170, crates/synctick/src/run_client.rs:62-110).
*/
module Progress {
  import opened Bytes
  import opened Envelope
  import opened ReplayLog
  import opened Simulation
  import opened Replay
  import T = Transfer
  import opened Live
  import R = Replica
  import opened Loading
  import opened Session

  // ----- Continuing a run -----

  function Continue<S>(u: Setup<S>, w: World<S>, events: seq<Event>): World<S>
    decreases |events|
  {
    if events == [] then w else Continue(u, Step(u, w, events[0]), events[1..])
  }

  ghost predicate CanHappen<S>(u: Setup<S>, w: World<S>, events: seq<Event>)
    decreases |events|
  {
    events == [] || (Possible(u, w, events[0]) && CanHappen(u, Step(u, w, events[0]), events[1..]))
  }

  lemma {:induction false} ContinuesRun<S>(u: Setup<S>, past: seq<Event>, events: seq<Event>)
    requires PossibleRun(u, past) && CanHappen(u, After(u, past), events)
    ensures PossibleRun(u, past + events) && After(u, past + events) == Continue(u, After(u, past), events)
    decreases |events|
  {
    hide Step, Possible;
    if events == [] {
      assert past + events == past;
    } else {
      var longer := past + [events[0]];
      assert longer[..|longer| - 1] == past;
      ContinuesRun(u, longer, events[1..]);
      assert longer + events[1..] == past + events;
    }
  }

  // ----- The two iterations that move one client on -----

  const ONE_SECOND: nat := 1_000_000_000

  /**
    How far apart server iterations are. A client that runs once in between finds its progress timer,
    which goes off every second, due each time.
  */
  predicate Steady(gap: nat) { ONE_SECOND <= gap && 2 * gap < T.STARTUP_TIMEOUT }

  /** A prompt server iteration: everything the client sent has arrived, and the transport takes what it is given. */
  function PromptIntake<S>(u: Setup<S>, w: World<S>, id: u64, now: nat, other: u64): Intake {
    if other == id && id in w.links then Intake(now, |u.offer.save| + 2, |w.links[id].up|, 0, [], [])
    else Intake(now, 0, 0, 0, [], [])
  }

  function PromptIntakes<S>(u: Setup<S>, w: World<S>, id: u64, now: nat): u64 -> Intake {
    (other: u64) => PromptIntake(u, w, id, now, other)
  }

  /** It comes `gap` after the clock was last read. */
  function WaitFor<S>(u: Setup<S>, w: World<S>, id: u64, gap: nat): Event {
    WaitIteration(w.clock + gap, PromptIntakes(u, w, id, w.clock + gap), true)
  }

  /** A prompt client iteration: every save message has arrived, a whole batch is replayed, the timer is due. */
  function PromptTurn<S>(l: Link<S>): ClientIntake {
    ClientIntake([], |l.saves|, BATCH_RECORDS, true, 0, true)
  }

  function TurnFor<S>(w: World<S>, id: u64): Event
    requires id in w.links
  {
    ClientIteration(id, PromptTurn(w.links[id]))
  }

  /** Everything the client has to say has been heard. */
  ghost predicate AllHeard<S>(p: T.Peer, l: Link<S>) { l.up == [] && l.marks == [] }

  /** What a heard, unready peer knows is all the client has consumed. */
  lemma HeardIsAcknowledged<S>(u: Offer<S>, p: T.Peer, l: Link<S>)
    requires LoadingLink(u, p, l) && AllHeard(p, l) && p.phase != T.Verified
    ensures var acked := T.AckedNow(p, l.given);
      acked == l.taken || (acked == 0 && l.taken == 1)
    ensures R.IsLoading(l.client.startup)
  {
    hide T.Delivered, T.Total, T.Window, T.Slice, T.Cost, StartupAt;
    var acked: nat := T.AckedNow(p, l.given);
    T.DeliveredIncreases(u.save, acked, l.taken);
  }

  /** What the client has reported, or is about to announce, that its peer does not know yet. */
  ghost predicate Stirring<S>(p: T.Peer, l: Link<S>) {
    l.client.reported != (p.received, p.replayed) || l.client.startup.phase.AwaitingStart?
  }

  /** The peer has `slack` left before it is late, or news is on its way to it. */
  ghost predicate InTime<S>(p: T.Peer, l: Link<S>, clock: nat, slack: nat) {
    Stirring(p, l) || clock + slack < p.lastProgress + T.STARTUP_TIMEOUT
  }

  /** A heard peer knows all that its client reported, or that it is ready. */
  lemma HeardIsKnown<S>(u: Offer<S>, p: T.Peer, l: Link<S>)
    requires LoadingLink(u, p, l) && AllHeard(p, l)
    ensures p.phase != T.Verified ==> !Stirring(p, l)
  {
    hide T.Delivered, T.Total, T.Window, T.Slice, T.Cost;
    if p.phase != T.Verified {
      HeardIsAcknowledged(u, p, l);
      BeginCarriesNothing(u.md, u.save);
      PeerReceived(p, u.md, u.save, T.AckedNow(p, l.given), l.given);
      ReceivedIsDelivered(u, l.client.startup, l.client.sim, l.taken);
    }
  }

  lemma PeerReceived(p: T.Peer, md: SaveMetadata, save: seq<byte>, acked: nat, given: nat)
    requires T.PeerAt(p, md, save, acked, given)
    ensures p.received == T.Delivered(save, acked)
  {
  }

  /** What one prompt server iteration makes of the client's link. */
  ghost predicate WaitedOn<S>(u: Offer<S>, p: T.Peer, l: Link<S>, p': T.Peer, l': Link<S>, now: nat) {
    && l'.client == l.client && l'.taken == l.taken && AllHeard(p', l')
    && l.given <= l'.given <= T.Total(u.save)
    && (p'.phase != T.Verified ==>
          && 2 <= l'.given && !Stirring(p', l')
          && (p'.lastProgress == now || (!Stirring(p, l) && p'.lastProgress == p.lastProgress))
          && (AllHeard(p, l) && l.taken == l.given < T.Total(u.save) ==> l.given < l'.given))
  }

  /** A prompt server iteration never drops an honest peer that is still in time. */
  lemma PromptlyServed<S>(u: Setup<S>, w: World<S>, id: u64, now: nat)
    requires Sound(u.offer) && id in w.links && id in w.peers && LoadingLink(u.offer, w.peers[id], w.links[id])
    requires InTime(w.peers[id], w.links[id], now, 0)
    ensures var (p, l, intake) := (w.peers[id], w.links[id], PromptIntake(u, w, id, now, id));
      var r := Served(u, w, id, intake);
      r.Some? && WaitedOn(u.offer, p, l, r.value, ServedLink(u, p, l, intake), now)
  {
    hide Sound, LoadingLink, T.Pump, T.ReceiveAll, T.Total;
    var (o, p, l, intake) := (u.offer, w.peers[id], w.links[id], PromptIntake(u, w, id, now, id));
    var pumped := T.Pump(p, o.save, o.md, intake.grants);
    var received := T.ReceiveAll(pumped.peer, RoundOf(w, id, intake).arrivals, o.md, now);
    ServedLinkKeeps(u, w, id, intake);
    PromptlyPumped(u, p, l, intake.grants);
    MarksWithinUp(o, p, l);
    T.VerifiedStays(pumped.peer, RoundOf(w, id, intake).arrivals, o.md, now);
    T.AllMovedMeansRefreshed(pumped.peer, RoundOf(w, id, intake).arrivals, o.md, now);
    var (p', l') := (received.value, ServedLink(u, p, l, intake));
    HeardIsKnown(o, p', l');
  }

  lemma MarksWithinUp<S>(u: Offer<S>, p: T.Peer, l: Link<S>)
    requires LoadingLink(u, p, l)
    ensures |l.marks| <= |l.up|
  {
    hide T.PeerAt, ClientAt, Growing, T.Slice;
  }

  /** A prompt pump always gets past `Begin`, and past what is acknowledged. */
  lemma PromptlyPumped<S>(u: Setup<S>, p: T.Peer, l: Link<S>, grants: nat)
    requires LoadingLink(u.offer, p, l) && grants >= 2
    ensures var r := T.Pump(p, u.offer.save, u.offer.md, grants);
      var given := l.given + |r.sent|;
      && given <= T.Total(u.offer.save) && (p.phase != T.Verified ==> 2 <= given)
      && r.peer.received == p.received && r.peer.replayed == p.replayed && r.peer.lastProgress == p.lastProgress
      && (r.peer.phase == T.Verified <==> p.phase == T.Verified)
      && (AllHeard(p, l) && p.phase != T.Verified && l.taken == l.given < T.Total(u.offer.save) ==> l.given < given)
  {
    hide T.Pump, T.Total, T.Delivered, ClientAt, Growing, T.Slice, T.Window, T.Cost;
    var (o, acked) := (u.offer, T.AckedNow(p, l.given));
    T.PumpKeeps(p, o.md, o.save, acked, l.given, grants);
    var r := T.Pump(p, o.save, o.md, grants);
    T.GivenWithinSave(r.peer, o.md, o.save, acked, l.given + |r.sent|);
    if p.phase != T.Verified && l.given + |r.sent| < 2 {
      T.BeginLeavesRoom(r.peer, o.md, o.save, acked, l.given + |r.sent|);
    }
    if AllHeard(p, l) && p.phase != T.Verified && l.taken == l.given && l.given < T.Total(o.save) {
      HeardIsAcknowledged(o, p, l);
      T.NeverStalls(p, o.md, o.save, acked, l.given, grants);
    }
  }

  // ----- The client's side -----

  /** A loading iteration that finds no save message is one replay step and a progress report. */
  lemma IdleTurnReplays<S>(u: Offer<S>, c: R.Client<S>, taken: nat, turn: R.Turn)
    requires Sound(u) && ClientAt(u, c, taken) && R.IsLoading(c.startup) && turn.saves == [] && turn.timer
    ensures var step := R.LoadStep(u.game, c.startup, c.sim, turn.cutoff);
      step.Ok? ==>
        var c' := c.(startup := step.value.startup, sim := step.value.sim);
        var ready := if step.value.message.Some? then [step.value.message.value] else [];
        var (c'', progress) := R.Reporting(c', R.IsLoading(c'.startup));
        R.LoadTurn(u.game, c, turn) == Ok((c'', ready + progress))
  {
    hide Sound, R.LoadStep, StartupAt;
    var step := R.LoadStep(u.game, c.startup, c.sim, turn.cutoff);
    if step.Ok? {
      var ready := if step.value.message.Some? then [step.value.message.value] else [];
      assert [] + ready == ready;
    }
  }

  /** An unfinished batch of 128 leaves 128 records fewer. */
  lemma StepAdvances<S>(u: Offer<S>, c: R.Startup, sim: Option<S>)
    requires Sound(u) && StartupAt(u, c, sim, T.Total(u.save)) && c.phase.Loading?
    ensures var r := R.LoadStep(u.game, c, sim, BATCH_RECORDS);
      r.Ok? && r.value.startup.phase.Loading? ==> c.replayed < r.value.startup.replayed <= u.md.tick
  {
    hide Sound, Parse, RunBatch, Run, Initialize, ReadHeader, T.Total, T.Delivered;
    OfferFacts(u);
    SaveFacts(u);
    var s := if sim.None? then Genesis(u) else sim.value;
    if sim.None? {
      assert u.loaded.records[..0] == [] && u.loaded.records[0..] == u.loaded.records;
      RunNothing(u.game, s);
    }
    var rest := c.phase.rest;
    BatchReaches(u, s, c.replayed, rest, BATCH_RECORDS);
    FullBatch(u.game, s, rest);
    var batch := RunBatch(u.game, s, rest, BATCH_RECORDS);
    ReachedTick(u, batch.state, c.replayed + |batch.done|);
  }

  lemma FullBatch<S>(g: Game<S>, s: S, rest: seq<byte>)
    ensures var batch := RunBatch(g, s, rest, BATCH_RECORDS);
      batch.status.More? ==> |batch.done| == BATCH_RECORDS
  {
    hide RunBatch, Parse, Run;
    BatchIsAFold(g, s, rest, BATCH_RECORDS);
  }

  /** What is left of replaying: records, and the final comparison. */
  function LoadLeft<S>(u: Offer<S>, c: R.Client<S>): int {
    match c.startup.phase
    case Receiving(_, _) => u.md.tick + 2
    case Loading(_, _, _) => u.md.tick - c.startup.replayed + 1
    case _ => 0
  }

  lemma LoadLeftIsNatural<S>(u: Offer<S>, c: R.Client<S>, taken: nat)
    requires Sound(u) && ClientAt(u, c, taken)
    ensures LoadLeft(u, c) >= 0
  {
    hide Sound, T.Total, T.Delivered, Run, Parse, ReadHeader;
    if c.startup.phase.Loading? && c.sim.Some? {
      ReachedTick(u, c.sim.value, c.startup.replayed);
    }
  }

  /**
    A prompt client iteration consumes everything sent; with nothing to consume it replays. Either
    way, what it gets done it reports.
  */
  ghost predicate TurnedOn<S>(u: Offer<S>, l: Link<S>, l': Link<S>) {
    && l'.taken == l'.given == l.given
    && (l.taken < l'.taken && 2 <= l'.taken ==> l'.client.reported != l.client.reported)
    && (l.saves == [] && l.client.startup.phase.Receiving? ==> l' == l.(taken := l'.taken))
    && (l.saves == [] && l.client.startup.phase.Loading? ==>
          && LoadLeft(u, l'.client) < LoadLeft(u, l.client)
          && (l'.client.startup.phase.AwaitingStart? || l'.client.reported != l.client.reported))
  }

  lemma PromptlyTurned<S>(u: Setup<S>, p: T.Peer, l: Link<S>)
    requires Sound(u.offer) && LoadingLink(u.offer, p, l)
    ensures var r := TurnedLink(u, l, PromptTurn(l));
      r.Ok? && TurnedOn(u.offer, l, r.value)
  {
    hide Sound, T.PeerAt, T.Slice, T.Total, StartupAt, R.LoadTurn, R.LoadStep, Growing, TurnedLink, LoadLeft;
    var (o, turn) := (u.offer, TurnOf(l, PromptTurn(l)));
    TurnedLoadingLink(u, p, l, PromptTurn(l));
    PromptTurnTakesAll(u, p, l);
    WindowIsWithinSave(o, p, l);
    var l' := TurnedLink(u, l, PromptTurn(l)).value;
    if l.taken < l'.taken && 2 <= l'.taken {
      T.DeliveredIncreases(o.save, l.taken, l'.taken);
      ReportedIsDelivered(o, l.client, l.taken);
      ReportedIsDelivered(o, l'.client, l'.taken);
    }
    if l.saves == [] && R.IsLoading(l.client.startup) {
      StepWhenIdle(o, l.client, l.taken);
      IdleTurnReplays(o, l.client, l.taken, turn);
      LoadingTurn(u, l, PromptTurn(l));
      assert l.up + [] == l.up && l.marks + [] == l.marks;
    }
  }

  lemma ReportedIsDelivered<S>(u: Offer<S>, c: R.Client<S>, taken: nat)
    requires ClientAt(u, c, taken)
    ensures c.reported.0 == T.Delivered(u.save, taken)
  {
    hide T.Delivered, T.Total;
  }

  lemma PromptTurnTakesAll<S>(u: Setup<S>, p: T.Peer, l: Link<S>)
    requires LoadingLink(u.offer, p, l) && TurnedLink(u, l, PromptTurn(l)).Ok?
    ensures var l' := TurnedLink(u, l, PromptTurn(l)).value;
      l'.taken == l'.given == l.given
  {
    hide T.PeerAt, ClientAt, Growing, R.TakeTurn, T.Nth;
  }

  /** The replay step of an idle iteration, and the report after it: nothing while receiving, progress while loading. */
  lemma StepWhenIdle<S>(u: Offer<S>, c: R.Client<S>, taken: nat)
    requires Sound(u) && ClientAt(u, c, taken) && R.IsLoading(c.startup)
    ensures var r := R.LoadStep(u.game, c.startup, c.sim, BATCH_RECORDS);
      && r.Ok?
      && var c' := c.(startup := r.value.startup, sim := r.value.sim);
      var c'' := R.Reporting(c', R.IsLoading(c'.startup)).0;
      && (c.startup.phase.Receiving? ==>
            r.value == R.Stepped(c.startup, c.sim, None) && R.Reporting(c', R.IsLoading(c'.startup)) == (c, []))
      && (c.startup.phase.Loading? ==>
            && LoadLeft(u, c'') < LoadLeft(u, c)
            && (c''.startup.phase.AwaitingStart? || c''.reported != c.reported))
  {
    hide Sound, T.Delivered, T.Total, RunBatch, Initialize, R.AfterBatch, Midway, ReadHeader;
    if c.startup.phase.Loading? {
      LoadingHasAll(u, c, taken);
      StepAtSave(u, c.startup, c.sim, BATCH_RECORDS);
      StepAdvances(u, c.startup, c.sim);
      LoadLeftIsNatural(u, c, taken);
      LoadLeftLoading(u, c, taken);
    }
  }

  lemma LoadingHasAll<S>(u: Offer<S>, c: R.Client<S>, taken: nat)
    requires ClientAt(u, c, taken) && c.startup.phase.Loading?
    ensures taken == T.Total(u.save)
  {
  }

  lemma LoadLeftLoading<S>(u: Offer<S>, c: R.Client<S>, taken: nat)
    requires Sound(u) && ClientAt(u, c, taken) && c.startup.phase.Loading?
    ensures c.startup.replayed <= u.md.tick
  {
    hide Sound, T.Total, T.Delivered, Run, Parse, ReadHeader;
    if c.sim.Some? {
      ReachedTick(u, c.sim.value, c.startup.replayed);
    }
  }

  // ----- The world moves on -----

  /** The lobby is still open and the client's peer is not ready. */
  ghost predicate Unready<S>(w: World<S>, id: u64) {
    w.stage == Lobby && id in w.links && id in w.peers && w.peers[id].phase != T.Verified
  }

  /** The client is still connected, and its peer is ready or the session has started. */
  ghost predicate GotReady<S>(w: World<S>, id: u64) {
    id in w.links && (w.stage == Lobby ==> id in w.peers && w.peers[id].phase == T.Verified)
  }

  lemma ServedInLobby<S>(u: Setup<S>, w: World<S>, id: u64, intakes: u64 -> Intake)
    requires id in w.links && id in w.peers && Served(u, w, id, intakes(id)).Some?
    ensures var w' := ServeAll(u, w, intakes);
      && id in w'.peers && id in w'.links && w'.peers[id] == Served(u, w, id, intakes(id)).value
      && w'.links[id] == ServedLink(u, w.peers[id], w.links[id], intakes(id))
  {
    hide T.ServePeer, ServedLink, RoundOf;
  }

  lemma StillInLobby<S>(u: Setup<S>, w: World<S>, publishes: bool)
    ensures w.stage == Lobby && Barrier(u, w, publishes).stage == Lobby ==> Barrier(u, w, publishes) == w
    ensures Barrier(u, w, publishes).links.Keys == w.links.Keys
  {
  }

  lemma WaitIsPossible<S>(u: Setup<S>, w: World<S>, id: u64, gap: nat)
    ensures Possible(u, w, WaitFor(u, w, id, gap))
    ensures w.stage == Lobby ==>
      Step(u, w, WaitFor(u, w, id, gap))
        == Barrier(u, ServeAll(u, w, PromptIntakes(u, w, id, w.clock + gap)), true).(clock := w.clock + gap)
  {
    hide ServeAll, Barrier;
  }

  lemma LobbyLink<S>(u: Setup<S>, w: World<S>, id: u64)
    requires Keeps(u, w) && w.stage == Lobby && id in w.links
    ensures id in w.peers && LoadingLink(u.offer, w.peers[id], w.links[id])
  {
    hide LoadingLink, T.Tracked;
  }

  lemma Waited<S>(u: Setup<S>, w: World<S>, id: u64, gap: nat)
    requires Sound(u.offer) && Bounded(u.offer.game) && Keeps(u, w)
    requires w.stage == Lobby && id in w.links && id in w.peers
    requires InTime(w.peers[id], w.links[id], w.clock, gap)
    ensures var (e, w') := (WaitFor(u, w, id, gap), Step(u, w, WaitFor(u, w, id, gap)));
      && Possible(u, w, e) && Keeps(u, w') && w'.clock == w.clock + gap && id in w'.links
      && (w'.stage == Lobby ==>
            && id in w'.peers
            && WaitedOn(u.offer, w.peers[id], w.links[id], w'.peers[id], w'.links[id], w'.clock))
  {
    hide Sound, Bounded, Keeps, Possible, Step, LoadingLink, T.Tracked, Served, ServeAll, ServedLink, Barrier, T.Total,
        WaitedOn, Stirring;
    var (e, now) := (WaitFor(u, w, id, gap), w.clock + gap);
    WaitIsPossible(u, w, id, gap);
    StepKeeps(u, w, e);
    LobbyLink(u, w, id);
    PromptlyServed(u, w, id, now);
    ServedInLobby(u, w, id, PromptIntakes(u, w, id, now));
    ServeAllStays(u, w, PromptIntakes(u, w, id, now));
    StillInLobby(u, ServeAll(u, w, PromptIntakes(u, w, id, now)), true);
  }

  lemma TurnMade<S>(u: Setup<S>, w: World<S>, id: u64)
    requires Sound(u.offer) && Bounded(u.offer.game) && Keeps(u, w) && w.stage == Lobby && id in w.links
    ensures var w' := Step(u, w, TurnFor(w, id));
      && Possible(u, w, TurnFor(w, id)) && Keeps(u, w')
      && w'.stage == Lobby && id in w'.links && w'.peers == w.peers && w'.clock == w.clock
      && TurnedOn(u.offer, w.links[id], w'.links[id])
  {
    hide Sound, Bounded, LoadingLink, T.Tracked, TurnedLink, TurnedOn;
    StepKeeps(u, w, TurnFor(w, id));
    PromptlyTurned(u, w.peers[id], w.links[id]);
  }

  lemma OneMore<S>(u: Setup<S>, w: World<S>, e: Event, later: seq<Event>)
    requires Possible(u, w, e) && CanHappen(u, Step(u, w, e), later)
    ensures CanHappen(u, w, [e] + later) && Continue(u, w, [e] + later) == Continue(u, Step(u, w, e), later)
  {
    hide Step, Possible;
    assert ([e] + later)[1..] == later;
  }

  /** A heard client that has everything is either still replaying or its peer knows it is ready. */
  lemma HeardAndComplete<S>(u: Setup<S>, w: World<S>, id: u64)
    requires Keeps(u, w) && Unready(w, id) && AllHeard(w.peers[id], w.links[id])
    ensures R.IsLoading(w.links[id].client.startup)
    ensures w.links[id].taken == T.Total(u.offer.save) ==> w.links[id].client.startup.phase.Loading?
    ensures w.links[id].taken < T.Total(u.offer.save) ==> w.links[id].client.startup.phase.Receiving?
    ensures w.links[id].taken == w.links[id].given ==> w.links[id].saves == []
  {
    hide T.Tracked, T.PeerAt, T.Delivered, T.Total, Growing;
    HeardIsAcknowledged(u.offer, w.peers[id], w.links[id]);
  }

  lemma MeasureIsNatural<S>(u: Setup<S>, w: World<S>, id: u64)
    requires Sound(u.offer) && Keeps(u, w) && w.stage == Lobby && id in w.links
    ensures w.links[id].taken <= w.links[id].given <= T.Total(u.offer.save)
    ensures LoadLeft(u.offer, w.links[id].client) >= 0
  {
    hide Sound, T.Tracked, T.PeerAt, T.Total, StartupAt, LoadLeft, T.Slice, Growing;
    WindowIsWithinSave(u.offer, w.peers[id], w.links[id]);
    LoadLeftIsNatural(u.offer, w.links[id].client, w.links[id].taken);
  }

  /** A client in the lobby that is in time for two more server iterations. */
  ghost predicate Hopeful<S>(w: World<S>, id: u64, slack: nat) {
    w.stage == Lobby && id in w.links && id in w.peers && InTime(w.peers[id], w.links[id], w.clock, slack)
  }

  /** What a turn gets done is news for the peer. */
  lemma NewsIsStirring<S>(w: World<S>, w': World<S>, id: u64, slack: nat)
    requires Unready(w, id) && !Stirring(w.peers[id], w.links[id])
    requires w'.stage == Lobby && id in w'.links && w'.peers == w.peers
    requires var (c, c') := (w.links[id].client, w'.links[id].client);
      c'.reported != c.reported || c'.startup.phase.AwaitingStart?
    ensures Hopeful(w', id, slack)
  {
  }

  /**
    Startup never deadlocks: whatever happened so far, and whatever the other clients did, an honest
    client in the lobby that is in time can still be brought to readiness, or the barrier opens on
    the way.
  */
  lemma {:induction false} CanGetReady<S>(u: Setup<S>, w: World<S>, id: u64, gap: nat) returns (events: seq<Event>)
    requires Sound(u.offer) && Bounded(u.offer.game) && Keeps(u, w) && Steady(gap) && Hopeful(w, id, 2 * gap)
    ensures CanHappen(u, w, events) && GotReady(Continue(u, w, events), id)
    decreases T.Total(u.offer.save) - w.links[id].taken, LoadLeft(u.offer, w.links[id].client)
  {
    hide Sound, Bounded, Keeps, Step, LoadLeft, T.Total, Stirring, Possible;
    var wait := WaitFor(u, w, id, gap);
    var w1 := Step(u, w, wait);
    Waited(u, w, id, gap);
    MeasureIsNatural(u, w, id);
    if !Unready(w1, id) {
      OneMore(u, w, wait, []);
      return [wait];
    }
    HeardAndComplete(u, w1, id);
    MeasureIsNatural(u, w1, id);
    var w2 := Step(u, w1, TurnFor(w1, id));
    TurnMade(u, w1, id);
    var later;
    if w2.links[id].taken > w.links[id].taken || w.links[id].taken == T.Total(u.offer.save) {
      NewsIsStirring(w1, w2, id, 2 * gap);
      later := CanGetReady(u, w2, id, gap);
    } else {
      later := CanBeServed(u, w2, id, gap);
    }
    OneMore(u, w1, TurnFor(w1, id), later);
    OneMore(u, w, wait, [TurnFor(w1, id)] + later);
    events := [wait] + ([TurnFor(w1, id)] + later);
  }

  /** With everything acknowledged and more to send, the next two iterations deliver something. */
  lemma {:induction false} CanBeServed<S>(u: Setup<S>, w: World<S>, id: u64, gap: nat) returns (events: seq<Event>)
    requires Sound(u.offer) && Bounded(u.offer.game) && Keeps(u, w)
    requires Steady(gap) && Unready(w, id) && Hopeful(w, id, gap)
    requires AllHeard(w.peers[id], w.links[id]) && w.links[id].taken == w.links[id].given < T.Total(u.offer.save)
    ensures CanHappen(u, w, events) && GotReady(Continue(u, w, events), id)
    decreases T.Total(u.offer.save) - w.links[id].taken, -1
  {
    hide Sound, Bounded, Keeps, Step, LoadLeft, T.Total, Stirring, Possible;
    var wait := WaitFor(u, w, id, gap);
    var w1 := Step(u, w, wait);
    Waited(u, w, id, gap);
    if !Unready(w1, id) {
      OneMore(u, w, wait, []);
      return [wait];
    }
    MeasureIsNatural(u, w1, id);
    var w2 := Step(u, w1, TurnFor(w1, id));
    TurnMade(u, w1, id);
    NewsIsStirring(w1, w2, id, 2 * gap);
    var later := CanGetReady(u, w2, id, gap);
    OneMore(u, w1, TurnFor(w1, id), later);
    OneMore(u, w, wait, [TurnFor(w1, id)] + later);
    events := [wait] + ([TurnFor(w1, id)] + later);
  }

  /** The same, said of runs: the run continues, with its clock, to one in which the client is ready. */
  lemma StartupNeverDeadlocks<S>(u: Setup<S>, past: seq<Event>, id: u64, gap: nat) returns (events: seq<Event>)
    requires Sound(u.offer) && Bounded(u.offer.game) && PossibleRun(u, past)
    requires Steady(gap) && Hopeful(After(u, past), id, 2 * gap)
    ensures PossibleRun(u, past + events) && GotReady(After(u, past + events), id)
  {
    hide Sound, Bounded, Keeps, After, Step, Hopeful;
    EveryRunKeeps(u, past);
    events := CanGetReady(u, After(u, past), id, gap);
    ContinuesRun(u, past, events);
  }

  /** Any session with room for a client can be run until that client is ready. */
  lemma NewcomersGetReady<S>(u: Setup<S>, id: u64, now: nat, gap: nat) returns (events: seq<Event>)
    requires Sound(u.offer) && Bounded(u.offer.game) && u.expected > 0 && Steady(gap)
    ensures PossibleRun(u, events) && GotReady(After(u, events), id)
  {
    hide Sound, Bounded;
    var join := [Join(id, true, now)];
    assert join[..0] == [];
    var later := StartupNeverDeadlocks(u, join, id, gap);
    events := join + later;
  }
}

/**
  A whole session as a transition system: one authority, any number of clients that may send
  anything, and honest clients running the replica loop over reliable FIFO channels
  (crates/synctick/src/run_server.rs:142-169, 209-281, 319-424; crates/synctick/src/run_client.rs:37-145;
  crates/synctick/src/protocol.rs:136-165).

  One event is one iteration of a loop: both loops take in the network first and hand over what
  they sent last, so an iteration meets the channels as they stood when it began.
*/
module Session {
  import opened Bytes
  import opened Envelope
  import opened ReplayLog
  import opened Simulation
  import opened Replay
  import opened Saves
  import T = Transfer
  import L = Lobby
  import opened Live
  import R = Replica
  import opened Loading
  import opened Following

  /** What a session is opened with. */
  datatype Setup<!S> = Setup(offer: Offer<S>, policy: Policy, expected: nat)

  /**
    An honest client and its channels: save and lockstep towards it, lockstep and verification from
    it. The rest is history: `given` and `taken` count save messages sent and consumed, `marks` says
    what each progress report in flight stands for, `submitted` is every command it sent.
  */
  datatype Link<S> = Link(
    client: R.Client<S>, saves: seq<SaveMessage>, down: seq<ServerMessage>,
    up: seq<ClientMessage>, reports: seq<Report>,
    given: nat, taken: nat, marks: seq<Mark>, submitted: seq<seq<byte>>)

  datatype Stage = Lobby | Play | Over

  /**
    `peers` and `authority.verified` are the clients of the two server loops, `links` the honest ones
    among them. `clock` is the latest reading of the server's clock.
  */
  datatype World<S> = World(
    stage: Stage, clock: nat, authority: Authority<S>, peers: map<u64, T.Peer>, links: map<u64, Link<S>>)

  /**
    What one server iteration meets for one client: the clock, how many messages the transport
    accepts, how many queued messages have arrived from an honest client, and the actual messages
    of any other.
  */
  datatype Intake = Intake(
    now: nat, grants: nat, count: nat, reportCount: nat,
    messages: seq<Option<ClientMessage>>, reports: seq<Option<Report>>)

  /** What one client iteration meets: as `Replica.Turn`, with how many queued messages have arrived. */
  datatype ClientIntake = ClientIntake(
    commands: seq<seq<byte>>, saveCount: nat, cutoff: nat, timer: bool, downCount: nat, publishes: bool)

  datatype Event =
    | Join(id: u64, honest: bool, now: nat)
    | Leave(id: u64)
    | WaitIteration(until: nat, intakes: u64 -> Intake, publishes: bool)
    | ClientIteration(id: u64, intake: ClientIntake)
    | LiveIteration(order: seq<u64>, intakes: u64 -> Intake, local: seq<seq<byte>>, publishes: bool)

  function Front<T>(xs: seq<T>, count: nat): seq<T> { if count <= |xs| then xs[..count] else xs }
  function Back<T>(xs: seq<T>, count: nat): seq<T> { if count <= |xs| then xs[count..] else [] }

  function NewLink<S>(): Link<S> {
    Link(R.NewClient(), [], [], [], [], 0, 0, [], [])
  }

  function Initially<S>(u: Setup<S>): World<S> {
    World(Lobby, 0, Authority(u.offer.loaded.state, u.offer.loaded.records, map[], map[]), map[], map[])
  }

  // ----- Connections -----

  function Connect<S>(u: Setup<S>, w: World<S>, id: u64, honest: bool, now: nat): World<S> {
    if w.stage != Lobby || id in w.peers || |w.peers| >= u.expected then w
    else w.(peers := w.peers[id := T.NewPeer(now)], links := if honest then w.links[id := NewLink()] else w.links)
  }

  function Disconnected<S>(w: World<S>, id: u64): World<S> {
    w.(peers := w.peers - {id}, links := w.links - {id},
       authority := w.authority.(verified := w.authority.verified - {id}))
  }

  // ----- One iteration of `wait_for_clients` -----

  function RoundOf<S>(w: World<S>, id: u64, intake: Intake): T.Round {
    if id in w.links then
      T.Round(intake.now, intake.grants, Arrived(Front(w.links[id].up, intake.count)),
        Front(w.links[id].reports, intake.reportCount) != [])
    else T.Round(intake.now, intake.grants, intake.messages, intake.reports != [])
  }

  function Served<S>(u: Setup<S>, w: World<S>, id: u64, intake: Intake): Option<T.Peer>
    requires id in w.peers
  {
    T.ServePeer(w.peers[id], u.offer.save, u.offer.md, RoundOf(w, id, intake))
  }

  function ServedLink<S>(u: Setup<S>, p: T.Peer, l: Link<S>, intake: Intake): Link<S> {
    var sent := T.Pump(p, u.offer.save, u.offer.md, intake.grants).sent;
    l.(saves := l.saves + sent, given := l.given + |sent|,
       up := Back(l.up, intake.count), marks := Back(l.marks, intake.count),
       reports := Back(l.reports, intake.reportCount))
  }

  function Rounds<S>(w: World<S>, intakes: u64 -> Intake): map<u64, T.Round> {
    map id | id in w.peers :: RoundOf(w, id, intakes(id))
  }

  function ServeAll<S>(u: Setup<S>, w: World<S>, intakes: u64 -> Intake): World<S> {
    var peers := L.ServedPeers(w.peers, u.offer.save, u.offer.md, Rounds(w, intakes));
    w.(peers := peers,
       links := map id | id in w.links && id in peers && id in w.peers :: ServedLink(u, w.peers[id], w.links[id],
           intakes(id)))
  }

  /** The barrier: Start goes out to everyone once exactly the expected number is ready. */
  function Barrier<S>(u: Setup<S>, w: World<S>, publishes: bool): World<S> {
    if |L.ReadyPeers(w.peers)| != u.expected then w
    else
      World(if publishes then Play else Over, w.clock,
        w.authority.(verified := map id | id in w.peers :: u.offer.md.tick), map[],
        map id | id in w.links :: w.links[id].(down := w.links[id].down + [Start(u.offer.md.tick, u.offer.md.hash)]))
  }

  // ----- One iteration of the client loop -----

  function TurnOf<S>(l: Link<S>, intake: ClientIntake): R.Turn {
    R.Turn(intake.commands, Front(l.saves, intake.saveCount), intake.cutoff, intake.timer,
      Front(l.down, intake.downCount), intake.publishes)
  }

  function TurnedLink<S>(u: Setup<S>, l: Link<S>, intake: ClientIntake): Result<Link<S>, R.ClientError>
  {
    var turn := TurnOf(l, intake);
    var t := R.TakeTurn(u.offer.game, Interval(u.offer), l.client, turn);
    if t.Err? then Err(t.error)
    else
      var taken := l.taken + |turn.saves|;
      Ok(l.(client := t.value.client, saves := Back(l.saves, intake.saveCount), down := Back(l.down, intake.downCount),
            up := l.up + t.value.ups, reports := l.reports + t.value.reports, taken := taken,
            marks := l.marks + ProgressMarks(taken, t.value.ups),
            submitted := if l.client.startup.phase.Live? then l.submitted + intake.commands else l.submitted))
  }

  // ----- One iteration of the live loop -----

  function MailOf<S>(w: World<S>, id: u64, intake: Intake): Mail {
    if id in w.links then
      Mail(Arrived(Front(w.links[id].up, intake.count)), Arrived(Front(w.links[id].reports, intake.reportCount)))
    else Mail(intake.messages, intake.reports)
  }

  function Mails<S>(w: World<S>, order: seq<u64>, intakes: u64 -> Intake): map<u64, Mail> {
    map id | id in order :: MailOf(w, id, intakes(id))
  }

  function TickedLink<S>(l: Link<S>, intake: Intake, advance: TickAdvance): Link<S> {
    l.(up := Back(l.up, intake.count), reports := Back(l.reports, intake.reportCount), down := l.down + [Tick(advance)])
  }

  /** The turn of the live loop that one iteration makes. */
  function LiveTurnOf<S>(u: Setup<S>, w: World<S>, order: seq<u64>, intakes: u64 -> Intake, local: seq<seq<byte>>,
      publishes: bool): Live.Turn<S>
  {
    LiveTurn(u.offer.game, Interval(u.offer), u.policy, w.authority, order, Mails(w, order, intakes), local, publishes)
  }

  /** An iteration that ends before its broadcast ends the session, and leaves nothing behind. */
  function PlayOn<S>(u: Setup<S>, w: World<S>, order: seq<u64>, intakes: u64 -> Intake, local: seq<seq<byte>>,
      publishes: bool): World<S>
  {
    var t := LiveTurnOf(u, w, order, intakes, local, publishes);
    if t.sent.None? then w.(stage := Over)
    else
      World(if t.failure.None? then Play else Over, w.clock, t.authority, w.peers,
        map id | id in w.links && id in t.authority.verified :: TickedLink(w.links[id], intakes(id), t.sent.value))
  }

  // ----- Runs -----

  function Step<S>(u: Setup<S>, w: World<S>, e: Event): World<S>
  {
    match e
    case Join(id, honest, now) => Connect(u, w, id, honest, now).(clock := now)
    case Leave(id) => Disconnected(w, id)
    case WaitIteration(until, intakes, publishes) =>
      if w.stage == Lobby then Barrier(u, ServeAll(u, w, intakes), publishes).(clock := until) else w
    case ClientIteration(id, intake) =>
      if id !in w.links then w
      else
        var turned := TurnedLink(u, w.links[id], intake);
        w.(links := if turned.Ok? then w.links[id := turned.value] else w.links - {id})
    case LiveIteration(order, intakes, local, publishes) =>
      if w.stage == Play then PlayOn(u, w, order, intakes, local, publishes) else w
  }

  /**
    The clock is monotone: an iteration reads it no earlier than the last one did, and no later than
    it ends. The transport lists each connected client once. An honest client submits commands the
    game's codec produced, which admission accepts.
  */
  ghost predicate Possible<S>(u: Setup<S>, w: World<S>, e: Event) {
    match e
    case Join(_, _, now) => w.clock <= now
    case WaitIteration(until, intakes, _) => forall id: u64 :: w.clock <= intakes(id).now <= until
    case LiveIteration(order, _, _, _) => NoDuplicates(order) && forall id :: id in w.authority.verified ==> id in order
    case ClientIteration(_, intake) =>
      forall i :: 0 <= i < |intake.commands| ==> u.offer.game.accepts(intake.commands[i])
    case _ => true
  }

  function After<S>(u: Setup<S>, events: seq<Event>): World<S>
  {
    if events == [] then Initially(u)
    else Step(u, After(u, events[..|events| - 1]), events[|events| - 1])
  }

  ghost predicate PossibleRun<S>(u: Setup<S>, events: seq<Event>)
  {
    events != [] ==>
      var earlier := events[..|events| - 1];
      PossibleRun(u, earlier) && Possible(u, After(u, earlier), events[|events| - 1])
  }

  // ----- What every run keeps, link by link -----

  /** An honest client being served the save. */
  ghost predicate LoadingLink<S>(u: Offer<S>, p: T.Peer, l: Link<S>) {
    var acked := T.AckedNow(p, l.given);
    && acked >= 0 && T.PeerAt(p, u.md, u.save, acked, l.given)
    && l.taken <= l.given && l.saves == T.Slice(u.md, u.save, l.taken, l.given)
    && ClientAt(u, l.client, l.taken) && !l.client.startup.phase.Live?
    && l.down == [] && l.reports == [] && l.submitted == []
    && if p.phase == T.Verified then l.up == [] && l.marks == [] && l.client.startup.phase.AwaitingStart?
       else Reporting(u, acked, p.replayed, l)
  }

  /** Its reports in flight are truthful and grow from what the peer knows; readiness, if announced, comes last. */
  ghost predicate Reporting<S>(u: Offer<S>, acked: nat, replayed: nat, l: Link<S>) {
    var n := |l.marks|;
    && n <= |l.up| && l.up[n..] == Announced(u, l.client)
    && Growing(u, l.up[..n], l.marks, (acked, replayed), (l.taken, l.client.reported.1))
  }

  /** Commands of one participant recorded since Start. */
  function Recorded<S>(u: Offer<S>, log: seq<TickAdvance>, id: u64): seq<seq<byte>>
    requires |log| >= u.md.tick
  {
    Logged(log[u.md.tick..], Remote(id))
  }

  /** A client that waits for Start, which is already on its way with every tick since. */
  ghost predicate StartingLink<S>(u: Offer<S>, log: seq<TickAdvance>, verified: nat, l: Link<S>)
    requires u.md.tick <= |log|
  {
    && l.client.startup.phase.AwaitingStart?
    && l.down == [Start(u.md.tick, u.md.hash)] + Ticks(log[u.md.tick..])
    && l.reports == [] && l.submitted == [] && verified == u.md.tick
  }

  /** A client live at tick `k`: it holds exactly the state the log's first `k` records come to. */
  ghost predicate LiveLink<S>(u: Offer<S>, log: seq<TickAdvance>, verified: nat, k: nat, l: Link<S>)
  {
    && l.client.startup.phase.Live?
    && u.md.tick <= verified <= k <= |log| <= U64_MAX
    && l.client.sim.Some? && StateAt(u.game, Genesis(u), log, k) == Ok(l.client.sim.value)
    && l.down == Ticks(log[k..])
    && l.reports == DueReports(u.game, Interval(u), Genesis(u), log, verified, k)
  }

  /** The tick a client's replica has reached. */
  function HeldTick<S>(u: Offer<S>, l: Link<S>): nat {
    if l.client.sim.Some? then u.game.tickOf(l.client.sim.value) else 0
  }

  ghost predicate PlayingLink<S>(u: Offer<S>, log: seq<TickAdvance>, verified: nat, id: u64, l: Link<S>)
    requires u.md.tick <= |log|
  {
    && ClientAt(u, l.client, T.Total(u.save)) && l.saves == []
    && (StartingLink(u, log, verified, l) || LiveLink(u, log, verified, HeldTick(u, l), l))
    && Recorded(u, log, id) <= l.submitted
    && l.up == InputsOf(l.submitted[|Recorded(u, log, id)|..])
    && forall i :: 0 <= i < |l.submitted| ==> u.game.accepts(l.submitted[i])
  }

  // ----- Startup: honest reports are admitted -----

  lemma {:induction false} ReceiveAllJoins(p: T.Peer, xs: seq<T.Arrival>, ys: seq<T.Arrival>,
      md: SaveMetadata, now: nat)
    ensures T.ReceiveAll(p, xs + ys, md, now)
         == if T.ReceiveAll(p, xs, md, now).None? then None
            else T.ReceiveAll(T.ReceiveAll(p, xs, md, now).value, ys, md, now)
    decreases |xs|
  {
    hide T.Receive;
    if xs == [] {
      assert xs + ys == ys;
    } else {
      assert (xs + ys)[1..] == xs[1..] + ys;
      if xs[0].Some? && T.Receive(p, xs[0].value, md, now).Some? {
        ReceiveAllJoins(T.Receive(p, xs[0].value, md, now).value, xs[1..], ys, md, now);
      }
    }
  }

  /** A peer still loading, and the truthful reports it has yet to see. */
  ghost predicate Expecting<S>(u: Offer<S>, p: T.Peer, given: nat, ms: seq<ClientMessage>, marks: seq<Mark>,
      high: Mark) {
    var acked := T.AckedNow(p, given);
    && acked >= 0 && T.PeerAt(p, u.md, u.save, acked, given) && p.phase != T.Verified && high.0 <= given
    && Growing(u, ms, marks, (acked, p.replayed), high)
  }

  lemma NextReportAdmitted<S>(
      u: Offer<S>, p: T.Peer, given: nat, ms: seq<ClientMessage>, marks: seq<Mark>, high: Mark, now: nat)
    requires Expecting(u, p, given, ms, marks, high) && ms != []
    ensures marks != []
    ensures var r := T.Receive(p, ms[0], u.md, now);
      r.Some? && r.value.phase == p.phase && Expecting(u, r.value, given, ms[1..], marks[1..], high)
  {
    hide T.Receive, T.PeerAt, T.Total, T.Delivered, Growing, T.Cost;
    GrowingHead(u, ms, marks, (T.AckedNow(p, given), p.replayed), high);
    var (t, ticks) := marks[0];
    GrowingBounds(u, ms[1..], marks[1..], marks[0], high);
    T.TruthfulReportAdmitted(p, u.md, u.save, T.AckedNow(p, given), given, t, ticks, now);
    var r := T.Receive(p, ms[0], u.md, now).value;
    BeginCarriesNothing(u.md, u.save);
    T.ReceiveKeeps(p, ms[0], u.md, u.save, T.AckedNow(p, given), given, now);
    GrowingFromLower(u, ms[1..], marks[1..], (T.AckedNow(r, given), r.replayed), marks[0], high);
  }

  lemma GrowingHead<S>(u: Offer<S>, ms: seq<ClientMessage>, marks: seq<Mark>, low: Mark, high: Mark)
    requires Growing(u, ms, marks, low, high) && ms != []
    ensures marks != [] && Truthful(u, ms[0], marks[0]) && Below(low, marks[0])
    ensures ms[0] == Progress(ms[0].receivedBytes, ms[0].replayedTick)
    ensures Growing(u, ms[1..], marks[1..], marks[0], high)
  {
  }

  /** Any number of an honest client's reports are admitted, one after another. */
  lemma {:induction false} ReportsAdmitted<S>(
      u: Offer<S>, p: T.Peer, given: nat, ms: seq<ClientMessage>, marks: seq<Mark>, high: Mark, k: nat, now: nat)
    requires Expecting(u, p, given, ms, marks, high) && k <= |ms|
    ensures |marks| == |ms|
    ensures var r := T.ReceiveAll(p, Arrived(ms[..k]), u.md, now);
      r.Some? && r.value.phase == p.phase && Expecting(u, r.value, given, ms[k..], marks[k..], high)
    decreases k
  {
    hide Expecting, T.Receive;
    assert |marks| == |ms| by {
      ExpectingBounds(u, p, given, ms, marks, high);
    }
    if k == 0 {
      assert ms[0..] == ms && marks[0..] == marks;
    } else {
      NextReportAdmitted(u, p, given, ms, marks, high, now);
      ReportsAdmitted(u, T.Receive(p, ms[0], u.md, now).value, given, ms[1..], marks[1..], high, k - 1, now);
      assert Arrived(ms[..k])[1..] == Arrived(ms[1..][..k - 1]);
      assert ms[1..][k - 1..] == ms[k..] && marks[1..][k - 1..] == marks[k..];
    }
  }

  lemma ExpectingBounds<S>(u: Offer<S>, p: T.Peer, given: nat, ms: seq<ClientMessage>, marks: seq<Mark>, high: Mark)
    requires Expecting(u, p, given, ms, marks, high)
    ensures |marks| == |ms|
  {
    GrowingBounds(u, ms, marks, (T.AckedNow(p, given), p.replayed), high);
  }

  /** Readiness, too, is admitted: it can only follow the whole save. */
  lemma ReadinessAdmitted<S>(u: Offer<S>, p: T.Peer, now: nat, given: nat, marks: seq<Mark>, high: Mark)
    requires Expecting(u, p, given, [], marks, high) && high.0 == T.Total(u.save)
    ensures var arrivals := Arrived([Ready(u.md.tick, u.md.hash)]);
      T.ReceiveAll(p, arrivals, u.md, now) == Some(p.(phase := T.Verified, lastProgress := now))
  {
    var arrivals := Arrived([Ready(u.md.tick, u.md.hash)]);
    assert arrivals[1..] == [];
  }

  /** What is left of an honest client's messages, seen from the peer that just received some of them. */
  ghost predicate StillReporting<S>(u: Offer<S>, p: T.Peer, given: nat, l: Link<S>, up: seq<ClientMessage>,
      marks: seq<Mark>) {
    if p.phase == T.Verified then up == [] && marks == [] && l.client.startup.phase.AwaitingStart?
    else
      && |marks| <= |up| && up[|marks|..] == Announced(u, l.client)
      && Expecting(u, p, given, up[..|marks|], marks, (l.taken, l.client.reported.1))
  }

  lemma FrontAdmitted<S>(u: Offer<S>, p: T.Peer, given: nat, l: Link<S>, count: nat, now: nat)
    requires Sound(u) && ClientAt(u, l.client, l.taken)
    requires p.phase != T.Verified && StillReporting(u, p, given, l, l.up, l.marks)
    ensures var r := T.ReceiveAll(p, Arrived(Front(l.up, count)), u.md, now);
      && r.Some? && (r.value.phase != T.Verified ==> r.value.phase == p.phase)
      && StillReporting(u, r.value, given, l, Back(l.up, count), Back(l.marks, count))
  {
    hide Sound, T.Receive, T.ReceiveAll, Expecting, T.Total, T.Delivered, Midway, ReadHeader;
    var (n, high) := (|l.marks|, (l.taken, l.client.reported.1));
    var progress := l.up[..n];
    if count <= n {
      ReportsAdmitted(u, p, given, progress, l.marks, high, count, now);
      assert Front(l.up, count) == progress[..count];
      assert Back(l.up, count) == l.up[count..] && Back(l.up, count)[..n - count] == progress[count..];
      assert Back(l.up, count)[n - count..] == l.up[n..];
    } else {
      ReportsAdmitted(u, p, given, progress, l.marks, high, n, now);
      assert progress[..n] == progress && progress[n..] == [] && l.marks[n..] == [];
      assert l.up == progress + Announced(u, l.client);
      var p1 := T.ReceiveAll(p, Arrived(progress), u.md, now).value;
      var ready := Announced(u, l.client);
      assert Front(l.up, count) == l.up && Back(l.up, count) == [] && Back(l.marks, count) == [];
      if ready == [] {
        assert l.up == progress;
      } else {
        ReadinessAdmitted(u, p1, now, given, [], high);
        ReceiveAllJoins(p, Arrived(progress), Arrived(ready), u.md, now);
        assert Arrived(l.up) == Arrived(progress) + Arrived(ready);
      }
    }
  }

  /** Pumping moves messages into the channel and leaves the peer's view of the client alone. */
  lemma PumpedLink<S>(u: Offer<S>, p: T.Peer, l: Link<S>, grants: nat)
    requires LoadingLink(u, p, l)
    ensures var r := T.Pump(p, u.save, u.md, grants);
      var given := l.given + |r.sent|;
      var acked := T.AckedNow(r.peer, given);
      && acked >= 0 && T.PeerAt(r.peer, u.md, u.save, acked, given)
      && l.saves + r.sent == T.Slice(u.md, u.save, l.taken, given)
      && (r.peer.phase == T.Verified <==> p.phase == T.Verified)
      && (p.phase != T.Verified ==> StillReporting(u, r.peer, given, l, l.up, l.marks))
  {
    hide T.PeerAt, T.Pump, T.Slice, ClientAt, Growing, Truthful;
    var acked: nat := T.AckedNow(p, l.given);
    T.PumpKeeps(p, u.md, u.save, acked, l.given, grants);
    var r := T.Pump(p, u.save, u.md, grants);
    var given := l.given + |r.sent|;
    T.WindowLength(r.peer, u.md, u.save, acked, given);
    T.SliceJoins(u.md, u.save, l.taken, l.given, given);
  }

  /**
    Serving an honest client keeps everything known about it, and nothing it sent is refused: only
    the liveness clock can disconnect it.
  */
  lemma ServedLinkKeeps<S>(u: Setup<S>, w: World<S>, id: u64, intake: Intake)
    requires Sound(u.offer) && id in w.links && id in w.peers
    requires LoadingLink(u.offer, w.peers[id], w.links[id])
    ensures var pumped := T.Pump(w.peers[id], u.offer.save, u.offer.md, intake.grants).peer;
      var received := T.ReceiveAll(pumped, RoundOf(w, id, intake).arrivals, u.offer.md, intake.now);
      && received.Some? && LoadingLink(u.offer, received.value, ServedLink(u, w.peers[id], w.links[id], intake))
      && Served(u, w, id, intake) == if T.TimedOut(received.value, intake.now) then None else received
  {
    hide Sound, T.PeerAt, T.Pump, T.ReceiveAll, ClientAt, T.Total, T.Slice, Growing, Expecting, T.TimedOut;
    var (o, p, l) := (u.offer, w.peers[id], w.links[id]);
    var pumped := T.Pump(p, o.save, o.md, intake.grants);
    PumpedLink(o, p, l, intake.grants);
    var given := l.given + |pumped.sent|;
    var front := Arrived(Front(l.up, intake.count));
    if p.phase == T.Verified {
      assert front == [];
      ReceivedNothing(pumped.peer, o.md, intake.now);
    } else {
      FrontAdmitted(o, pumped.peer, given, l, intake.count, intake.now);
    }
    var received := T.ReceiveAll(pumped.peer, front, o.md, intake.now).value;
    T.ReceiveAllKeeps(pumped.peer, front, o.md, o.save, T.AckedNow(pumped.peer, given), given, intake.now);
    LinkReceived(o, received, given, l, Back(l.up, intake.count), Back(l.marks, intake.count));
  }

  lemma ReceivedNothing(p: T.Peer, md: SaveMetadata, now: nat)
    ensures T.ReceiveAll(p, [], md, now) == Some(p)
  {
  }

  lemma LinkReceived<S>(u: Offer<S>, p: T.Peer, given: nat, l: Link<S>, up: seq<ClientMessage>, marks: seq<Mark>)
    requires StillReporting(u, p, given, l, up, marks)
    ensures if p.phase == T.Verified then up == [] && marks == [] && l.client.startup.phase.AwaitingStart?
            else
              T.AckedNow(p, given) >= 0 && Reporting(u, T.AckedNow(p, given), p.replayed, l.(up := up, marks := marks))
  {
    hide T.PeerAt, Growing;
  }

  // ----- Startup: the client's own iterations -----

  lemma SavesSplit<S>(u: Offer<S>, l: Link<S>, count: nat) returns (n: nat)
    requires l.taken <= l.given && l.saves == T.Slice(u.md, u.save, l.taken, l.given)
    ensures n == |Front(l.saves, count)| && l.taken + n <= l.given
    ensures Front(l.saves, count) == T.Slice(u.md, u.save, l.taken, l.taken + n)
    ensures Back(l.saves, count) == T.Slice(u.md, u.save, l.taken + n, l.given)
  {
    hide T.Nth;
    n := if count <= |l.saves| then count else |l.saves|;
  }

  lemma NothingHeard<S>(g: Game<S>, interval: nat, c: R.Client<S>, publishes: bool)
    requires interval > 0
    ensures R.HearAll(g, interval, c, [], publishes) == Ok(R.Heard(c, []))
  {
  }

  /** A loading iteration sends only what `LoadTurn` sends. */
  lemma LoadingTurn<S>(u: Setup<S>, l: Link<S>, intake: ClientIntake)
    requires !l.client.startup.phase.Live? && l.down == []
    requires R.LoadTurn(u.offer.game, l.client, TurnOf(l, intake)).Ok?
    ensures var (c, ms) := R.LoadTurn(u.offer.game, l.client, TurnOf(l, intake)).value;
      var taken := l.taken + |Front(l.saves, intake.saveCount)|;
      TurnedLink(u, l, intake) == Ok(l.(client := c, saves := Back(l.saves, intake.saveCount),
        up := l.up + ms, taken := taken, marks := l.marks + ProgressMarks(taken, ms)))
  {
    hide R.LoadTurn, R.HearAll;
    var (c, ms) := R.LoadTurn(u.offer.game, l.client, TurnOf(l, intake)).value;
    NothingHeard(u.offer.game, Interval(u.offer), c, intake.publishes);
    assert [] + ms == ms && l.reports + [] == l.reports;
  }

  /** Reports join those in flight. */
  lemma ReportsJoin<S>(u: Offer<S>, acked: nat, replayed: nat, l: Link<S>, c: R.Client<S>, taken: nat,
      ms: seq<ClientMessage>, progress: seq<ClientMessage>)
    requires Reporting(u, acked, replayed, l) && Announced(u, l.client) == []
    requires ms == progress + Announced(u, c)
    requires Growing(u, progress, ProgressMarks(taken, ms), (l.taken, l.client.reported.1), (taken, c.reported.1))
    ensures Reporting(u, acked, replayed,
      l.(client := c, up := l.up + ms, taken := taken, marks := l.marks + ProgressMarks(taken, ms)))
  {
    hide Growing, ProgressMarks;
    var n := |l.marks|;
    var more := ProgressMarks(taken, ms);
    assert l.up == l.up[..n];
    GrowingJoins(u, l.up, l.marks, progress, more,
      (acked, replayed), (l.taken, l.client.reported.1), (taken, c.reported.1));
    GrowingBounds(u, progress, more, (l.taken, l.client.reported.1), (taken, c.reported.1));
    Regroup(l.up, progress, Announced(u, c));
    assert (l.up + ms)[..n + |more|] == l.up + progress;
  }

  /** An honest client that is loading never gives up, and stays in step with its peer. */
  lemma TurnedLoadingLink<S>(u: Setup<S>, p: T.Peer, l: Link<S>, intake: ClientIntake)
    requires Sound(u.offer) && LoadingLink(u.offer, p, l)
    ensures var r := TurnedLink(u, l, intake);
      r.Ok? && LoadingLink(u.offer, p, r.value)
  {
    hide Sound, T.PeerAt, T.Slice, T.Total, ClientAt, TurnedLink, R.LoadTurn, Growing, LoadedOn;
    var o := u.offer;
    var n := SavesSplit(o, l, intake.saveCount);
    var turn := TurnOf(l, intake);
    WindowIsWithinSave(o, p, l);
    var acked: nat := T.AckedNow(p, l.given);
    if R.IsLoading(l.client.startup) {
      LoadTurnKeeps(o, l.client, l.taken, n, turn);
      var r := R.LoadTurn(o.game, l.client, turn);
      var progress := LoadedOnParts(o, l.client, l.taken, n, r);
      LoadingTurn(u, l, intake);
      ReportsJoin(o, acked, p.replayed, l, r.value.0, l.taken + n, r.value.1, progress);
    } else {
      WaitingHasAll(o, l.client, l.taken);
      assert Front(l.saves, intake.saveCount) == [] by {
        assert n == 0;
      }
      LoadedTurnIsSilent(o, l.client, turn);
      LoadingTurn(u, l, intake);
      assert l.up + [] == l.up && l.marks + [] == l.marks;
    }
  }

  lemma WindowIsWithinSave<S>(u: Offer<S>, p: T.Peer, l: Link<S>)
    requires LoadingLink(u, p, l)
    ensures l.given <= T.Total(u.save)
  {
  }

  lemma WaitingHasAll<S>(u: Offer<S>, c: R.Client<S>, taken: nat)
    requires ClientAt(u, c, taken) && !R.IsLoading(c.startup)
    ensures taken == T.Total(u.save)
  {
  }

  lemma LoadedOnParts<S>(
      u: Offer<S>, c: R.Client<S>, taken: nat, n: nat, r: Result<(R.Client<S>, seq<ClientMessage>), R.ClientError>)
    returns (progress: seq<ClientMessage>)
    requires LoadedOn(u, c, taken, n, r)
    ensures r.Ok? && ClientAt(u, r.value.0, taken + n) && !r.value.0.startup.phase.Live?
    ensures r.value.1 == progress + Announced(u, r.value.0)
    ensures Growing(u, progress, ProgressMarks(taken + n, r.value.1),
      (taken, c.reported.1), (taken + n, r.value.0.reported.1))
  {
    hide ClientAt, Growing, Announced, ProgressMarks;
    var (c', ms) := r.value;
    progress :| ms == progress + Announced(u, c')
      && Growing(u, progress, ProgressMarks(taken + n, ms), (taken, c.reported.1), (taken + n, c'.reported.1));
  }

  // ----- Live play: what one link keeps -----

  /** The log begins with the save's records, and every record can be written and read back. */
  ghost predicate ContinuesSave<S>(u: Offer<S>, log: seq<TickAdvance>) {
    u.md.tick <= |log| <= U64_MAX && log[..u.md.tick] == u.loaded.records && AllRecordable(log)
  }

  lemma StartedLink<S>(u: Offer<S>, p: T.Peer, id: u64, l: Link<S>)
    requires Sound(u) && LoadingLink(u, p, l) && p.phase == T.Verified
    ensures |u.loaded.records| == u.md.tick
    ensures PlayingLink(u, u.loaded.records, u.md.tick, id,
              l.(down := l.down + [Start(u.md.tick, u.md.hash)]))
  {
    hide Sound, T.Total, T.Delivered;
    OfferFacts(u);
    assert u.loaded.records[u.md.tick..] == [];
  }

  lemma SavedRecordsExtend<S>(u: Offer<S>)
    requires Sound(u)
    ensures ContinuesSave(u, u.loaded.records)
  {
    hide Sound, Parse, Recordable;
    OfferFacts(u);
    SaveFacts(u);
    ParsedIsRecordable(Body(u));
    assert u.loaded.records[..u.md.tick] == u.loaded.records;
  }

  // ----- ... when a tick is broadcast -----

  lemma {:induction false} DueReportsStable<S>(
      g: Game<S>, interval: nat, initial: S, log: seq<TickAdvance>, advance: TickAdvance, from: nat, till: nat)
    requires interval > 0 && till <= |log| < U64_MAX
    ensures DueReports(g, interval, initial, log + [advance], from, till)
         == DueReports(g, interval, initial, log, from, till)
    decreases till
  {
    hide StateAt;
    if till > from {
      StateAtGrows(g, initial, log, advance, till);
      DueReportsStable(g, interval, initial, log, advance, from, till - 1);
    }
  }

  lemma TicksGrow(log: seq<TickAdvance>, advance: TickAdvance, k: nat)
    requires k <= |log|
    ensures Ticks(log[k..]) + [Tick(advance)] == Ticks((log + [advance])[k..])
  {
  }

  lemma RecordedGrows<S>(u: Offer<S>, log: seq<TickAdvance>, advance: TickAdvance, id: u64)
    requires u.md.tick <= |log|
    ensures Recorded(u, log + [advance], id) == Recorded(u, log, id) + From(advance.inputs, Remote(id))
  {
    hide From, Logged;
    LoggedPush(log[u.md.tick..], advance, Remote(id));
    assert (log + [advance])[u.md.tick..] == log[u.md.tick..] + [advance];
  }

  /** The replica's view of one more broadcast tick, with `m` of its reports consumed. */
  lemma LiveLinkTicked<S>(
      u: Offer<S>, log: seq<TickAdvance>, verified: nat, verified': nat, k: nat, m: nat, l: Link<S>, l': Link<S>,
          advance: TickAdvance)
    requires LiveLink(u, log, verified, k, l) && |log| < U64_MAX
    requires u.md.tick <= verified' <= k
    requires m <= |DueReports(u.game, Interval(u), Genesis(u), log, verified, k)|
    requires DueReports(u.game, Interval(u), Genesis(u), log, verified, k)[m..]
          == DueReports(u.game, Interval(u), Genesis(u), log, verified', k)
    requires l'.client == l.client && l'.down == l.down + [Tick(advance)] && l'.reports == l.reports[m..]
    ensures LiveLink(u, log + [advance], verified', k, l')
  {
    hide StateAt, DueReports, Interval, Genesis;
    StateAtGrows(u.game, Genesis(u), log, advance, k);
    DueReportsStable(u.game, Interval(u), Genesis(u), log, advance, verified', k);
    TicksGrow(log, advance, k);
  }

  /** Consumed commands enter the record; the others stay in flight. */
  lemma CommandsTicked<S>(u: Offer<S>, log: seq<TickAdvance>, id: u64, l: Link<S>, count: nat, advance: TickAdvance)
    returns (front: seq<seq<byte>>)
    requires u.md.tick <= |log|
    requires Recorded(u, log, id) <= l.submitted && l.up == InputsOf(l.submitted[|Recorded(u, log, id)|..])
    requires forall i :: 0 <= i < |l.submitted| ==> u.game.accepts(l.submitted[i])
    ensures Front(l.up, count) == InputsOf(front) && forall i :: 0 <= i < |front| ==> u.game.accepts(front[i])
    ensures From(advance.inputs, Remote(id)) == front ==>
      && Recorded(u, log + [advance], id) <= l.submitted
      && Back(l.up, count) == InputsOf(l.submitted[|Recorded(u, log + [advance], id)|..])
  {
    hide Recorded, From;
    var n := |Recorded(u, log, id)|;
    var pending := l.submitted[n..];
    front := Front(pending, count);
    RecordedGrows(u, log, advance, id);
    assert l.submitted == Recorded(u, log, id) + pending;
    assert pending == front + Back(pending, count);
    assert forall i :: 0 <= i < |front| ==> front[i] == l.submitted[n + i];
    Regroup(Recorded(u, log, id), front, Back(pending, count));
    assert l.submitted[n + |front|..] == Back(pending, count);
  }

  /** One tick's inputs, filtered to any participant. */
  lemma TickHolds<S>(
      g: Game<S>, order: seq<u64>, mails: map<u64, Mail>, served: set<u64>, local: seq<seq<byte>>, p: Participant)
    requires forall x :: x in order ==> x in mails
    requires NoDuplicates(order)
    ensures From(Inputs(g, order, mails, served, local), p)
         == match p
            case Host => local
            case Remote(id) => if id in order && id in served then Accepted(g, mails[id].messages) else []
  {
    hide Accepted, RemoteCommands;
    var remote := RemoteCommands(g, order, mails, served);
    FromRemoteCommands(g, order, mails, served, p);
    FromCommands(Host, local, p);
    FromAppend(remote, Commands(Host, local), p);
    assert [] + local == local && From(remote, p) + [] == From(remote, p);
  }

  /** Everything an honest client's mail holds is in order; only the deadline can drop it. */
  lemma HonestLinkJudged<S>(u: Setup<S>, w: World<S>, id: u64, intake: Intake, verified: u64)
    returns (k: nat, m: nat, front: seq<seq<byte>>, verified': u64)
    requires var (o, a) := (u.offer, w.authority);
      Running(o.game, Interval(o), Genesis(o), o.md.tick, a)
    requires id in w.links && u.offer.md.tick <= verified <= |w.authority.log|
    requires |w.authority.log| - verified <= Interval(u.offer) * HISTORY_INTERVALS + 1
    requires PlayingLink(u.offer, w.authority.log, verified, id, w.links[id])
    ensures var (o, a, l, mail) := (u.offer, w.authority, w.links[id], MailOf(w, id, intake));
      && verified <= verified' <= k <= |a.log| <= U64_MAX
      && Front(l.up, intake.count) == InputsOf(front)
      && (forall i :: 0 <= i < |front| ==> o.game.accepts(front[i]))
      && Accepted(o.game, mail.messages) == front
      && ClientVerdict(o.game, Interval(o), u.policy, a, verified, mail)
         == Ok(Checked(verified', Overdue(|a.log|, verified', Interval(o))))
      && (l.client.startup.phase.Live? ==>
            && k == HeldTick(o, l) && m <= |l.reports| && Back(l.reports, intake.reportCount) == l.reports[m..]
            && l.reports[m..] == DueReports(o.game, Interval(o), Genesis(o), a.log, verified', k))
      && (!l.client.startup.phase.Live? ==> verified' == verified == o.md.tick && l.reports == [])
  {
    hide Running, DueReports, ClientVerdict, Recorded, ClientAt, Interval, Genesis, StateAt;
    var (o, a, l) := (u.offer, w.authority, w.links[id]);
    RunningFacts(o.game, Interval(o), Genesis(o), o.md.tick, a);
    front := CommandsTicked(o, a.log, id, l, intake.count, TickAdvance(0, []));
    k := if l.client.startup.phase.Live? then HeldTick(o, l) else verified;
    NothingDue(o.game, Interval(o), Genesis(o), a.log, verified);
    var due := DueReports(o.game, Interval(o), Genesis(o), a.log, verified, k);
    assert l.reports == due;
    m := if intake.reportCount <= |due| then intake.reportCount else |due|;
    assert Front(l.reports, intake.reportCount) == due[..m] && Back(l.reports, intake.reportCount) == due[m..];
    HonestInputsAccepted(o.game, front);
    verified' := HonestVerdict(o.game, Interval(o), Genesis(o), o.md.tick, a, u.policy, verified, k, front, m);
  }

  /** One broadcast tick leaves a served honest link in step with the longer log. */
  lemma TickedLinkKeeps<S>(u: Setup<S>, w: World<S>, id: u64, intake: Intake, verified: u64, advance: TickAdvance)
    returns (verified': u64)
    requires var (o, a) := (u.offer, w.authority);
      Running(o.game, Interval(o), Genesis(o), o.md.tick, a) && |a.log| < U64_MAX
    requires id in w.links && u.offer.md.tick <= verified <= |w.authority.log|
    requires |w.authority.log| - verified <= Interval(u.offer) * HISTORY_INTERVALS + 1
    requires PlayingLink(u.offer, w.authority.log, verified, id, w.links[id])
    requires From(advance.inputs, Remote(id)) == Accepted(u.offer.game, MailOf(w, id, intake).messages)
    ensures var (o, a) := (u.offer, w.authority);
      && ClientVerdict(o.game, Interval(o), u.policy, a, verified, MailOf(w, id, intake))
         == Ok(Checked(verified', Overdue(|a.log|, verified', Interval(o))))
      && PlayingLink(o, a.log + [advance], verified', id, TickedLink(w.links[id], intake, advance))
  {
    hide Running, DueReports, ClientVerdict, Recorded, ClientAt, Interval, Genesis, StateAt, Accepted, From, Ticks,
        LiveLink, StartingLink, InputsOf, MailOf, Overdue;
    var (o, a, l) := (u.offer, w.authority, w.links[id]);
    var k, m, front, v := HonestLinkJudged(u, w, id, intake, verified);
    verified' := v;
    var l' := TickedLink(l, intake, advance);
    var accepted := CommandsTicked(o, a.log, id, l, intake.count, advance);
    SameInputs(front, accepted);
    if StartingLink(o, a.log, verified, l) {
      StartingLinkTicked(o, a.log, verified, l, intake, advance);
    } else {
      LiveLinkParts(o, a.log, verified, HeldTick(o, l), l);
      LiveLinkTicked(o, a.log, verified, v, k, m, l, l', advance);
    }
  }

  lemma StartingLinkTicked<S>(u: Offer<S>, log: seq<TickAdvance>, verified: nat, l: Link<S>, intake: Intake,
      advance: TickAdvance)
    requires u.md.tick <= |log| && StartingLink(u, log, verified, l)
    ensures !l.client.startup.phase.Live?
    ensures StartingLink(u, log + [advance], verified, TickedLink(l, intake, advance))
  {
    hide Ticks;
    TicksGrow(log, advance, u.md.tick);
    Regroup([Start(u.md.tick, u.md.hash)], Ticks(log[u.md.tick..]), [Tick(advance)]);
  }

  lemma SameInputs(xs: seq<seq<byte>>, ys: seq<seq<byte>>)
    requires InputsOf(xs) == InputsOf(ys)
    ensures xs == ys
  {
    assert |xs| == |InputsOf(xs)| == |ys|;
    forall i | 0 <= i < |xs| ensures xs[i] == ys[i] {
      assert InputsOf(xs)[i] == InputsOf(ys)[i];
    }
  }

  lemma LiveLinkParts<S>(u: Offer<S>, log: seq<TickAdvance>, verified: nat, k: nat, l: Link<S>)
    requires LiveLink(u, log, verified, k, l)
    ensures l.client.startup.phase.Live? && u.md.tick <= verified <= k <= |log| <= U64_MAX
    ensures l.reports == DueReports(u.game, Interval(u), Genesis(u), log, verified, k)
  {
  }

  // ----- ... when the client takes a turn -----

  lemma {:induction false} ForwardedInputs(commands: seq<seq<byte>>)
    ensures R.Forwarded(true, commands) == InputsOf(commands)
  {
    if commands != [] {
      ForwardedInputs(commands[1..]);
      assert InputsOf(commands) == [Input(commands[0])] + InputsOf(commands[1..]);
    }
  }

  lemma TicksSplit(log: seq<TickAdvance>, k: nat, count: nat) returns (till: nat)
    requires k <= |log|
    ensures k <= till <= |log| && till - k == |Front(Ticks(log[k..]), count)|
    ensures Front(Ticks(log[k..]), count) == Ticks(log[k..till])
    ensures Back(Ticks(log[k..]), count) == Ticks(log[till..])
  {
    till := if count <= |log| - k then k + count else |log|;
    assert log[k..][..till - k] == log[k..till];
  }

  /** The authority's own failure on a recorded tick. */
  ghost predicate FailsAsRecorded<S>(u: Offer<S>, log: seq<TickAdvance>, e: R.ClientError) {
    exists k: nat :: k <= |log| && StateAt(u.game, Genesis(u), log, k).Err?
      && e == R.TickRefused(StateAt(u.game, Genesis(u), log, k).error)
  }

  /**
    What one turn comes to for a link in play. A turn can only fail because publishing failed, or on
    a tick the authority itself could not execute, with the authority's own reason.
  */
  ghost predicate TurnedWell<S>(
      u: Setup<S>, log: seq<TickAdvance>, verified: nat, id: u64, r: Result<Link<S>, R.ClientError>, publishes: bool)
    requires u.offer.md.tick <= |log|
  {
    && (r.Ok? ==> PlayingLink(u.offer, log, verified, id, r.value))
    && (r.Err? && publishes ==> FailsAsRecorded(u.offer, log, r.error))
  }

  /** The link after its client heard the first `count` messages in flight. */
  function HeardLink<S>(l: Link<S>, count: nat, heard: R.Heard<S>): Link<S> {
    l.(client := heard.client, down := Back(l.down, count), reports := l.reports + heard.reports)
  }

  /** A live replica moves along the log, or fails exactly as the authority's execution does. */
  lemma LiveHears<S>(u: Offer<S>, log: seq<TickAdvance>, verified: nat, l: Link<S>, count: nat, publishes: bool)
    requires LiveLink(u, log, verified, HeldTick(u, l), l) && u.game.tickOf(Genesis(u)) == 0
    ensures var r := R.HearAll(u.game, Interval(u), l.client, Front(l.down, count), publishes);
      && (r.Ok? ==>
            var l' := HeardLink(l, count, r.value);
            LiveLink(u, log, verified, HeldTick(u, l'), l') && l'.client == l.client.(sim := l'.client.sim))
      && (r.Err? && publishes ==> FailsAsRecorded(u, log, r.error))
  {
    hide StateAt, DueReports, R.HearAll, Interval, Genesis, Ticks;
    var k := HeldTick(u, l);
    var till := TicksSplit(log, k, count);
    HearTicks(u.game, Interval(u), Genesis(u), log, k, till, publishes, l.client);
    DueReportsJoin(u.game, Interval(u), Genesis(u), log, verified, k, till);
    if StateAt(u.game, Genesis(u), log, till).Ok? {
      StateAtTick(u.game, Genesis(u), log, till);
    }
  }

  /** Start makes a waiting replica live at exactly the authority's state. */
  lemma StartMakesLive<S>(u: Offer<S>, log: seq<TickAdvance>, verified: nat, l: Link<S>)
    requires Sound(u) && ContinuesSave(u, log)
    requires ClientAt(u, l.client, T.Total(u.save)) && StartingLink(u, log, verified, l)
    ensures var live := l.client.(startup := l.client.startup.(phase := R.Live));
      && R.BeginPlay(l.client.startup, u.md.tick, u.md.hash) == Ok(live.startup)
      && ClientAt(u, live, T.Total(u.save))
      && var l1 := l.(client := live, down := Ticks(log[u.md.tick..]));
      LiveLink(u, log, verified, HeldTick(u, l1), l1)
  {
    hide Sound, Run, T.Total, T.Delivered, Interval, Ticks, DueReports;
    OfferFacts(u);
    assert StateAt(u.game, Genesis(u), log, u.md.tick) == Ok(u.loaded.state);
    NothingDue(u.game, Interval(u), Genesis(u), log, u.md.tick);
  }

  lemma StartHeard<S>(g: Game<S>, interval: nat, c: R.Client<S>, tick: u64, hash: u64, later: seq<ServerMessage>,
      publishes: bool)
    requires interval > 0 && R.BeginPlay(c.startup, tick, hash).Ok?
    ensures var r := R.HearAll(g, interval, c, [Start(tick, hash)] + later, publishes);
      var live := c.(startup := R.BeginPlay(c.startup, tick, hash).value);
      && (publishes ==> r == R.HearAll(g, interval, live, later, publishes))
      && (r.Ok? ==> publishes)
  {
    hide R.BeginPlay;
    var live := c.(startup := R.BeginPlay(c.startup, tick, hash).value);
    var all := [Start(tick, hash)] + later;
    assert all[0] == Start(tick, hash) && all[1..] == later;
    var rest := R.HearAll(g, interval, live, later, publishes);
    if rest.Ok? {
      assert [] + rest.value.reports == rest.value.reports;
    }
  }

  /** What a link in play hears in one turn. */
  ghost predicate HeardWell<S>(
      u: Offer<S>, log: seq<TickAdvance>, verified: nat, l: Link<S>, count: nat, publishes: bool,
          r: Result<R.Heard<S>, R.ClientError>)
    requires u.md.tick <= |log|
  {
    && (r.Ok? ==>
          var l' := HeardLink(l, count, r.value);
          && ClientAt(u, l'.client, T.Total(u.save))
          && (l.client.startup.phase.Live? ==> l'.client.startup.phase.Live?)
          && (StartingLink(u, log, verified, l') || LiveLink(u, log, verified, HeldTick(u, l'), l')))
    && (r.Err? && publishes ==> FailsAsRecorded(u, log, r.error))
  }

  /** A live client stays a client at the end of its startup. */
  lemma SameStartup<S>(u: Offer<S>, c: R.Client<S>, c': R.Client<S>)
    requires ClientAt(u, c, T.Total(u.save)) && c.startup.phase.Live? && c' == c.(sim := c'.sim)
    ensures ClientAt(u, c', T.Total(u.save))
  {
    hide T.Total, T.Delivered, Midway;
  }

  lemma LiveHearsWell<S>(u: Offer<S>, log: seq<TickAdvance>, verified: nat, l: Link<S>, count: nat, publishes: bool)
    requires Sound(u) && ContinuesSave(u, log) && ClientAt(u, l.client, T.Total(u.save))
    requires LiveLink(u, log, verified, HeldTick(u, l), l)
    ensures HeardWell(u, log, verified, l, count, publishes,
      R.HearAll(u.game, Interval(u), l.client, Front(l.down, count), publishes))
  {
    hide Sound, LiveLink, StartingLink, ClientAt, R.HearAll, Interval, Genesis, T.Total, FailsAsRecorded, HeldTick;
    OfferFacts(u);
    LiveLinkParts(u, log, verified, HeldTick(u, l), l);
    LiveHears(u, log, verified, l, count, publishes);
    var r := R.HearAll(u.game, Interval(u), l.client, Front(l.down, count), publishes);
    if r.Ok? {
      SameStartup(u, l.client, r.value.client);
    }
  }

  lemma StartingHearsWell<S>(u: Offer<S>, log: seq<TickAdvance>, verified: nat, l: Link<S>, count: nat, publishes: bool)
    requires Sound(u) && ContinuesSave(u, log)
    requires ClientAt(u, l.client, T.Total(u.save)) && StartingLink(u, log, verified, l)
    ensures HeardWell(u, log, verified, l, count, publishes,
      R.HearAll(u.game, Interval(u), l.client, Front(l.down, count), publishes))
  {
    hide Sound, LiveLink, ClientAt, R.HearAll, R.BeginPlay, Interval, Genesis, Ticks, T.Total, FailsAsRecorded,
        HeldTick;
    if count == 0 {
      NothingHeard(u.game, Interval(u), l.client, publishes);
      assert l.reports + [] == l.reports;
    } else {
      StartMakesLive(u, log, verified, l);
      var start := [Start(u.md.tick, u.md.hash)];
      var ticks := Ticks(log[u.md.tick..]);
      var live := l.client.(startup := l.client.startup.(phase := R.Live));
      var l1 := l.(client := live, down := ticks);
      assert Front(l.down, count) == start + Front(ticks, count - 1);
      assert Back(l.down, count) == Back(ticks, count - 1);
      StartHeard(u.game, Interval(u), l.client, u.md.tick, u.md.hash, Front(ticks, count - 1), publishes);
      LiveHearsWell(u, log, verified, l1, count - 1, publishes);
    }
  }

  /** A turn in play: forward commands, then hear what arrived. */
  lemma PlayingTurn<S>(u: Setup<S>, l: Link<S>, intake: ClientIntake)
    requires ClientAt(u.offer, l.client, T.Total(u.offer.save)) && !R.IsLoading(l.client.startup) && l.saves == []
    ensures var heard := R.HearAll(u.offer.game, Interval(u.offer), l.client, Front(l.down, intake.downCount),
        intake.publishes);
      var r := TurnedLink(u, l, intake);
      var live := l.client.startup.phase.Live?;
      if heard.Err? then r == Err(heard.error)
      else
        && r.Ok? && r.value.saves == []
        && r.value == HeardLink(l, intake.downCount, heard.value)
             .(up := if live then l.up + InputsOf(intake.commands) else l.up,
               taken := r.value.taken, marks := r.value.marks,
               submitted := if live then l.submitted + intake.commands else l.submitted)
  {
    hide T.Total, T.Delivered, R.HearAll, R.LoadTurn, ClientAt, Interval;
    LoadedTurnIsSilent(u.offer, l.client, TurnOf(l, intake));
    ForwardedInputs(intake.commands);
    var inputs := R.Forwarded(l.client.startup.phase.Live?, intake.commands);
    assert inputs + [] == inputs && l.up + [] == l.up;
  }

  lemma SubmittedMore(recorded: seq<seq<byte>>, submitted: seq<seq<byte>>, more: seq<seq<byte>>)
    requires recorded <= submitted
    ensures recorded <= submitted + more
    ensures InputsOf(submitted[|recorded|..]) + InputsOf(more) == InputsOf((submitted + more)[|recorded|..])
  {
  }

  lemma TurnedPlayingLink<S>(u: Setup<S>, log: seq<TickAdvance>, verified: nat, id: u64, l: Link<S>,
      intake: ClientIntake)
    requires Sound(u.offer) && ContinuesSave(u.offer, log) && PlayingLink(u.offer, log, verified, id, l)
    requires forall i :: 0 <= i < |intake.commands| ==> u.offer.game.accepts(intake.commands[i])
    ensures TurnedWell(u, log, verified, id, TurnedLink(u, l, intake), intake.publishes)
  {
    hide Sound, LiveLink, R.HearAll, TurnedLink, Interval, Genesis, Ticks, T.Total, ClientAt, Recorded, FailsAsRecorded;
    var o := u.offer;
    if LiveLink(o, log, verified, HeldTick(o, l), l) {
      LiveLinkParts(o, log, verified, HeldTick(o, l), l);
    }
    PlayingTurn(u, l, intake);
    if StartingLink(o, log, verified, l) {
      StartingHearsWell(o, log, verified, l, intake.downCount, intake.publishes);
    } else {
      LiveHearsWell(o, log, verified, l, intake.downCount, intake.publishes);
    }
    var heard := R.HearAll(o.game, Interval(o), l.client, Front(l.down, intake.downCount), intake.publishes);
    if heard.Ok? {
      var (l1, l') := (HeardLink(l, intake.downCount, heard.value), TurnedLink(u, l, intake).value);
      SubmittedMore(Recorded(o, log, id), l.submitted, intake.commands);
      SameView(o, log, verified, l1, l');
    }
  }

  /** Only the client, what it is told and what it reports matter to its view of the log. */
  lemma SameView<S>(u: Offer<S>, log: seq<TickAdvance>, verified: nat, l: Link<S>, l': Link<S>)
    requires u.md.tick <= |log| && l'.client == l.client && l'.down == l.down && l'.reports == l.reports
    ensures LiveLink(u, log, verified, HeldTick(u, l), l) ==> LiveLink(u, log, verified, HeldTick(u, l'), l')
    ensures StartingLink(u, log, verified, l) && l'.submitted == l.submitted ==> StartingLink(u, log, verified, l')
  {
    hide StateAt, DueReports;
  }

  // ----- What every run keeps -----

  ghost predicate LobbyKeeps<S>(u: Setup<S>, w: World<S>) {
    && w.authority == Initially(u).authority
    && |w.peers| <= u.expected
    && (forall id :: id in w.peers ==> T.Tracked(w.peers[id], u.offer.md, u.offer.save))
    && (forall id :: id in w.links ==> id in w.peers && LoadingLink(u.offer, w.peers[id], w.links[id]))
  }

  ghost predicate LinksPlay<S>(u: Setup<S>, w: World<S>) {
    && ContinuesSave(u.offer, w.authority.log)
    && forall id :: id in w.links ==>
        id in w.authority.verified && PlayingLink(u.offer, w.authority.log, w.authority.verified[id], id, w.links[id])
  }

  ghost predicate PlayKeeps<S>(u: Setup<S>, w: World<S>) {
    var o := u.offer;
    && Running(o.game, Interval(o), Genesis(o), o.md.tick, w.authority)
    && OnTime(Interval(o), o.md.tick, w.authority)
    && |w.authority.hashes| <= HISTORY_INTERVALS + 1
    && LinksPlay(u, w)
  }

  /** After the end: a log numbered without gaps that leads the state by at most one tick. */
  ghost predicate OverKeeps<S>(u: Setup<S>, w: World<S>) {
    && LeadsByAtMostOne(u.offer.game, Genesis(u.offer), w.authority)
    && (forall i :: 0 <= i < |w.authority.log| ==> w.authority.log[i].tick == i + 1)
    && LinksPlay(u, w)
  }

  ghost predicate Keeps<S>(u: Setup<S>, w: World<S>) {
    match w.stage
    case Lobby => LobbyKeeps(u, w)
    case Play => PlayKeeps(u, w)
    case Over => OverKeeps(u, w)
  }

  lemma NewLinkLoads<S>(u: Offer<S>, now: nat)
    requires Sound(u)
    ensures LoadingLink(u, T.NewPeer(now), NewLink())
    ensures T.Tracked(T.NewPeer(now), u.md, u.save)
  {
    hide Sound, T.Total;
    OfferFacts(u);
    T.NewPeerAt(u.md, u.save, now);
    NewClientAt(u);
  }

  lemma ConnectKeeps<S>(u: Setup<S>, w: World<S>, id: u64, honest: bool, now: nat)
    requires Sound(u.offer) && w.stage == Lobby && LobbyKeeps(u, w)
    ensures LobbyKeeps(u, Connect(u, w, id, honest, now))
  {
    hide Sound, LoadingLink, T.Tracked;
    NewLinkLoads(u.offer, now);
  }

  lemma RemovedKeys<K, V>(m: map<K, V>, k: K)
    ensures |m - {k}| <= |m|
  {
    assert (m - {k}).Keys == m.Keys - {k};
    SubsetCount((m - {k}).Keys, m.Keys);
  }

  /** What the log, state and history keep does not depend on who is connected. */
  lemma ForgettingKeeps<S>(g: Game<S>, interval: nat, initial: S, start: nat, a: Authority<S>, id: u64)
    ensures var a' := a.(verified := a.verified - {id});
      && (Running(g, interval, initial, start, a) ==> Running(g, interval, initial, start, a'))
      && (OnTime(interval, start, a) ==> OnTime(interval, start, a'))
      && (LeadsByAtMostOne(g, initial, a) ==> LeadsByAtMostOne(g, initial, a'))
  {
    hide Run, Due, StateAt;
  }

  lemma LobbyLeft<S>(u: Setup<S>, w: World<S>, id: u64)
    requires LobbyKeeps(u, w)
    ensures LobbyKeeps(u, Disconnected(w, id))
  {
    hide LoadingLink, T.Tracked;
    RemovedKeys(w.peers, id);
    assert w.authority.verified - {id} == w.authority.verified;
  }

  lemma LinksLeft<S>(u: Setup<S>, w: World<S>, id: u64)
    requires LinksPlay(u, w)
    ensures LinksPlay(u, Disconnected(w, id))
  {
    hide PlayingLink, ContinuesSave;
  }

  lemma DisconnectedKeeps<S>(u: Setup<S>, w: World<S>, id: u64)
    requires Keeps(u, w)
    ensures Keeps(u, Disconnected(w, id))
  {
    hide LobbyKeeps, LinksPlay, Running, OnTime, LeadsByAtMostOne, Genesis, Interval;
    var o := u.offer;
    ForgettingKeeps(o.game, Interval(o), Genesis(o), o.md.tick, w.authority, id);
    match w.stage
    case Lobby => LobbyLeft(u, w, id);
    case _ => LinksLeft(u, w, id);
  }

  lemma ServedTracked<S>(u: Setup<S>, w: World<S>, id: u64, intake: Intake)
    requires id in w.peers && T.Tracked(w.peers[id], u.offer.md, u.offer.save)
    ensures var r := Served(u, w, id, intake);
      r.Some? ==> T.Tracked(r.value, u.offer.md, u.offer.save)
  {
    hide T.PeerAt, T.ServePeer;
    var r := Served(u, w, id, intake);
    if r.Some? {
      var acked: nat, sent: nat :| T.PeerAt(w.peers[id], u.offer.md, u.offer.save, acked, sent);
      var acked', sent' := T.RoundPays(w.peers[id], u.offer.md, u.offer.save, acked, sent, RoundOf(w, id, intake));
    }
  }

  lemma ServeAllKeeps<S>(u: Setup<S>, w: World<S>, intakes: u64 -> Intake)
    requires Sound(u.offer) && w.stage == Lobby && LobbyKeeps(u, w)
    ensures LobbyKeeps(u, ServeAll(u, w, intakes))
  {
    hide Sound, LoadingLink, T.Tracked, T.ServePeer, ServedLink, RoundOf;
    var w' := ServeAll(u, w, intakes);
    SubsetCount(w'.peers.Keys, w.peers.Keys);
    forall id | id in w'.peers
      ensures T.Tracked(w'.peers[id], u.offer.md, u.offer.save)
    {
      ServedTracked(u, w, id, intakes(id));
    }
    forall id | id in w'.links
      ensures id in w'.peers && LoadingLink(u.offer, w'.peers[id], w'.links[id])
    {
      ServedLinkKeeps(u, w, id, intakes(id));
    }
  }

  lemma {:induction false} EqualCount<X>(a: set<X>, b: set<X>)
    requires a <= b && |a| >= |b|
    ensures a == b
  {
    if a != b {
      var x :| x in b && x !in a;
      SubsetCount(a, b - {x});
    }
  }

  /** Start is only ever sent when exactly the expected peers are connected and every one of them is ready. */
  lemma BarrierHolds<S>(u: Setup<S>, w: World<S>, publishes: bool)
    requires w.stage == Lobby && LobbyKeeps(u, w)
    requires Barrier(u, w, publishes).stage != Lobby
    ensures |w.peers| == u.expected
    ensures forall id :: id in w.peers ==> w.peers[id].phase == T.Verified
    ensures Barrier(u, w, publishes).authority.verified.Keys == w.peers.Keys
  {
    hide LoadingLink, T.Tracked;
    SubsetCount(L.ReadyPeers(w.peers), w.peers.Keys);
    EqualCount(L.ReadyPeers(w.peers), w.peers.Keys);
  }

  lemma StartingRuns<S>(u: Offer<S>, verified: map<u64, u64>)
    requires Sound(u)
    requires forall id :: id in verified ==> verified[id] == u.md.tick
    ensures var a := Authority(u.loaded.state, u.loaded.records, map[], verified);
      && ContinuesSave(u, a.log)
      && Running(u.game, Interval(u), Genesis(u), u.md.tick, a) && OnTime(Interval(u), u.md.tick, a)
      && LeadsByAtMostOne(u.game, Genesis(u), a)
      && forall i :: 0 <= i < |a.log| ==> a.log[i].tick == i + 1
  {
    hide Sound, Run, Interval, ContinuesSave;
    OfferFacts(u);
    TickIsLength(u.game, Genesis(u), u.loaded.records);
    SavedRecordsExtend(u);
  }

  lemma BarrierKeeps<S>(u: Setup<S>, w: World<S>, publishes: bool)
    requires Sound(u.offer) && w.stage == Lobby && LobbyKeeps(u, w)
    ensures Keeps(u, Barrier(u, w, publishes))
  {
    hide Sound, LoadingLink, PlayingLink, T.Tracked, Running, OnTime, LeadsByAtMostOne, ContinuesSave, Genesis,
        Interval;
    var w' := Barrier(u, w, publishes);
    if w'.stage != Lobby {
      BarrierHolds(u, w, publishes);
      StartingRuns(u.offer, w'.authority.verified);
      assert u.offer.md.tick <= |w'.authority.log| by {
        ExtendsLength(u.offer, w'.authority.log);
      }
      forall id | id in w'.links
        ensures id in w'.authority.verified
        ensures PlayingLink(u.offer, w'.authority.log, w'.authority.verified[id], id, w'.links[id])
      {
        StartedLink(u.offer, w.peers[id], id, w.links[id]);
      }
    }
  }

  lemma ExtendsLength<S>(u: Offer<S>, log: seq<TickAdvance>)
    requires ContinuesSave(u, log)
    ensures u.md.tick <= |log| <= U64_MAX
  {
  }

  lemma ClientKeeps<S>(u: Setup<S>, w: World<S>, id: u64, intake: ClientIntake)
    requires Sound(u.offer) && Keeps(u, w) && id in w.links
    requires forall i :: 0 <= i < |intake.commands| ==> u.offer.game.accepts(intake.commands[i])
    ensures Keeps(u, Step(u, w, ClientIteration(id, intake)))
    ensures w.stage != Over && intake.publishes ==> TurnedLink(u, w.links[id], intake).Ok?
  {
    hide Sound, LoadingLink, PlayingLink, T.Tracked, Running, OnTime, LeadsByAtMostOne, ContinuesSave, TurnedLink,
        Genesis, Interval;
    if w.stage == Lobby {
      TurnedLoadingLink(u, w.peers[id], w.links[id], intake);
    } else {
      ExtendsLength(u.offer, w.authority.log);
      TurnedPlayingLink(u, w.authority.log, w.authority.verified[id], id, w.links[id], intake);
      if w.stage == Play {
        NoFailureWhilePlaying(u, w, TurnedLink(u, w.links[id], intake));
      }
    }
  }

  lemma NoFailureWhilePlaying<S>(u: Setup<S>, w: World<S>, r: Result<Link<S>, R.ClientError>)
    requires PlayKeeps(u, w)
    ensures r.Err? ==> !FailsAsRecorded(u.offer, w.authority.log, r.error)
  {
    hide Running, LinksPlay, StateAt;
    var (o, a) := (u.offer, w.authority);
    forall k: nat | k <= |a.log| ensures StateAt(o.game, Genesis(o), a.log, k).Ok? {
      RunningStates(o.game, Interval(o), Genesis(o), o.md.tick, a, k);
    }
  }

  /** A live iteration: links and authority move to the longer log together. */
  lemma LinksTicked<S>(u: Setup<S>, w: World<S>, order: seq<u64>, intakes: u64 -> Intake, local: seq<seq<byte>>,
      t: Live.Turn<S>)
    requires var o := u.offer;
      PlayKeeps(u, w) && NoDuplicates(order) && (forall id :: id in w.authority.verified ==> id in order)
      && TurnKeeps(o.game, Interval(o), u.policy, Genesis(o), o.md.tick, w.authority, order,
           Mails(w, order, intakes), local, t)
    requires t.sent.Some?
    ensures ContinuesSave(u.offer, t.authority.log)
    ensures forall id :: id in w.links && id in t.authority.verified ==>
      var l := TickedLink(w.links[id], intakes(id), t.sent.value);
      PlayingLink(u.offer, t.authority.log, t.authority.verified[id], id, l)
  {
    hide PlayingLink, Running, LeadsByAtMostOne, Recordable, ClientVerdict, Inputs, From, Accepted, Genesis,
        Interval, TickedLink, MailOf;
    var (o, a, advance) := (u.offer, w.authority, t.sent.value);
    assert (a.log + [advance])[..o.md.tick] == a.log[..o.md.tick];
    forall id | id in w.links && id in t.authority.verified
      ensures var l := TickedLink(w.links[id], intakes(id), advance);
        PlayingLink(o, t.authority.log, t.authority.verified[id], id, l)
    {
      TickHolds(o.game, order, Mails(w, order, intakes), a.verified.Keys, local, Remote(id));
      var verified' := TickedLinkKeeps(u, w, id, intakes(id), a.verified[id], advance);
    }
  }

  /** What the authority alone keeps through a broadcasting iteration. */
  lemma AuthorityTicked<S>(u: Setup<S>, w: World<S>, order: seq<u64>, intakes: u64 -> Intake,
      local: seq<seq<byte>>, t: Live.Turn<S>)
    requires var o := u.offer;
      PlayKeeps(u, w) && (forall id :: id in w.authority.verified ==> id in order)
      && TurnKeeps(o.game, Interval(o), u.policy, Genesis(o), o.md.tick, w.authority, order,
           Mails(w, order, intakes), local, t)
    requires t.sent.Some?
    ensures var (o, a) := (u.offer, t.authority);
      && LeadsByAtMostOne(o.game, Genesis(o), a)
      && (forall i :: 0 <= i < |a.log| ==> a.log[i].tick == i + 1)
      && (t.failure.None? ==>
            && Running(o.game, Interval(o), Genesis(o), o.md.tick, a) && OnTime(Interval(o), o.md.tick, a)
            && |a.hashes| <= HISTORY_INTERVALS + 1)
  {
    hide LinksPlay, Running, OnTime, LeadsByAtMostOne, JudgedAlone, Inputs, Recordable, Genesis, Interval, MailOf;
    RunningIsNumbered(u.offer.game, Interval(u.offer), Genesis(u.offer), u.offer.md.tick, w.authority);
  }

  lemma PlayedOn<S>(u: Setup<S>, w: World<S>, order: seq<u64>, intakes: u64 -> Intake, local: seq<seq<byte>>,
      publishes: bool)
    requires forall id :: id in w.authority.verified ==> id in order
    ensures var t := LiveTurnOf(u, w, order, intakes, local, publishes);
      var w' := PlayOn(u, w, order, intakes, local, publishes);
      if t.sent.None? then w' == w.(stage := Over)
      else
        && w'.stage == (if t.failure.None? then Play else Over) && w'.authority == t.authority
        && forall id :: id in w'.links ==>
             && id in w.links && id in t.authority.verified
             && w'.links[id] == TickedLink(w.links[id], intakes(id), t.sent.value)
  {
    hide LiveTurn, TickedLink, MailOf, Interval;
  }

  lemma LiveKeeps<S>(u: Setup<S>, w: World<S>, order: seq<u64>, intakes: u64 -> Intake, local: seq<seq<byte>>,
      publishes: bool)
    requires Sound(u.offer) && Bounded(u.offer.game) && w.stage == Play && PlayKeeps(u, w)
    requires NoDuplicates(order) && forall id :: id in w.authority.verified ==> id in order
    ensures Keeps(u, PlayOn(u, w, order, intakes, local, publishes))
  {
    hide PlayingLink, Running, OnTime, LeadsByAtMostOne, TurnKeeps, PlayOn, LiveTurn, Genesis, Interval, Sound,
        Bounded, ContinuesSave, TickedLink, MailOf, NoDuplicates;
    var (o, a) := (u.offer, w.authority);
    var mails := Mails(w, order, intakes);
    LiveTurnKeeps(o.game, Interval(o), u.policy, Genesis(o), o.md.tick, a, order, mails, local, publishes);
    var t := LiveTurn(o.game, Interval(o), u.policy, a, order, mails, local, publishes);
    PlayedOn(u, w, order, intakes, local, publishes);
    if t.sent.None? {
      RunningIsNumbered(o.game, Interval(o), Genesis(o), o.md.tick, a);
    } else {
      LinksTicked(u, w, order, intakes, local, t);
      AuthorityTicked(u, w, order, intakes, local, t);
    }
  }

  lemma RunningIsNumbered<S>(g: Game<S>, interval: nat, initial: S, start: nat, a: Authority<S>)
    requires Running(g, interval, initial, start, a)
    ensures LeadsByAtMostOne(g, initial, a)
    ensures forall i :: 0 <= i < |a.log| ==> a.log[i].tick == i + 1
  {
    hide Run, Due, StateAt;
    TickIsLength(g, initial, a.log);
  }

  lemma TimePasses<S>(u: Setup<S>, w: World<S>, until: nat)
    requires Keeps(u, w)
    ensures Keeps(u, w.(clock := until))
  {
    hide Running, OnTime, LeadsByAtMostOne, PlayingLink, LoadingLink, T.Tracked, ContinuesSave;
  }

  lemma KeepsByStage<S>(u: Setup<S>, w: World<S>)
    requires match w.stage
             case Lobby => LobbyKeeps(u, w)
             case Play => PlayKeeps(u, w)
             case Over => OverKeeps(u, w)
    ensures Keeps(u, w)
  {
    hide LobbyKeeps, PlayKeeps, OverKeeps;
  }

  lemma StepKeeps<S>(u: Setup<S>, w: World<S>, e: Event)
    requires Sound(u.offer) && Bounded(u.offer.game) && Keeps(u, w) && Possible(u, w, e)
    ensures Keeps(u, Step(u, w, e))
  {
    hide Sound, Bounded, LobbyKeeps, PlayKeeps, OverKeeps, Connect, Disconnected, ServeAll, Barrier, PlayOn,
        TurnedLink, Interval;
    match e
    case Join(id, honest, now) =>
      if w.stage == Lobby {
        ConnectKeeps(u, w, id, honest, now);
      }
      ConnectStays(u, w, id, honest, now);
      assert Keeps(u, Connect(u, w, id, honest, now)) by {
        KeepsByStage(u, Connect(u, w, id, honest, now));
      }
      TimePasses(u, Connect(u, w, id, honest, now), now);
    case Leave(id) => DisconnectedKeeps(u, w, id);
    case WaitIteration(until, intakes, publishes) =>
      if w.stage == Lobby {
        ServeAllKeeps(u, w, intakes);
        ServeAllStays(u, w, intakes);
        BarrierKeeps(u, ServeAll(u, w, intakes), publishes);
        TimePasses(u, Barrier(u, ServeAll(u, w, intakes), publishes), until);
      }
    case ClientIteration(id, intake) =>
      if id in w.links {
        ClientKeeps(u, w, id, intake);
      }
    case LiveIteration(order, intakes, local, publishes) =>
      if w.stage == Play {
        LiveKeeps(u, w, order, intakes, local, publishes);
      }
  }

  lemma ConnectStays<S>(u: Setup<S>, w: World<S>, id: u64, honest: bool, now: nat)
    ensures Connect(u, w, id, honest, now).stage == w.stage
    ensures w.stage != Lobby ==> Connect(u, w, id, honest, now) == w
  {
  }

  lemma ServeAllStays<S>(u: Setup<S>, w: World<S>, intakes: u64 -> Intake)
    ensures ServeAll(u, w, intakes).stage == w.stage
  {
    hide L.ServedPeers, ServedLink;
  }

  /** Every run of the session keeps all of it, whatever the other clients send and however messages are delayed. */
  lemma {:induction false} EveryRunKeeps<S>(u: Setup<S>, events: seq<Event>)
    requires Sound(u.offer) && Bounded(u.offer.game) && PossibleRun(u, events)
    ensures Keeps(u, After(u, events))
    decreases |events|
  {
    hide Sound, Bounded, Step, Possible, Keeps;
    if events == [] {
      assert Keeps(u, Initially(u)) by {
        InitialWorldKeeps(u);
      }
    } else {
      var earlier := events[..|events| - 1];
      EveryRunKeeps(u, earlier);
      StepKeeps(u, After(u, earlier), events[|events| - 1]);
    }
  }

  lemma InitialWorldKeeps<S>(u: Setup<S>)
    ensures Keeps(u, Initially(u))
  {
  }

  // ----- What that means -----

  /**
    Replica agreement: whenever an honest client is live, it holds exactly the state that the
    authority's first `k` records come to; what is in flight to it are exactly the records from
    `k + 1` on, numbered without a gap; and once nothing is in flight it is in the authority's state.
  */
  lemma ReplicasAgree<S>(u: Setup<S>, events: seq<Event>, id: u64)
    requires Sound(u.offer) && Bounded(u.offer.game) && PossibleRun(u, events)
    requires id in After(u, events).links && After(u, events).links[id].client.startup.phase.Live?
    ensures var w := After(u, events);
      var (o, log, l) := (u.offer, w.authority.log, w.links[id]);
      var k := HeldTick(o, l);
      && w.stage != Lobby && o.md.tick <= k <= |log| && log[..o.md.tick] == o.loaded.records
      && l.client.sim.Some? && Run(o.game, Genesis(o), log[..k]) == Ok(l.client.sim.value)
      && l.down == Ticks(log[k..])
      && (forall i :: 0 <= i < |l.down| ==> l.down[i].Tick? && l.down[i].advance.tick == k + 1 + i)
      && (w.stage == Play && l.down == [] ==> l.client.sim.value == w.authority.state)
  {
    hide After, Keeps, Sound, Bounded, Run, Interval;
    EveryRunKeeps(u, events);
    AgreesInWorld(u, After(u, events), id);
  }

  lemma AgreesInWorld<S>(u: Setup<S>, w: World<S>, id: u64)
    requires Keeps(u, w) && id in w.links && w.links[id].client.startup.phase.Live?
    ensures var (o, log, l) := (u.offer, w.authority.log, w.links[id]);
      var k := HeldTick(o, l);
      && w.stage != Lobby && ContinuesSave(o, log) && k <= |log| && o.md.tick <= k
      && l.client.sim.Some? && StateAt(o.game, Genesis(o), log, k) == Ok(l.client.sim.value)
      && l.down == Ticks(log[k..])
      && (forall i :: 0 <= i < |l.down| ==> l.down[i].Tick? && l.down[i].advance.tick == k + 1 + i)
      && (w.stage == Play && l.down == [] ==> l.client.sim.value == w.authority.state)
  {
    hide Running, OnTime, LeadsByAtMostOne, ClientAt, StateAt, DueReports, Recorded, Genesis, Interval, T.PeerAt;
    var (o, a, l) := (u.offer, w.authority, w.links[id]);
    if w.stage == Play {
      RunningIsNumbered(o.game, Interval(o), Genesis(o), o.md.tick, a);
      RunningFacts(o.game, Interval(o), Genesis(o), o.md.tick, a);
    }
  }

  /** The authority itself, in every run: a fold of its log, a bounded history, and no one left unverified for long. */
  lemma AuthorityStaysVerified<S>(u: Setup<S>, events: seq<Event>)
    requires Sound(u.offer) && Bounded(u.offer.game) && PossibleRun(u, events)
    ensures var w := After(u, events);
      var (o, a) := (u.offer, w.authority);
      && (w.stage == Play ==>
            && Run(o.game, Genesis(o), a.log) == Ok(a.state)
            && |a.hashes| <= HISTORY_INTERVALS + 1
            && forall id :: id in a.verified ==>
                 o.md.tick <= a.verified[id] <= |a.log| <= a.verified[id] + Interval(o) * HISTORY_INTERVALS + 1)
      && (w.stage == Over ==> LeadsByAtMostOne(o.game, Genesis(o), a))
  {
    hide After, Sound, Bounded, LinksPlay, Run, Due, StateAt, Genesis, Interval;
    EveryRunKeeps(u, events);
  }

  /**
    The startup window of every client, honest or not, in every run: what is reserved for it is what
    the messages sent and not yet acknowledged take in whole slices, and that is at most 4 MiB.
  */
  lemma WindowsStayBounded<S>(u: Setup<S>, events: seq<Event>, id: u64)
    returns (acked: nat, sent: nat)
    requires Sound(u.offer) && Bounded(u.offer.game) && PossibleRun(u, events)
    requires After(u, events).stage == Lobby && id in After(u, events).peers
    ensures |After(u, events).peers| <= u.expected
    ensures var (p, md, save) := (After(u, events).peers[id], u.offer.md, u.offer.save);
      && acked <= sent <= T.Total(save)
      && p.received == T.Delivered(save, acked) && p.offset == T.Delivered(save, sent)
      && p.memory == T.Reserved(T.Slice(md, save, acked, sent)) <= 0x40_0000
  {
    hide After, Sound, Bounded, LoadingLink, T.Reserved, T.Slice, T.Window, T.TotalCost;
    EveryRunKeeps(u, events);
    var p := After(u, events).peers[id];
    acked, sent :| T.PeerAt(p, u.offer.md, u.offer.save, acked, sent);
    T.WindowFits(p, u.offer.md, u.offer.save, acked, sent);
  }

  /** What an honest client has not yet taken of its save never needs more than 4 MiB of its channel. */
  lemma ReceiversStayBounded<S>(u: Setup<S>, events: seq<Event>, id: u64)
    requires Sound(u.offer) && Bounded(u.offer.game) && PossibleRun(u, events)
    requires After(u, events).stage == Lobby && id in After(u, events).links
    ensures T.Reserved(After(u, events).links[id].saves) <= 0x40_0000
  {
    hide After, Sound, Bounded, T.Tracked, LoadingLink;
    EveryRunKeeps(u, events);
    LinkFits(u.offer, After(u, events).peers[id], After(u, events).links[id]);
  }

  lemma LinkFits<S>(u: Offer<S>, p: T.Peer, l: Link<S>)
    requires LoadingLink(u, p, l)
    ensures T.Reserved(l.saves) <= 0x40_0000
  {
    hide T.PeerAt, T.Reserved, T.Slice, T.Total, Growing;
    var acked := T.AckedNow(p, l.given);
    T.WindowFits(p, u.md, u.save, acked, l.given);
    if p.phase == T.Verified {
      AckedWithinTaken(u, p, l);
    } else {
      GrowingBounds(u, l.up[..|l.marks|], l.marks, (acked, p.replayed), (l.taken, l.client.reported.1));
    }
    T.LessIsReserved(u.md, u.save, acked, l.taken, l.given);
  }

  /** The whole save was taken by a client that is known to be ready. */
  lemma AckedWithinTaken<S>(u: Offer<S>, p: T.Peer, l: Link<S>)
    requires LoadingLink(u, p, l) && p.phase == T.Verified
    ensures T.AckedNow(p, l.given) <= l.taken
  {
    hide T.Slice, T.Window, T.Total;
  }

  /** An honest client gives up only if its own publication hook fails or the session is over. */
  lemma HonestClientNeverFails<S>(u: Setup<S>, events: seq<Event>, id: u64, intake: ClientIntake)
    requires Sound(u.offer) && Bounded(u.offer.game) && PossibleRun(u, events)
    requires Possible(u, After(u, events), ClientIteration(id, intake))
    requires id in After(u, events).links && intake.publishes && After(u, events).stage != Over
    ensures TurnedLink(u, After(u, events).links[id], intake).Ok?
  {
    hide After, Sound, Bounded, Keeps, TurnedLink;
    EveryRunKeeps(u, events);
    ClientKeeps(u, After(u, events), id, intake);
  }

  /** During startup an honest client is disconnected only for silence, never for what it sent. */
  lemma HonestPeerNeverRefused<S>(u: Setup<S>, events: seq<Event>, id: u64, intake: Intake)
    requires Sound(u.offer) && Bounded(u.offer.game) && PossibleRun(u, events)
    requires After(u, events).stage == Lobby && id in After(u, events).links
    ensures var w := After(u, events);
      && id in w.peers
      && var pumped := T.Pump(w.peers[id], u.offer.save, u.offer.md, intake.grants).peer;
      var received := T.ReceiveAll(pumped, RoundOf(w, id, intake).arrivals, u.offer.md, intake.now);
      && received.Some? && !RoundOf(w, id, intake).hashReport
      && (Served(u, w, id, intake).None? <==>
            received.value.phase != T.Verified && intake.now >= received.value.lastProgress + 30_000_000_000)
  {
    hide After, Sound, Bounded, T.Pump, T.ReceiveAll, T.PeerAt, ClientAt, Growing;
    EveryRunKeeps(u, events);
    ServedLinkKeeps(u, After(u, events), id, intake);
  }

  /** In play an honest client is disconnected only by the verification deadline, and its reports never disagree. */
  lemma HonestPlayerNeverRefused<S>(u: Setup<S>, events: seq<Event>, id: u64, intake: Intake)
    requires Sound(u.offer) && Bounded(u.offer.game) && PossibleRun(u, events)
    requires After(u, events).stage == Play && id in After(u, events).links
    ensures var w := After(u, events);
      && id in w.authority.verified
      && var verdict := ClientVerdict(u.offer.game, Interval(u.offer), u.policy, w.authority,
          w.authority.verified[id], MailOf(w, id, intake));
      && verdict.Ok?
      && (verdict.value.dropped <==> |w.authority.log| > verdict.value.verified + 10 * Interval(u.offer))
  {
    hide After, Keeps, ClientVerdict, MailOf, Interval;
    EveryRunKeeps(u, events);
    assert PlayKeeps(u, After(u, events)) by {
      KeepsInPlay(u, After(u, events));
    }
    PlayerNeverRefused(u, After(u, events), id, intake);
  }

  lemma KeepsInPlay<S>(u: Setup<S>, w: World<S>)
    requires Keeps(u, w) && w.stage == Play
    ensures PlayKeeps(u, w)
  {
    hide PlayKeeps;
  }

  lemma PlayerNeverRefused<S>(u: Setup<S>, w: World<S>, id: u64, intake: Intake)
    requires PlayKeeps(u, w) && id in w.links
    ensures id in w.authority.verified
    ensures var verdict := ClientVerdict(u.offer.game, Interval(u.offer), u.policy, w.authority,
        w.authority.verified[id], MailOf(w, id, intake));
      && verdict.Ok?
      && (verdict.value.dropped <==> Overdue(|w.authority.log|, verdict.value.verified, Interval(u.offer)))
  {
    hide Running, PlayingLink, ClientVerdict, MailOf, Genesis, Interval;
    var k, m, front, verified' := HonestLinkJudged(u, w, id, intake, w.authority.verified[id]);
  }

  /** A desync always has a culprit: a client whose own reports do not verify. */
  lemma {:induction false} DesyncHasCulprit<S>(
      g: Game<S>, interval: nat, policy: Policy, a: Authority<S>, order: seq<u64>, mails: map<u64, Mail>, so: Gathered)
    returns (culprit: u64)
    requires interval > 0 && NoDuplicates(order)
    requires forall id :: id in order ==> id in mails
    requires ServeClients(g, interval, policy, a, order, mails, so) == Err(Desynced)
    ensures culprit in order && culprit in so.verified
    ensures ClientVerdict(g, interval, policy, a, so.verified[culprit], mails[culprit]).Err?
    decreases |order|
  {
    hide CheckReports, TakeCommands;
    var (id, rest) := (order[0], order[1..]);
    assert forall x :: x in rest ==> x in order && x != id;
    if id !in so.verified {
      culprit := DesyncHasCulprit(g, interval, policy, a, rest, mails, so);
    } else {
      var served := ServeClient(g, interval, policy, a, id, mails[id], so);
      if served.Err? {
        TakingNeverDesyncs(g, id, mails[id].messages, so.inputs);
        culprit := id;
      } else {
        culprit := DesyncHasCulprit(g, interval, policy, a, rest, mails, served.value);
      }
    }
  }

  lemma {:induction false} TakingNeverDesyncs<S>(g: Game<S>, id: u64, messages: seq<Option<ClientMessage>>,
      inputs: seq<Command>)
    ensures TakeCommands(g, id, messages, inputs) != Err(Desynced)
    decreases |messages|
  {
    if messages != [] && messages[0].Some? && messages[0].value.Input? {
      TakingNeverDesyncs(g, id, messages[1..], inputs + [Command(Remote(id), messages[0].value.payload)]);
    }
  }

  lemma {:induction false} LocalNeverDesyncs<S>(g: Game<S>, local: seq<seq<byte>>, inputs: seq<Command>)
    ensures TakeLocal(g, local, inputs) != Err(Desynced)
    decreases |local|
  {
    if local != [] {
      LocalNeverDesyncs(g, local[1..], inputs + [Command(Host, local[0])]);
    }
  }

  /** The iteration fails with a desync only over some connected client's own reports. */
  lemma DesyncedTurn<S>(g: Game<S>, interval: nat, policy: Policy, a: Authority<S>, order: seq<u64>,
      mails: map<u64, Mail>, local: seq<seq<byte>>, publishes: bool)
    returns (culprit: u64)
    requires interval > 0 && NoDuplicates(order)
    requires forall id :: id in order ==> id in mails
    requires LiveTurn(g, interval, policy, a, order, mails, local, publishes).failure == Some(Desynced)
    ensures culprit in order && culprit in a.verified
    ensures ClientVerdict(g, interval, policy, a, a.verified[culprit], mails[culprit]).Err?
  {
    hide ClientVerdict, ServeClients, TakeLocal, Execute;
    var nothing := Gathered([], a.verified, {});
    var remote := ServeClients(g, interval, policy, a, order, mails, nothing);
    if remote == Err(Desynced) {
      culprit := DesyncHasCulprit(g, interval, policy, a, order, mails, nothing);
    } else if remote.Ok? {
      LocalNeverDesyncs(g, local, remote.value.inputs);
      var so := Gather(g, interval, policy, a, order, mails, local);
      if so.Ok? {
        ExecuteNeverDesyncs(g, interval, a, so.value, publishes);
      }
    }
  }

  /** A retained fingerprint is that of the state the log comes to at its tick. */
  lemma ContradictedState<S>(g: Game<S>, interval: nat, initial: S, start: nat, a: Authority<S>, report: Report)
    requires Running(g, interval, initial, start, a) && Contradicts(report, |a.log|, a.hashes, interval)
    ensures start <= report.tick <= |a.log| && StateAt(g, initial, a.log, report.tick).Ok?
    ensures g.hashOf(StateAt(g, initial, a.log, report.tick).value) != report.hash
  {
    hide Run;
    DueInRange(report.tick, start, |a.log|, interval);
  }

  /**
    In every run, whatever the mix of clients, a session that ends with a desync was told a falsehood
    by a client that is not honest: under fail-fast, a connected client outside `links` reported, for
    a tick of this session, a fingerprint other than that of the state the log comes to there.
  */
  lemma DesyncHasALiar<S>(
      u: Setup<S>, events: seq<Event>, order: seq<u64>, intakes: u64 -> Intake, local: seq<seq<byte>>, publishes: bool)
    returns (liar: u64, report: Report)
    requires Sound(u.offer) && Bounded(u.offer.game) && PossibleRun(u, events)
    requires After(u, events).stage == Play && NoDuplicates(order)
    requires LiveTurnOf(u, After(u, events), order, intakes, local, publishes).failure == Some(Desynced)
    ensures u.policy == FailFast
    ensures var w := After(u, events);
      && liar in order && liar in w.authority.verified && liar !in w.links
      && Some(report) in intakes(liar).reports
    ensures var (o, log) := (u.offer, After(u, events).authority.log);
      && o.md.tick <= report.tick <= |log| && StateAt(o.game, Genesis(o), log, report.tick).Ok?
      && o.game.hashOf(StateAt(o.game, Genesis(o), log, report.tick).value) != report.hash
  {
    hide After, Sound, Bounded, LinksPlay, OnTime, CheckReports, LiveTurn, Running, Genesis, Interval, StateAt,
        PlayingLink;
    EveryRunKeeps(u, events);
    KeepsInPlay(u, After(u, events));
    var (w, o) := (After(u, events), u.offer);
    RunningFacts(o.game, Interval(o), Genesis(o), o.md.tick, w.authority);
    StateTick(o.game, Interval(o), Genesis(o), o.md.tick, w.authority);
    liar := DesyncedTurn(o.game, Interval(o), u.policy, w.authority, order, Mails(w, order, intakes), local, publishes);
    if liar in w.links {
      PlayerNeverRefused(u, w, liar, intakes(liar));
      assert false;
    }
    var reports := intakes(liar).reports;
    DesyncIsAContradiction(reports, |w.authority.log|, Checked(w.authority.verified[liar], false), w.authority.hashes,
      u.policy, Interval(o));
    var i :| 0 <= i < |reports| && reports[i].Some?
      && Contradicts(reports[i].value, |w.authority.log|, w.authority.hashes, Interval(o));
    report := reports[i].value;
    ContradictedState(o.game, Interval(o), Genesis(o), o.md.tick, w.authority, report);
  }

  /** In particular, fail-fast never ends a session whose connected clients are all honest. */
  lemma HonestSessionNeverDesyncs<S>(
      u: Setup<S>, events: seq<Event>, order: seq<u64>, intakes: u64 -> Intake, local: seq<seq<byte>>, publishes: bool)
    requires Sound(u.offer) && Bounded(u.offer.game) && PossibleRun(u, events)
    requires After(u, events).stage == Play && NoDuplicates(order)
    requires After(u, events).authority.verified.Keys <= After(u, events).links.Keys
    ensures LiveTurnOf(u, After(u, events), order, intakes, local, publishes).failure != Some(Desynced)
  {
    hide After, Sound, Bounded, LiveTurn, MailOf, Interval;
    if LiveTurnOf(u, After(u, events), order, intakes, local, publishes).failure == Some(Desynced) {
      var liar, report := DesyncHasALiar(u, events, order, intakes, local, publishes);
      assert false;
    }
  }

  lemma ExecuteNeverDesyncs<S>(g: Game<S>, interval: nat, a: Authority<S>, so: Gathered, publishes: bool)
    requires interval > 0
    ensures Execute(g, interval, a, so, publishes).failure != Some(Desynced)
  {
    hide Encode, Remember, AdvanceTick;
  }

  /**
    The startup barrier, in every run: when Start goes out, exactly the expected peers are connected
    and every one of them is ready; and each honest one already holds the authority's very state,
    having replayed the whole save.
  */
  lemma StartBarrier<S>(u: Setup<S>, events: seq<Event>, until: nat, intakes: u64 -> Intake, publishes: bool)
    requires Sound(u.offer) && Bounded(u.offer.game) && PossibleRun(u, events)
    requires After(u, events).stage == Lobby
    requires Step(u, After(u, events), WaitIteration(until, intakes, publishes)).stage != Lobby
    ensures var served := ServeAll(u, After(u, events), intakes);
      var w := Step(u, After(u, events), WaitIteration(until, intakes, publishes));
      && |served.peers| == u.expected
      && (forall id :: id in served.peers ==> served.peers[id].phase == T.Verified)
      && w.authority.verified.Keys == served.peers.Keys
      && w.authority.state == u.offer.loaded.state && w.authority.log == u.offer.loaded.records
      && (forall id :: id in w.links ==>
            && w.links[id].client.startup.phase.AwaitingStart?
            && w.links[id].client.sim == Some(w.authority.state)
            && w.links[id].down == [Start(u.offer.md.tick, u.offer.md.hash)])
  {
    hide After, Sound, Bounded, ServeAll, Barrier, LobbyKeeps, Genesis, Interval;
    var w := After(u, events);
    EveryRunKeeps(u, events);
    ServeAllKeeps(u, w, intakes);
    ServeAllStays(u, w, intakes);
    assert Step(u, w, WaitIteration(until, intakes, publishes))
        == Barrier(u, ServeAll(u, w, intakes), publishes).(clock := until);
    BarrierHolds(u, ServeAll(u, w, intakes), publishes);
    BarrierLinks(u, ServeAll(u, w, intakes), publishes);
  }

  /** Start goes out exactly when as many peers as expected are connected and every one of them is ready. */
  lemma StartExactly<S>(u: Setup<S>, events: seq<Event>, until: nat, intakes: u64 -> Intake, publishes: bool)
    requires Sound(u.offer) && Bounded(u.offer.game) && PossibleRun(u, events)
    requires After(u, events).stage == Lobby
    ensures var served := ServeAll(u, After(u, events), intakes);
      var stage := Step(u, After(u, events), WaitIteration(until, intakes, publishes)).stage;
      && (stage != Lobby <==>
            |served.peers| == u.expected && forall id :: id in served.peers ==> served.peers[id].phase == T.Verified)
      && (stage == Play ==> publishes) && (stage == Over ==> !publishes)
  {
    hide After, Sound, Bounded, ServeAll, LobbyKeeps, Genesis, Interval;
    EveryRunKeeps(u, events);
    var served := ServeAll(u, After(u, events), intakes);
    ServeAllKeeps(u, After(u, events), intakes);
    ServeAllStays(u, After(u, events), intakes);
    if Barrier(u, served, publishes).stage != Lobby {
      BarrierHolds(u, served, publishes);
    }
    if forall id :: id in served.peers ==> served.peers[id].phase == T.Verified {
      assert L.ReadyPeers(served.peers) == served.peers.Keys;
    }
  }

  lemma BarrierLinks<S>(u: Setup<S>, w: World<S>, publishes: bool)
    requires w.stage == Lobby && LobbyKeeps(u, w)
    requires Barrier(u, w, publishes).stage != Lobby
    ensures var w' := Barrier(u, w, publishes);
      && w'.authority.state == u.offer.loaded.state && w'.authority.log == u.offer.loaded.records
      && forall id :: id in w'.links ==>
          && w'.links[id].client.startup.phase.AwaitingStart?
          && w'.links[id].client.sim == Some(w'.authority.state)
          && w'.links[id].down == [Start(u.offer.md.tick, u.offer.md.hash)]
  {
    hide LoadingLink, T.Tracked;
    BarrierHolds(u, w, publishes);
    forall id | id in w.links
      ensures w.links[id].client.startup.phase.AwaitingStart? && w.links[id].client.sim == Some(u.offer.loaded.state)
      ensures w.links[id].down == []
    {
      VerifiedLink(u.offer, w.peers[id], w.links[id]);
    }
  }

  lemma VerifiedLink<S>(u: Offer<S>, p: T.Peer, l: Link<S>)
    requires LoadingLink(u, p, l) && p.phase == T.Verified
    ensures l.client.startup.phase.AwaitingStart? && l.client.sim == Some(u.loaded.state) && l.down == []
  {
    hide T.PeerAt, T.Slice, T.Total, T.Delivered;
  }

  /**
    Command conservation, in every run: what the log records from an honest client since Start,
    followed by what is still in flight, is exactly what it submitted, in order; nothing from before
    Start is among it, because everything up to Start's tick is the save.
  */
  lemma CommandsAreConserved<S>(u: Setup<S>, events: seq<Event>, id: u64)
    requires Sound(u.offer) && Bounded(u.offer.game) && PossibleRun(u, events)
    requires After(u, events).stage != Lobby && id in After(u, events).links
    ensures var (log, l) := (After(u, events).authority.log, After(u, events).links[id]);
      && u.offer.md.tick <= |log| && log[..u.offer.md.tick] == u.offer.loaded.records
      && exists pending :: l.up == InputsOf(pending) && Recorded(u.offer, log, id) + pending == l.submitted
  {
    hide After, Sound, Bounded, Running, OnTime, LeadsByAtMostOne, ClientAt, StartingLink, LiveLink, Recorded;
    EveryRunKeeps(u, events);
    var (log, l) := (After(u, events).authority.log, After(u, events).links[id]);
    var pending := l.submitted[|Recorded(u.offer, log, id)|..];
    assert Recorded(u.offer, log, id) + pending == l.submitted;
  }

  lemma {:induction false} CarriedSlice(md: SaveMetadata, save: seq<byte>, a: nat, b: nat)
    requires a <= b <= T.Total(save)
    ensures T.Delivered(save, a) <= T.Delivered(save, b) <= |save|
    ensures T.Carried(T.Slice(md, save, a, b)) == save[T.Delivered(save, a)..T.Delivered(save, b)]
    decreases b - a
  {
    hide T.Total, T.Delivered, T.Nth, T.Slice, T.Carried;
    T.DeliveredIncreases(save, a, b);
    T.SliceSteps(md, save, a, b);
    T.NothingSent(md, save, a);
    T.CarriedCons(T.Nth(md, save, a), if a < b then T.Slice(md, save, a + 1, b) else []);
    if a < b {
      CarriedSlice(md, save, a + 1, b);
      if a == 0 {
        BeginCarriesNothing(md, save);
      } else {
        NextChunk(md, save, a);
        SlicesJoin(save, T.Delivered(save, a), T.Delivered(save, a + 1), T.Delivered(save, b));
      }
    }
  }

  lemma BeginCarriesNothing(md: SaveMetadata, save: seq<byte>)
    ensures T.Nth(md, save, 0).Begin? && T.Delivered(save, 0) == T.Delivered(save, 1) == 0
  {
  }

  /**
    Transfer refinement, in every run: the bytes a receiving client holds, followed by those in
    flight to it, are exactly the save up to its peer's offset.
  */
  lemma TransferRefines<S>(u: Setup<S>, events: seq<Event>, id: u64)
    requires Sound(u.offer) && Bounded(u.offer.game) && PossibleRun(u, events)
    requires After(u, events).stage == Lobby && id in After(u, events).links
    requires After(u, events).links[id].client.startup.phase.Receiving?
    ensures var w := After(u, events);
      && id in w.peers && w.peers[id].offset <= |u.offer.save|
      && w.links[id].client.startup.phase.bytes + T.Carried(w.links[id].saves) == u.offer.save[..w.peers[id].offset]
  {
    hide After, Sound, Bounded, T.Tracked, LoadingLink;
    EveryRunKeeps(u, events);
    LoadingLinkRefines(u.offer, After(u, events).peers[id], After(u, events).links[id]);
  }

  lemma LoadingLinkRefines<S>(u: Offer<S>, p: T.Peer, l: Link<S>)
    requires LoadingLink(u, p, l) && l.client.startup.phase.Receiving?
    ensures p.offset <= |u.save| && l.client.startup.phase.bytes + T.Carried(l.saves) == u.save[..p.offset]
  {
    hide Growing, T.Slice, T.Window, T.Cost, T.End, T.Total, T.Delivered;
    PeerCounts(p, u.md, u.save, T.AckedNow(p, l.given), l.given);
    CarriedSlice(u.md, u.save, l.taken, l.given);
    SlicesJoin(u.save, 0, T.Delivered(u.save, l.taken), T.Delivered(u.save, l.given));
  }

  lemma PeerCounts(p: T.Peer, md: SaveMetadata, save: seq<byte>, acked: nat, given: nat)
    requires T.PeerAt(p, md, save, acked, given)
    ensures given <= T.Total(save) && p.offset == T.Delivered(save, given)
  {
  }

  /** What a recording of the session holds. */
  function Recording<S>(u: Setup<S>, w: World<S>): seq<byte> {
    EncodeHeader(u.offer.loaded.header) + Frames(w.authority.log)
  }

  /**
    A recording of the session, loaded again, is a session that never stopped: whenever the log runs,
    its bytes mean the same header, the whole log and exactly the authority's state. It cannot be
    loaded exactly when the session ended on a tick that was recorded but could not be executed.
  */
  lemma RecordingReplays<S>(u: Setup<S>, events: seq<Event>)
    requires Sound(u.offer) && Bounded(u.offer.game) && PossibleRun(u, events)
    ensures var (o, w) := (u.offer, After(u, events));
      var meaning := Meaning(o.game, Recording(u, w));
      && (meaning.Some? <==> Run(o.game, Genesis(o), w.authority.log).Ok?)
      && (meaning.Some? ==> meaning.value == Saves.Loaded(o.loaded.header, w.authority.log, w.authority.state))
      && (w.stage != Over ==> meaning.Some?)
  {
    hide After, Bounded, Run, Interval, ReadHeader, EncodeHeader, Parse, ContinuesSave, Recordable;
    EveryRunKeeps(u, events);
    var (o, a) := (u.offer, After(u, events).authority);
    OfferFacts(o);
    SaveFacts(o);
    AuthorityLeads(u, After(u, events));
    assert AllRecordable(a.log) by {
      ExtendsRecordably(o, a.log);
    }
    WrittenMeaning(o.game, o.loaded.header, a.log);
  }

  lemma ExtendsRecordably<S>(u: Offer<S>, log: seq<TickAdvance>)
    requires ContinuesSave(u, log)
    ensures AllRecordable(log)
  {
  }

  /** In every stage the log begins with the save and leads the state by at most one record. */
  lemma AuthorityLeads<S>(u: Setup<S>, w: World<S>)
    requires Sound(u.offer) && Keeps(u, w)
    ensures ContinuesSave(u.offer, w.authority.log) && LeadsByAtMostOne(u.offer.game, Genesis(u.offer), w.authority)
    ensures w.stage != Over ==> Run(u.offer.game, Genesis(u.offer), w.authority.log) == Ok(w.authority.state)
  {
    hide Sound, PlayingLink, LoadingLink, OnTime, Due, StateAt, Run, ContinuesSave, Interval, Genesis;
    if w.stage == Lobby {
      OfferFacts(u.offer);
      SavedRecordsExtend(u.offer);
    }
  }
}

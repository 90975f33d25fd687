/**
  What the authority's log and its verification entries stand for, over whole runs and for every
  participant, honest or not (crates/synctick/src/run_server.rs:345-411, 426-490).
*/
module Ledger {
  import opened Bytes
  import opened Envelope
  import opened ReplayLog
  import opened Simulation
  import opened Live
  import opened Loading
  import L = Lobby
  import T = Transfer
  import opened Session

  // ----- Every recorded command was accepted, and every accepted command is recorded -----

  /** The iteration that `e` is, had it been made in `w`. */
  function TurnIn<S>(u: Setup<S>, w: World<S>, e: Event): Live.Turn<S>
    requires e.LiveIteration?
  {
    LiveTurnOf(u, w, e.order, e.intakes, e.local, e.publishes)
  }

  predicate Broadcasts<S>(u: Setup<S>, w: World<S>, e: Event) {
    e.LiveIteration? && w.stage == Play && TurnIn(u, w, e).sent.Some?
  }

  /** What a broadcasting iteration accepts: all of the host's commands, a served client's acceptable front. */
  function AcceptedIn<S>(u: Setup<S>, w: World<S>, e: Event, p: Participant): seq<seq<byte>> {
    if !Broadcasts(u, w, e) then []
    else
      match p
      case Host => e.local
      case Remote(id) =>
        if id in w.authority.verified then Accepted(u.offer.game, MailOf(w, id, e.intakes(id)).messages) else []
  }

  function AcceptedOver<S>(u: Setup<S>, events: seq<Event>, p: Participant): seq<seq<byte>>
    decreases |events|
  {
    if events == [] then []
    else
      var earlier := events[..|events| - 1];
      AcceptedOver(u, earlier, p) + AcceptedIn(u, After(u, earlier), events[|events| - 1], p)
  }

  /** One participant's recorded commands since Start. */
  function RecordedFrom<S>(u: Setup<S>, w: World<S>, p: Participant): seq<seq<byte>>
    requires u.offer.md.tick <= |w.authority.log|
  {
    Logged(w.authority.log[u.offer.md.tick..], p)
  }

  lemma LogCoversSave<S>(u: Setup<S>, w: World<S>)
    requires Sound(u.offer) && Keeps(u, w)
    ensures u.offer.md.tick <= |w.authority.log|
  {
    hide Sound, Running, OnTime, LeadsByAtMostOne, PlayingLink, LoadingLink;
    OfferFacts(u.offer);
  }

  /** Whatever does not broadcast leaves the log alone. */
  lemma LogStays<S>(u: Setup<S>, w: World<S>, e: Event)
    requires !Broadcasts(u, w, e)
    ensures Step(u, w, e).authority.log == w.authority.log
  {
    hide LiveTurn, TurnedLink, L.ServedPeers, ServedLink, MailOf;
  }

  /** A broadcasting iteration extends the log by what it sent, and judges every client by its own mail. */
  lemma Broadcasting<S>(u: Setup<S>, w: World<S>, e: Event)
    requires Bounded(u.offer.game) && Keeps(u, w) && Possible(u, w, e) && Broadcasts(u, w, e)
    ensures var (t, w', a) := (TurnIn(u, w, e), Step(u, w, e), w.authority);
      var mails := Mails(w, e.order, e.intakes);
      && w'.authority == t.authority && t.authority.log == a.log + [t.sent.value] && w'.stage != Lobby
      && t.sent.value.inputs == Inputs(u.offer.game, e.order, mails, a.verified.Keys, e.local)
      && JudgedAlone(u.offer.game, Interval(u.offer), u.policy, a, mails, t.dropped, t.authority.verified)
  {
    hide Bounded, Running, OnTime, LinksPlay, LiveTurn, JudgedAlone, Inputs, Recordable, LeadsByAtMostOne,
        TickedLink, MailOf, Genesis, Interval;
    var o := u.offer;
    LiveTurnKeeps(o.game, Interval(o), u.policy, Genesis(o), o.md.tick, w.authority,
      e.order, Mails(w, e.order, e.intakes), e.local, e.publishes);
  }

  lemma LedgerStep<S>(u: Setup<S>, w: World<S>, e: Event, p: Participant)
    requires Sound(u.offer) && Bounded(u.offer.game) && Keeps(u, w) && Possible(u, w, e)
    ensures u.offer.md.tick <= |w.authority.log| <= |Step(u, w, e).authority.log|
    ensures RecordedFrom(u, Step(u, w, e), p) == RecordedFrom(u, w, p) + AcceptedIn(u, w, e, p)
  {
    hide Sound, Bounded, Keeps, Step, TurnIn, JudgedAlone, Inputs, Accepted, From, Logged, MailOf;
    LogCoversSave(u, w);
    if Broadcasts(u, w, e) {
      Broadcasting(u, w, e);
      var (tick, log, advance) := (u.offer.md.tick, w.authority.log, TurnIn(u, w, e).sent.value);
      LoggedPush(log[tick..], advance, p);
      assert (log + [advance])[tick..] == log[tick..] + [advance];
      TickHolds(u.offer.game, e.order, Mails(w, e.order, e.intakes), w.authority.verified.Keys, e.local, p);
    } else {
      LogStays(u, w, e);
      assert RecordedFrom(u, w, p) + [] == RecordedFrom(u, w, p);
    }
  }

  /**
    Command conservation, in every run and for every participant: what the log records from it since
    Start is exactly what was accepted from it, in order, nothing lost and nothing twice.
  */
  lemma {:induction false} LogIsWhatWasAccepted<S>(u: Setup<S>, events: seq<Event>, p: Participant)
    requires Sound(u.offer) && Bounded(u.offer.game) && PossibleRun(u, events)
    ensures u.offer.md.tick <= |After(u, events).authority.log|
    ensures RecordedFrom(u, After(u, events), p) == AcceptedOver(u, events, p)
    decreases |events|
  {
    hide Sound, Bounded, Keeps, Step, AcceptedIn, Possible, RecordedFrom;
    EveryRunKeeps(u, events);
    LogCoversSave(u, After(u, events));
    if events == [] {
      NothingRecorded(u, p);
    } else {
      var earlier := events[..|events| - 1];
      LogIsWhatWasAccepted(u, earlier, p);
      EveryRunKeeps(u, earlier);
      LedgerStep(u, After(u, earlier), events[|events| - 1], p);
    }
  }

  lemma NothingRecorded<S>(u: Setup<S>, p: Participant)
    requires Sound(u.offer)
    ensures u.offer.md.tick <= |Initially(u).authority.log| && RecordedFrom(u, Initially(u), p) == []
  {
    hide Sound;
    OfferFacts(u.offer);
    assert u.offer.loaded.records[u.offer.md.tick..] == [];
  }

  // ----- Every verification entry stands for a matched fingerprint -----

  /** The authority's own fingerprint of tick `v`. */
  ghost predicate Fingerprints<S>(u: Offer<S>, log: seq<TickAdvance>, report: Report) {
    && report.tick <= |log| && StateAt(u.game, Genesis(u), log, report.tick).Ok?
    && report.hash == u.game.hashOf(StateAt(u.game, Genesis(u), log, report.tick).value)
  }

  /** In event `k` of the run, a live iteration, this report was in the client's mail. */
  ghost predicate ReportedAt<S>(u: Setup<S>, events: seq<Event>, k: nat, id: u64, report: Report) {
    && k < |events| && events[k].LiveIteration? && After(u, events[..k]).stage == Play
    && id in After(u, events[..k]).authority.verified
    && Some(report) in MailOf(After(u, events[..k]), id, events[k].intakes(id)).reports
  }

  /** The client was verified at Start, or it once reported the authority's fingerprint of that very tick. */
  ghost predicate Matched<S>(u: Setup<S>, events: seq<Event>, log: seq<TickAdvance>, id: u64, verified: u64) {
    || verified == u.offer.md.tick
    || exists k: nat, report: Report ::
         report.tick == verified && Fingerprints(u.offer, log, report) && ReportedAt(u, events, k, id, report)
  }

  lemma MatchedLater<S>(u: Setup<S>, events: seq<Event>, e: Event, log: seq<TickAdvance>,
      log': seq<TickAdvance>, id: u64, verified: u64)
    requires Matched(u, events, log, id, verified)
    requires log' == log || exists advance :: log' == log + [advance]
    ensures Matched(u, events + [e], log', id, verified)
  {
    hide After, MailOf, Fingerprints;
    if verified != u.offer.md.tick {
      var k: nat, report: Report :|
        report.tick == verified && Fingerprints(u.offer, log, report) && ReportedAt(u, events, k, id, report);
      assert (events + [e])[..k] == events[..k] && (events + [e])[k] == events[k];
      assert ReportedAt(u, events + [e], k, id, report);
      FingerprintsLast(u.offer, log, log', report);
    }
  }

  lemma FingerprintsLast<S>(u: Offer<S>, log: seq<TickAdvance>, log': seq<TickAdvance>, report: Report)
    requires Fingerprints(u, log, report) && (log' == log || exists advance :: log' == log + [advance])
    ensures Fingerprints(u, log', report)
  {
    hide StateAt;
    if log' != log {
      var advance :| log' == log + [advance];
      StateAtGrows(u.game, Genesis(u), log, advance, report.tick);
    }
  }

  /** A verified tick that moved in this iteration was matched in it. */
  lemma MatchedNow<S>(u: Setup<S>, w: World<S>, e: Event, id: u64)
    requires Bounded(u.offer.game) && Keeps(u, w) && Possible(u, w, e) && Broadcasts(u, w, e)
    requires id in Step(u, w, e).authority.verified
    ensures id in w.authority.verified
    ensures var (v, v') := (w.authority.verified[id], Step(u, w, e).authority.verified[id]);
      v' == v || exists report: Report ::
        report.tick == v' && Fingerprints(u.offer, w.authority.log, report)
        && Some(report) in MailOf(w, id, e.intakes(id)).reports
  {
    hide Bounded, Step, TurnIn, Running, Inputs, LinksPlay, OnTime, CheckReports, MailOf, Genesis, Interval;
    Broadcasting(u, w, e);
    var (o, a) := (u.offer, w.authority);
    var v' := Step(u, w, e).authority.verified[id];
    var reports := MailOf(w, id, e.intakes(id)).reports;
    VerifiedByMatch(reports, o.game.tickOf(a.state), Checked(a.verified[id], false), a.hashes, u.policy, Interval(o));
    if v' != a.verified[id] {
      var report := Report(v', a.hashes[v']);
      HistoryFingerprints(u, a, v');
      assert Some(report) in reports;
    }
  }

  lemma HistoryFingerprints<S>(u: Setup<S>, a: Authority<S>, t: u64)
    requires Running(u.offer.game, Interval(u.offer), Genesis(u.offer), u.offer.md.tick, a) && t in a.hashes
    ensures Fingerprints(u.offer, a.log, Report(t, a.hashes[t]))
  {
    hide Run, Interval, Genesis;
    DueInRange(t, u.offer.md.tick, |a.log|, Interval(u.offer));
  }

  lemma MatchStep<S>(u: Setup<S>, events: seq<Event>, e: Event, id: u64)
    requires Sound(u.offer) && Bounded(u.offer.game) && Possible(u, After(u, events), e) && Keeps(u, After(u, events))
    requires forall x :: After(u, events).stage != Lobby && x in After(u, events).authority.verified ==>
      Matched(u, events, After(u, events).authority.log, x, After(u, events).authority.verified[x])
    requires var w' := Step(u, After(u, events), e);
      w'.stage != Lobby && id in w'.authority.verified
    ensures var w' := Step(u, After(u, events), e);
      Matched(u, events + [e], w'.authority.log, id, w'.authority.verified[id])
  {
    hide Sound, Bounded, Keeps, After, Step, TurnIn, MailOf, Fingerprints;
    var w := After(u, events);
    var w' := Step(u, w, e);
    if Broadcasts(u, w, e) {
      Broadcasting(u, w, e);
      MatchedNow(u, w, e, id);
      var v := w.authority.verified[id];
      if w'.authority.verified[id] == v {
        assert w'.authority.log == w.authority.log + [TurnIn(u, w, e).sent.value];
        MatchedLater(u, events, e, w.authority.log, w'.authority.log, id, v);
      } else {
        var report: Report :| report.tick == w'.authority.verified[id] && Fingerprints(u.offer, w.authority.log, report)
          && Some(report) in MailOf(w, id, e.intakes(id)).reports;
        FingerprintsLast(u.offer, w.authority.log, w'.authority.log, report);
        assert (events + [e])[..|events|] == events;
        assert ReportedAt(u, events + [e], |events|, id, report);
      }
    } else {
      LogStays(u, w, e);
      VerifiedStays(u, w, e, id);
      if w.stage != Lobby {
        MatchedLater(u, events, e, w.authority.log, w'.authority.log, id, w'.authority.verified[id]);
      }
    }
  }

  /** Verification entries otherwise only appear at Start, and only disappear later. */
  lemma VerifiedStays<S>(u: Setup<S>, w: World<S>, e: Event, id: u64)
    requires !Broadcasts(u, w, e) && Step(u, w, e).stage != Lobby && id in Step(u, w, e).authority.verified
    ensures w.stage == Lobby ==> Step(u, w, e).authority.verified[id] == u.offer.md.tick
    ensures w.stage != Lobby ==>
      id in w.authority.verified && Step(u, w, e).authority.verified[id] == w.authority.verified[id]
  {
    hide LiveTurn, TurnedLink, L.ServedPeers, L.ReadyPeers, ServedLink, MailOf;
  }

  /**
    What verification means, in every run: a client's verified tick is Start's, or one whose
    fingerprint, the hash of exactly the state the log comes to there, the client itself reported in
    an earlier live iteration. With the deadline, every connected client matched recently.
  */
  lemma {:induction false} VerifiedMeansMatched<S>(u: Setup<S>, events: seq<Event>, id: u64)
    requires Sound(u.offer) && Bounded(u.offer.game) && PossibleRun(u, events)
    requires After(u, events).stage != Lobby && id in After(u, events).authority.verified
    ensures var a := After(u, events).authority;
      && Matched(u, events, a.log, id, a.verified[id])
      && (After(u, events).stage == Play ==>
            |a.log| <= a.verified[id] + Interval(u.offer) * HISTORY_INTERVALS + 1)
    decreases |events|
  {
    hide Sound, Bounded, Keeps, Step, Possible, Matched, Interval;
    AuthorityStaysVerified(u, events);
    if events != [] {
      var (earlier, e) := (events[..|events| - 1], events[|events| - 1]);
      EveryRunKeeps(u, earlier);
      forall x | After(u, earlier).stage != Lobby && x in After(u, earlier).authority.verified
        ensures Matched(u, earlier, After(u, earlier).authority.log, x, After(u, earlier).authority.verified[x])
      {
        VerifiedMeansMatched(u, earlier, x);
      }
      MatchStep(u, earlier, e, id);
      assert events == earlier + [e];
    }
  }

  // ----- Who is served in play was ready -----

  /** In event `k`, a lobby iteration with everything sent, the client announced the authority's state. */
  ghost predicate SaidReady<S>(u: Setup<S>, events: seq<Event>, k: nat, id: u64) {
    && k < |events| && events[k].WaitIteration?
    && SaysReady(u, After(u, events[..k]), id, events[k].intakes(id))
  }

  ghost predicate SaysReady<S>(u: Setup<S>, w: World<S>, id: u64, intake: Intake) {
    && w.stage == Lobby && id in w.peers
    && T.Pump(w.peers[id], u.offer.save, u.offer.md, intake.grants).peer.offset == |u.offer.save|
    && Some(Ready(u.offer.md.tick, u.offer.md.hash)) in RoundOf(w, id, intake).arrivals
  }

  /** Known to be ready: in the lobby, or served in play and to the end. */
  ghost predicate IsIn<S>(w: World<S>, id: u64) {
    if w.stage == Lobby then id in w.peers && w.peers[id].phase == T.Verified else id in w.authority.verified
  }

  lemma ReadyInRound<S>(u: Setup<S>, w: World<S>, id: u64, intake: Intake)
    requires w.stage == Lobby && id in w.peers && T.Tracked(w.peers[id], u.offer.md, u.offer.save)
    requires Served(u, w, id, intake).Some? && Served(u, w, id, intake).value.phase == T.Verified
    ensures w.peers[id].phase == T.Verified || SaysReady(u, w, id, intake)
  {
    hide T.Pump, T.ReceiveAll, T.Tracked, T.TimedOut, RoundOf;
    var (p, o) := (w.peers[id], u.offer);
    var pumped := T.Pump(p, o.save, o.md, intake.grants).peer;
    T.PumpTracked(p, o.md, o.save, intake.grants);
    PumpLeavesReady(u, p, intake.grants);
    if pumped.phase != T.Verified {
      assert RoundOf(w, id, intake).grants == intake.grants && RoundOf(w, id, intake).now == intake.now by {
        RoundFacts(w, id, intake);
      }
      T.ReadyBySaying(pumped, RoundOf(w, id, intake).arrivals, o.md, intake.now);
      T.SentBeforeReady(pumped, o.md, o.save);
    }
  }

  lemma RoundFacts<S>(w: World<S>, id: u64, intake: Intake)
    ensures RoundOf(w, id, intake).grants == intake.grants && RoundOf(w, id, intake).now == intake.now
  {
  }

  lemma PumpLeavesReady<S>(u: Setup<S>, p: T.Peer, grants: nat)
    requires T.Tracked(p, u.offer.md, u.offer.save)
    ensures T.Pump(p, u.offer.save, u.offer.md, grants).peer.phase == T.Verified <==> p.phase == T.Verified
  {
    hide T.Pump, T.PeerAt;
    var acked: nat, sent: nat :| T.PeerAt(p, u.offer.md, u.offer.save, acked, sent);
    T.PumpKeeps(p, u.offer.md, u.offer.save, acked, sent, grants);
  }

  /** One event makes no client known to be ready, but by its own announcement. */
  lemma ComesIn<S>(u: Setup<S>, w: World<S>, e: Event, id: u64)
    requires Sound(u.offer) && Bounded(u.offer.game) && Keeps(u, w) && Possible(u, w, e) && IsIn(Step(u, w, e), id)
    ensures IsIn(w, id) || (e.WaitIteration? && SaysReady(u, w, id, e.intakes(id)))
  {
    hide Sound, Bounded, LiveTurn, TurnedLink, ServedLink, MailOf, T.Tracked, LoadingLink, PlayingLink, Running, OnTime,
        SaysReady, Interval, Genesis, T.ServePeer, RoundOf;
    match e
    case WaitIteration(until, intakes, publishes) =>
      if w.stage == Lobby {
        ServedIn(u, w, intakes, publishes, id);
        ReadyInRound(u, w, id, intakes(id));
      }
    case LiveIteration(order, intakes, local, publishes) =>
      if Broadcasts(u, w, e) {
        Broadcasting(u, w, e);
      }
    case _ =>
  }

  /** Whoever is known to be ready after an iteration of the lobby is so by that iteration's own count. */
  lemma ServedIn<S>(u: Setup<S>, w: World<S>, intakes: u64 -> Intake, publishes: bool, id: u64)
    requires w.stage == Lobby && LobbyKeeps(u, w) && Sound(u.offer)
    requires IsIn(Barrier(u, ServeAll(u, w, intakes), publishes), id)
    ensures id in w.peers && Served(u, w, id, intakes(id)).Some?
    ensures Served(u, w, id, intakes(id)).value.phase == T.Verified
  {
    hide Sound, T.Tracked, LoadingLink, T.ServePeer, RoundOf, ServedLink;
    var served := ServeAll(u, w, intakes);
    ServeAllKeeps(u, w, intakes);
    ServeAllStays(u, w, intakes);
    if Barrier(u, served, publishes).stage != Lobby {
      BarrierHolds(u, served, publishes);
    }
  }

  lemma {:induction false} SaidLater<S>(u: Setup<S>, events: seq<Event>, e: Event, k: nat, id: u64)
    requires SaidReady(u, events, k, id)
    ensures SaidReady(u, events + [e], k, id)
  {
    hide SaysReady, After;
    assert (events + [e])[..k] == events[..k] && (events + [e])[k] == events[k];
  }

  /**
    Whoever the authority serves in play, honest or not, announced exactly the authority's tick and
    fingerprint in an earlier iteration of the lobby, after the whole save had been sent to it.
  */
  lemma {:induction false} PlayersWereReady<S>(u: Setup<S>, events: seq<Event>, id: u64) returns (k: nat)
    requires Sound(u.offer) && Bounded(u.offer.game) && PossibleRun(u, events)
    requires IsIn(After(u, events), id)
    ensures SaidReady(u, events, k, id)
    decreases |events|
  {
    hide Sound, Bounded, Keeps, Step, Possible, SaysReady, SaidReady;
    if events == [] {
      assert false;
    } else {
      var (earlier, e) := (events[..|events| - 1], events[|events| - 1]);
      assert events == earlier + [e];
      EveryRunKeeps(u, earlier);
      hide IsIn, After;
      AfterStep(u, earlier, e);
      ComesIn(u, After(u, earlier), e, id);
      if IsIn(After(u, earlier), id) {
        k := PlayersWereReady(u, earlier, id);
        SaidLater(u, earlier, e, k, id);
      } else {
        k := |earlier|;
        SaidNow(u, earlier, e, id);
      }
    }
  }

  lemma AfterStep<S>(u: Setup<S>, earlier: seq<Event>, e: Event)
    ensures After(u, earlier + [e]) == Step(u, After(u, earlier), e)
    ensures PossibleRun(u, earlier + [e]) <==> PossibleRun(u, earlier) && Possible(u, After(u, earlier), e)
  {
    hide Step, Possible;
    assert (earlier + [e])[..|earlier|] == earlier;
  }

  lemma SaidNow<S>(u: Setup<S>, earlier: seq<Event>, e: Event, id: u64)
    requires e.WaitIteration? && SaysReady(u, After(u, earlier), id, e.intakes(id))
    ensures SaidReady(u, earlier + [e], |earlier|, id)
  {
    hide SaysReady, After;
    assert (earlier + [e])[..|earlier|] == earlier;
  }

  // ----- Who keeps its place in play -----

  /** A well-formed report of a due tick since Start, within the history, with the log's own fingerprint there. */
  ghost predicate Vouches<S>(u: Offer<S>, log: seq<TickAdvance>, report: Option<Report>) {
    report.Some? && Due(report.value.tick, u.md.tick, |log|, Interval(u)) && Fingerprints(u, log, report.value)
  }

  /** What the authority's history confirms is what the log itself says. */
  lemma ConfirmsTheLog<S>(u: Offer<S>, a: Authority<S>, report: Option<Report>)
    requires Running(u.game, Interval(u), Genesis(u), u.md.tick, a)
    ensures Confirms(report, |a.log|, a.hashes, Interval(u)) <==> Vouches(u, a.log, report)
    ensures report.Some? && Contradicts(report.value, |a.log|, a.hashes, Interval(u)) <==>
      && report.Some? && Due(report.value.tick, u.md.tick, |a.log|, Interval(u))
      && !Fingerprints(u, a.log, report.value)
  {
    hide Run, Interval, Genesis, LastDue;
  }

  /** Every report vouches for a tick, each a later one than the last, and all later than `verified`. */
  ghost predicate AllVouch<S>(u: Offer<S>, log: seq<TickAdvance>, verified: nat, reports: seq<Option<Report>>) {
    && (forall i :: 0 <= i < |reports| ==> Vouches(u, log, reports[i]) && verified < reports[i].value.tick)
    && forall i, j :: 0 <= i < j < |reports| ==> reports[i].value.tick < reports[j].value.tick
  }

  lemma VouchingIsConfirming<S>(u: Offer<S>, a: Authority<S>, verified: nat, reports: seq<Option<Report>>)
    requires Running(u.game, Interval(u), Genesis(u), u.md.tick, a)
    ensures AllConfirm(reports, |a.log|, verified, a.hashes, Interval(u)) <==> AllVouch(u, a.log, verified, reports)
    ensures AllVouch(u, a.log, verified, reports) ==> forall i :: 0 <= i < |reports| ==> reports[i].Some?
  {
    hide Running, Confirms, Vouches, Interval, Genesis;
    forall i | 0 <= i < |reports|
      ensures Confirms(reports[i], |a.log|, a.hashes, Interval(u)) <==> Vouches(u, a.log, reports[i])
      ensures Vouches(u, a.log, reports[i]) ==> reports[i].Some?
    {
      ConfirmsTheLog(u, a, reports[i]);
      VouchersAreThere(u, a.log, reports[i]);
    }
  }

  lemma VouchersAreThere<S>(u: Offer<S>, log: seq<TickAdvance>, report: Option<Report>)
    ensures Vouches(u, log, report) ==> report.Some?
  {
    hide Due, Fingerprints;
  }

  /**
    Exactly who keeps its place, in every run: after an iteration that goes on, a client is connected
    if and only if it was, every message it sent is an admissible command, every report it sent
    vouches for a tick of this log in ascending order, and the last tick it has verified is at most
    ten intervals before the state it was judged in.
  */
  lemma PlacesKeptExactly<S>(u: Setup<S>, events: seq<Event>, e: Event, id: u64)
    requires Sound(u.offer) && Bounded(u.offer.game) && PossibleRun(u, events + [e]) && e.LiveIteration?
    requires After(u, events).stage == Play && After(u, events + [e]).stage == Play
    ensures var (w, w') := (After(u, events), After(u, events + [e]));
      id in w'.authority.verified <==>
        && id in w.authority.verified
        && var mail := MailOf(w, id, e.intakes(id));
        && (forall i :: 0 <= i < |mail.messages| ==> Acceptable(u.offer.game, mail.messages[i]))
        && AllVouch(u.offer, w.authority.log, w.authority.verified[id], mail.reports)
        && |w.authority.log| <= LastVouched(mail.reports, w.authority.verified[id]) + 10 * Interval(u.offer)
  {
    hide Sound, Bounded, After, LiveTurn, Running, OnTime, LinksPlay, MailOf, Inputs, ClientVerdict, Possible,
        AllVouch, AllConfirm, Interval, Genesis, TickedLink, LastVouched, LastTick;
    AfterStep(u, events, e);
    EveryRunKeeps(u, events);
    var (w, o) := (After(u, events), u.offer);
    KeepsInPlay(u, w);
    GoingOnBroadcasts(u, w, e);
    assert Possible(u, w, e);
    Broadcasting(u, w, e);
    StateTick(o.game, Interval(o), Genesis(o), o.md.tick, w.authority);
    if id in w.authority.verified {
      var (mail, v) := (MailOf(w, id, e.intakes(id)), w.authority.verified[id]);
      PlaceKeptExactly(o.game, Interval(o), u.policy, w.authority, v, mail);
      VouchingIsConfirming(o, w.authority, v, mail.reports);
      if AllVouch(o, w.authority.log, v, mail.reports) {
        LastVouchedIs(mail.reports, v);
      }
    }
  }

  function LastVouched(reports: seq<Option<Report>>, verified: u64): u64 {
    if reports == [] || reports[|reports| - 1].None? then verified else reports[|reports| - 1].value.tick
  }

  lemma LastVouchedIs(reports: seq<Option<Report>>, verified: u64)
    requires forall i :: 0 <= i < |reports| ==> reports[i].Some?
    ensures LastVouched(reports, verified) == LastTick(reports, verified)
  {
  }

  lemma GoingOnBroadcasts<S>(u: Setup<S>, w: World<S>, e: Event)
    requires e.LiveIteration? && w.stage == Play && Step(u, w, e).stage == Play
    ensures Broadcasts(u, w, e) && TurnIn(u, w, e).failure.None?
  {
    hide LiveTurn, TickedLink;
  }

  /**
    No client gets away with a wrong fingerprint: whatever the policy, when the iteration that reads
    it is over, the client is gone or the session is.
  */
  lemma LiarsDoNotStay<S>(u: Setup<S>, events: seq<Event>, e: Event, id: u64, report: Report)
    requires Sound(u.offer) && Bounded(u.offer.game) && PossibleRun(u, events + [e]) && e.LiveIteration?
    requires After(u, events).stage == Play && id in After(u, events).authority.verified
    requires Some(report) in MailOf(After(u, events), id, e.intakes(id)).reports
    requires !Fingerprints(u.offer, After(u, events).authority.log, report)
    ensures After(u, events + [e]).stage == Over || id !in After(u, events + [e]).authority.verified
  {
    hide Sound, Bounded, After, MailOf, Fingerprints, Due, Interval, Possible, PossibleRun, Step;
    StaysOutOfLobby(u, events, e);
    if After(u, events + [e]).stage == Play {
      PlacesKeptExactly(u, events, e, id);
    }
  }

  lemma StaysOutOfLobby<S>(u: Setup<S>, events: seq<Event>, e: Event)
    requires After(u, events).stage == Play && e.LiveIteration?
    ensures After(u, events + [e]).stage != Lobby
  {
    hide After, LiveTurn, TickedLink;
    AfterStep(u, events, e);
  }

  /**
    When an iteration of play goes on, exactly: under fail-fast no connected client contradicts the
    history with news, the host submitted only valid commands, the payloads with 32 bytes for each
    fit 256 KiB, there is a next tick, the game executes it, and it is published. Otherwise the
    session is over.
  */
  lemma GoesOnExactly<S>(u: Setup<S>, events: seq<Event>, e: Event)
    requires Sound(u.offer) && Bounded(u.offer.game) && PossibleRun(u, events + [e]) && e.LiveIteration?
    requires After(u, events).stage == Play
    ensures var (g, a) := (u.offer.game, After(u, events).authority);
      var mails := Mails(After(u, events), e.order, e.intakes);
      var inputs := Inputs(g, e.order, mails, a.verified.Keys, e.local);
      After(u, events + [e]).stage == Play <==>
        && (u.policy == FailFast ==> forall id :: id in a.verified ==>
              !Offends(mails[id].reports, |a.log|, a.verified[id], a.hashes, Interval(u.offer)))
        && (forall i :: 0 <= i < |e.local| ==> g.accepts(e.local[i]))
        && PayloadBytes(inputs) + 32 * |inputs| <= 0x4_0000
        && |a.log| < U64_MAX && AdvanceTick(g, a.state, TickAdvance(|a.log| + 1, inputs)).Ok? && e.publishes
  {
    hide Sound, Bounded, After, LiveTurn, Running, OnTime, LinksPlay, MailOf, Inputs, Offends, AdvanceTick, Interval,
        Genesis, TickedLink, PayloadBytes;
    AfterStep(u, events, e);
    EveryRunKeeps(u, events);
    var (w, o) := (After(u, events), u.offer);
    KeepsInPlay(u, w);
    IterationSucceedsExactly(o.game, Interval(o), u.policy, Genesis(o), o.md.tick, w.authority, e.order,
      Mails(w, e.order, e.intakes), e.local, e.publishes);
    assert After(u, events + [e]).stage == Play <==> TurnIn(u, w, e).failure.None? by {
      PlaysOnUnlessFailed(u, w, e);
    }
  }

  lemma PlaysOnUnlessFailed<S>(u: Setup<S>, w: World<S>, e: Event)
    requires e.LiveIteration? && w.stage == Play
    ensures Step(u, w, e).stage == Play <==> TurnIn(u, w, e).failure.None?
  {
    hide TickedLink, Gather, Encode, AdvanceTick, Remember;
  }

  // ----- Who is gone is silent -----

  lemma GoneStaysGone<S>(u: Setup<S>, w: World<S>, e: Event, id: u64)
    requires Sound(u.offer) && Bounded(u.offer.game) && Keeps(u, w) && Possible(u, w, e)
    requires w.stage != Lobby && id !in w.authority.verified
    ensures Step(u, w, e).stage != Lobby && id !in Step(u, w, e).authority.verified
    ensures u.offer.md.tick <= |w.authority.log| <= |Step(u, w, e).authority.log|
    ensures RecordedFrom(u, Step(u, w, e), Remote(id)) == RecordedFrom(u, w, Remote(id))
  {
    hide Sound, Bounded, Keeps, Step, TurnIn, RecordedFrom, Possible;
    LedgerStep(u, w, e, Remote(id));
    var recorded := RecordedFrom(u, w, Remote(id));
    assert recorded + [] == recorded;
    PlayGoesOn(u, w, e);
    if Broadcasts(u, w, e) {
      Broadcasting(u, w, e);
    } else if id in Step(u, w, e).authority.verified {
      VerifiedStays(u, w, e, id);
    }
  }

  lemma PlayGoesOn<S>(u: Setup<S>, w: World<S>, e: Event)
    requires w.stage != Lobby
    ensures Step(u, w, e).stage != Lobby
  {
    hide LiveTurn, TurnedLink, TickedLink;
  }

  /** Once a client of a session in play has lost its place, no command of its own is ever recorded again. */
  lemma {:induction false} GoneIsSilent<S>(u: Setup<S>, events: seq<Event>, more: seq<Event>, id: u64)
    requires Sound(u.offer) && Bounded(u.offer.game) && PossibleRun(u, events + more)
    requires After(u, events).stage != Lobby && id !in After(u, events).authority.verified
    ensures PossibleRun(u, events)
    ensures After(u, events + more).stage != Lobby && id !in After(u, events + more).authority.verified
    ensures u.offer.md.tick <= |After(u, events).authority.log| <= |After(u, events + more).authority.log|
    ensures RecordedFrom(u, After(u, events + more), Remote(id)) == RecordedFrom(u, After(u, events), Remote(id))
    decreases |more|
  {
    hide Sound, Bounded, Keeps, Step, RecordedFrom, Possible, After, PossibleRun;
    if more == [] {
      assert events + more == events;
      EveryRunKeeps(u, events);
      LogCoversSave(u, After(u, events));
    } else {
      var (earlier, e) := (more[..|more| - 1], more[|more| - 1]);
      assert events + more == (events + earlier) + [e];
      AfterStep(u, events + earlier, e);
      GoneIsSilent(u, events, earlier, id);
      EveryRunKeeps(u, events + earlier);
      GoneStaysGone(u, After(u, events + earlier), e, id);
    }
  }

  /** A client that leaves a session in play is gone for good, and its commands with it. */
  lemma LeaversAreGone<S>(u: Setup<S>, events: seq<Event>, more: seq<Event>, id: u64)
    requires Sound(u.offer) && Bounded(u.offer.game) && After(u, events).stage != Lobby
    requires PossibleRun(u, events + [Leave(id)] + more)
    ensures var w := After(u, events + [Leave(id)] + more);
      && id !in w.authority.verified
      && u.offer.md.tick <= |After(u, events).authority.log| <= |w.authority.log|
      && RecordedFrom(u, w, Remote(id)) == RecordedFrom(u, After(u, events), Remote(id))
  {
    hide Sound, Bounded, RecordedFrom, Possible, After, PossibleRun;
    AfterStep(u, events, Leave(id));
    var left := After(u, events + [Leave(id)]);
    GoneIsSilent(u, events + [Leave(id)], more, id);
    assert left.authority.log == After(u, events).authority.log;
    SameRecord(u, left, After(u, events), id);
  }

  lemma SameRecord<S>(u: Setup<S>, w: World<S>, w': World<S>, id: u64)
    requires w.authority.log == w'.authority.log && u.offer.md.tick <= |w.authority.log|
    ensures RecordedFrom(u, w, Remote(id)) == RecordedFrom(u, w', Remote(id))
  {
  }
}

/**
  One iteration of the authority's live loop: gather commands, check verification reports,
  enforce the deadline, then record, broadcast and execute one tick
  (crates/synctick/src/run_server.rs:283-490).
*/
module Live {
  import opened Bytes
  import opened Envelope
  import opened ReplayLog
  import opened Simulation

  const HISTORY_INTERVALS: nat := 10

  datatype Policy = Disconnect | FailFast

  /** What arrived from one client; `None` is a malformed envelope. */
  datatype Mail = Mail(messages: seq<Option<ClientMessage>>, reports: seq<Option<Report>>)

  /** `log` is everything recorded and broadcast since genesis. */
  datatype Authority<S> = Authority(state: S, log: seq<TickAdvance>, hashes: map<u64, u64>, verified: map<u64, u64>)

  datatype Failure = OverBudget | Desynced | InvalidHostCommand | TickExhausted | TickFailed(reason: SimError)

  // ----- Commands -----

  /** Inputs gathered for the tick, and whether the sender must be disconnected. */
  datatype Taken = Taken(inputs: seq<Command>, dropped: bool)

  predicate Affordable(inputs: seq<Command>, payload: seq<byte>) {
    Charge(inputs) + |payload| + 32 <= MAX_REPLAY_RECORD_BYTES
  }

  /** Drain one client's lockstep channel up to its first unacceptable message. */
  function TakeCommands<S>(g: Game<S>, id: u64, messages: seq<Option<ClientMessage>>,
      inputs: seq<Command>): Result<Taken, Failure>
    decreases |messages|
  {
    if messages == [] then Ok(Taken(inputs, false))
    else if messages[0].None? || !messages[0].value.Input? || !g.accepts(messages[0].value.payload) then
      Ok(Taken(inputs, true))
    else if !Affordable(inputs, messages[0].value.payload) then Err(OverBudget)
    else TakeCommands(g, id, messages[1..], inputs + [Command(Remote(id), messages[0].value.payload)])
  }

  function TakeLocal<S>(g: Game<S>, local: seq<seq<byte>>, inputs: seq<Command>): Result<seq<Command>, Failure>
    decreases |local|
  {
    if local == [] then Ok(inputs)
    else if !g.accepts(local[0]) then Err(InvalidHostCommand)
    else if !Affordable(inputs, local[0]) then Err(OverBudget)
    else TakeLocal(g, local[1..], inputs + [Command(Host, local[0])])
  }

  // ----- Verification -----

  datatype Verdict = Matches | Invalid | Mismatch

  function VerifyHash(report: Report, current: nat, verified: nat, hashes: map<u64, u64>, interval: nat): Verdict
    requires interval > 0
  {
    if report.tick <= verified || report.tick > current || report.tick % interval != 0 then Invalid
    else if report.tick !in hashes then Invalid
    else if hashes[report.tick] != report.hash then Mismatch
    else Matches
  }

  datatype Checked = Checked(verified: u64, dropped: bool)

  function CheckReports(
      reports: seq<Option<Report>>, current: nat, c: Checked, hashes: map<u64, u64>, policy: Policy, interval: nat)
    : Result<Checked, Failure>
    requires interval > 0
    decreases |reports|
  {
    if reports == [] then Ok(c)
    else
      var verdict :=
        if reports[0].None? then Invalid else VerifyHash(reports[0].value, current, c.verified, hashes, interval);
      if verdict == Mismatch && policy == FailFast then Err(Desynced)
      else
        var c' := if verdict == Matches then c.(verified := reports[0].value.tick) else c.(dropped := true);
        CheckReports(reports[1..], current, c', hashes, policy, interval)
  }

  predicate Overdue(current: nat, verified: nat, interval: nat) {
    current > verified && current - verified > interval * HISTORY_INTERVALS
  }

  // ----- One iteration -----

  datatype Gathered = Gathered(inputs: seq<Command>, verified: map<u64, u64>, dropped: set<u64>)

  function ServeClient<S>(g: Game<S>, interval: nat, policy: Policy, a: Authority<S>, id: u64, mail: Mail, so: Gathered)
    : Result<Gathered, Failure>
    requires interval > 0 && id in so.verified
  {
    var current := g.tickOf(a.state);
    var taken := TakeCommands(g, id, mail.messages, so.inputs);
    if taken.Err? then Err(taken.error)
    else
      var checked := CheckReports(mail.reports, current, Checked(so.verified[id], false), a.hashes, policy, interval);
      if checked.Err? then Err(checked.error)
      else
        var v := checked.value.verified;
        var dropped := taken.value.dropped || checked.value.dropped || Overdue(current, v, interval);
        Ok(Gathered(taken.value.inputs, so.verified[id := v], if dropped then so.dropped + {id} else so.dropped))
  }

  /** Clients are served in the transport's order; ids without a verification entry are skipped. */
  function ServeClients<S>(
      g: Game<S>, interval: nat, policy: Policy, a: Authority<S>, order: seq<u64>, mails: map<u64, Mail>, so: Gathered)
    : Result<Gathered, Failure>
    requires interval > 0
    requires forall id :: id in order ==> id in mails
    decreases |order|
  {
    if order == [] then Ok(so)
    else if order[0] !in so.verified then ServeClients(g, interval, policy, a, order[1..], mails, so)
    else
      var served := ServeClient(g, interval, policy, a, order[0], mails[order[0]], so);
      if served.Err? then served
      else ServeClients(g, interval, policy, a, order[1..], mails, served.value)
  }

  /** Keep the fingerprints of the last ten intervals. */
  function Remember(hashes: map<u64, u64>, tick: u64, hash: u64, interval: nat): map<u64, u64>
    requires interval > 0
  {
    if tick % interval != 0 then hashes
    else
      var all := hashes[tick := hash];
      map t | t in all && (tick <= t || tick - t <= interval * HISTORY_INTERVALS) :: all[t]
  }

  /** Outcome of an iteration: the tick that reached log and peers, and why the session ended, if it did. */
  datatype Turn<S> = Turn(
    authority: Authority<S>, dropped: set<u64>, sent: Option<TickAdvance>, failure: Option<Failure>)

  function Gather<S>(
      g: Game<S>, interval: nat, policy: Policy, a: Authority<S>, order: seq<u64>, mails: map<u64, Mail>,
          local: seq<seq<byte>>)
    : Result<Gathered, Failure>
    requires interval > 0
    requires forall id :: id in order ==> id in mails
  {
    var remote := ServeClients(g, interval, policy, a, order, mails, Gathered([], a.verified, {}));
    if remote.Err? then remote
    else
      var inputs := TakeLocal(g, local, remote.value.inputs);
      if inputs.Err? then Err(inputs.error) else Ok(remote.value.(inputs := inputs.value))
  }

  /** Record and broadcast, then execute. The log may thus lead the state by one tick on a failing exit. */
  function Execute<S>(g: Game<S>, interval: nat, a: Authority<S>, so: Gathered, publishes: bool): Turn<S>
    requires interval > 0
  {
    var stale := a.(verified := so.verified - so.dropped);
    if g.tickOf(a.state) == U64_MAX then Turn(stale, so.dropped, None, Some(TickExhausted))
    else
      var advance := TickAdvance(g.tickOf(a.state) + 1, so.inputs);
      if |Encode(OfServer(Tick(advance)))| > MAX_REPLAY_RECORD_BYTES then
        Turn(stale, so.dropped, None, Some(OverBudget))
      else
        var logged := stale.(log := a.log + [advance]);
        var next := AdvanceTick(g, a.state, advance);
        if next.Err? then Turn(logged, so.dropped, Some(advance), Some(TickFailed(next.error)))
        else
          var executed := logged.(state := next.value);
          if !publishes then Turn(executed, so.dropped, Some(advance), Some(TickFailed(PublishFailed)))
          else
            Turn(executed.(hashes := Remember(a.hashes, advance.tick, g.hashOf(next.value), interval)),
              so.dropped, Some(advance), None)
  }

  function LiveTurn<S>(
      g: Game<S>, interval: nat, policy: Policy, a: Authority<S>,
      order: seq<u64>, mails: map<u64, Mail>, local: seq<seq<byte>>, publishes: bool)
    : Turn<S>
    requires interval > 0
    requires forall id :: id in order ==> id in mails
  {
    var so := Gather(g, interval, policy, a, order, mails, local);
    if so.Err? then Turn(a, {}, None, Some(so.error)) else Execute(g, interval, a, so.value, publishes)
  }

  // ----- Commands are conserved, in order, with their true origin -----

  /** One participant's payloads within a tick. */
  function From(inputs: seq<Command>, p: Participant): seq<seq<byte>> {
    if inputs == [] then []
    else (if inputs[0].participant == p then [inputs[0].payload] else []) + From(inputs[1..], p)
  }

  /** One participant's payloads over a log. */
  function Logged(log: seq<TickAdvance>, p: Participant): seq<seq<byte>> {
    if log == [] then [] else From(log[0].inputs, p) + Logged(log[1..], p)
  }

  /** A client's commands up to its first unacceptable message. */
  function Accepted<S>(g: Game<S>, messages: seq<Option<ClientMessage>>): seq<seq<byte>>
    decreases |messages|
  {
    if messages == [] || messages[0].None? || !messages[0].value.Input? || !g.accepts(messages[0].value.payload) then []
    else [messages[0].value.payload] + Accepted(g, messages[1..])
  }

  function Commands(p: Participant, payloads: seq<seq<byte>>): seq<Command> {
    seq(|payloads|, i requires 0 <= i < |payloads| => Command(p, payloads[i]))
  }

  lemma {:induction false} FromAppend(xs: seq<Command>, ys: seq<Command>, p: Participant)
    ensures From(xs + ys, p) == From(xs, p) + From(ys, p)
  {
    if xs == [] {
      assert xs + ys == ys;
    } else {
      assert (xs + ys)[1..] == xs[1..] + ys;
      FromAppend(xs[1..], ys, p);
    }
  }

  lemma {:induction false} LoggedAppend(log: seq<TickAdvance>, more: seq<TickAdvance>, p: Participant)
    ensures Logged(log + more, p) == Logged(log, p) + Logged(more, p)
  {
    if log == [] {
      assert log + more == more;
    } else {
      assert (log + more)[1..] == log[1..] + more;
      LoggedAppend(log[1..], more, p);
    }
  }

  lemma LoggedPush(log: seq<TickAdvance>, advance: TickAdvance, p: Participant)
    ensures Logged(log + [advance], p) == Logged(log, p) + From(advance.inputs, p)
  {
    LoggedAppend(log, [advance], p);
    assert [advance][1..] == [];
    assert From(advance.inputs, p) + [] == From(advance.inputs, p);
  }

  lemma {:induction false} FromCommands(origin: Participant, payloads: seq<seq<byte>>, p: Participant)
    ensures From(Commands(origin, payloads), p) == if p == origin then payloads else []
  {
    if payloads != [] {
      assert Commands(origin, payloads)[1..] == Commands(origin, payloads[1..]);
      FromCommands(origin, payloads[1..], p);
    }
  }

  /** What draining a client adds: exactly its accepted commands under its own id, within budget. */
  lemma {:induction false} TakenCommands<S>(g: Game<S>, id: u64, messages: seq<Option<ClientMessage>>,
      inputs: seq<Command>)
    requires Charge(inputs) <= MAX_REPLAY_RECORD_BYTES
    ensures var r := TakeCommands(g, id, messages, inputs);
      r.Ok? ==>
        && r.value.inputs == inputs + Commands(Remote(id), Accepted(g, messages))
        && Charge(r.value.inputs) <= MAX_REPLAY_RECORD_BYTES
        && (r.value.dropped <==> |Accepted(g, messages)| < |messages|)
    decreases |messages|
  {
    if messages == [] || messages[0].None? || !messages[0].value.Input? || !g.accepts(messages[0].value.payload) {
      assert inputs + [] == inputs;
    } else if Affordable(inputs, messages[0].value.payload) {
      var c := Command(Remote(id), messages[0].value.payload);
      var later := Accepted(g, messages[1..]);
      ChargeAppend(inputs, c);
      TakenCommands(g, id, messages[1..], inputs + [c]);
      assert Commands(Remote(id), [c.payload] + later) == [c] + Commands(Remote(id), later);
      Regroup(inputs, [c], Commands(Remote(id), later));
    }
  }

  lemma {:induction false} TakenLocal<S>(g: Game<S>, local: seq<seq<byte>>, inputs: seq<Command>)
    requires Charge(inputs) <= MAX_REPLAY_RECORD_BYTES
    ensures var r := TakeLocal(g, local, inputs);
      r.Ok? ==>
        && r.value == inputs + Commands(Host, local)
        && Charge(r.value) <= MAX_REPLAY_RECORD_BYTES
        && forall i :: 0 <= i < |local| ==> g.accepts(local[i])
    decreases |local|
  {
    if local == [] {
      assert inputs + [] == inputs;
    } else if g.accepts(local[0]) && Affordable(inputs, local[0]) {
      var c := Command(Host, local[0]);
      ChargeAppend(inputs, c);
      TakenLocal(g, local[1..], inputs + [c]);
      assert Commands(Host, local) == [c] + Commands(Host, local[1..]);
      Regroup(inputs, [c], Commands(Host, local[1..]));
    }
  }

  ghost predicate NoDuplicates(order: seq<u64>) {
    forall i, j :: 0 <= i < j < |order| ==> order[i] != order[j]
  }

  /** The remote part of a tick: each served client's accepted commands, in serving order. */
  function RemoteCommands<S>(g: Game<S>, order: seq<u64>, mails: map<u64, Mail>, served: set<u64>): seq<Command>
    requires forall id :: id in order ==> id in mails
  {
    if order == [] then []
    else
      FirstCommands(g, order[0], mails[order[0]], served) + RemoteCommands(g, order[1..], mails, served)
  }

  /** One client's contribution. */
  function FirstCommands<S>(g: Game<S>, id: u64, mail: Mail, served: set<u64>): seq<Command> {
    if id in served then Commands(Remote(id), Accepted(g, mail.messages)) else []
  }

  lemma FromFirstCommands<S>(g: Game<S>, id: u64, mail: Mail, served: set<u64>, p: Participant)
    ensures From(FirstCommands(g, id, mail, served), p)
         == if p == Remote(id) && id in served then Accepted(g, mail.messages) else []
  {
    FromCommands(Remote(id), Accepted(g, mail.messages), p);
  }

  lemma {:induction false} FromRemoteCommands<S>(g: Game<S>, order: seq<u64>, mails: map<u64, Mail>,
      served: set<u64>, p: Participant)
    requires forall id :: id in order ==> id in mails
    requires NoDuplicates(order)
    ensures From(RemoteCommands(g, order, mails, served), p)
         == if p.Remote? && p.id in order && p.id in served then Accepted(g, mails[p.id].messages) else []
  {
    hide Accepted, FirstCommands;
    if order != [] {
      var (id, rest) := (order[0], order[1..]);
      assert id !in rest && forall x :: x in order <==> x == id || x in rest;
      FromFirstCommands(g, id, mails[id], served, p);
      FromRemoteCommands(g, rest, mails, served, p);
      FromAppend(FirstCommands(g, id, mails[id], served), RemoteCommands(g, rest, mails, served), p);
      assert From(RemoteCommands(g, order, mails, served), p)
          == From(FirstCommands(g, id, mails[id], served), p) + From(RemoteCommands(g, rest, mails, served), p);
    }
  }

  /** What serving one client does to its own entry, independently of everyone else. */
  function ClientVerdict<S>(g: Game<S>, interval: nat, policy: Policy, a: Authority<S>, verified: u64,
      mail: Mail): Result<Checked, Failure>
    requires interval > 0
  {
    var checked := CheckReports(mail.reports, g.tickOf(a.state), Checked(verified, false), a.hashes, policy, interval);
    if checked.Err? then checked
    else Ok(checked.value.(dropped := checked.value.dropped
           || |Accepted(g, mail.messages)| < |mail.messages|
           || Overdue(g.tickOf(a.state), checked.value.verified, interval)))
  }

  lemma ServedClient<S>(g: Game<S>, interval: nat, policy: Policy, a: Authority<S>, id: u64, mail: Mail, so: Gathered)
    requires interval > 0 && id in so.verified && Charge(so.inputs) <= MAX_REPLAY_RECORD_BYTES
    ensures var r := ServeClient(g, interval, policy, a, id, mail, so);
      r.Ok? ==>
        var verdict := ClientVerdict(g, interval, policy, a, so.verified[id], mail);
        && verdict.Ok?
        && r.value.inputs == so.inputs + Commands(Remote(id), Accepted(g, mail.messages))
        && Charge(r.value.inputs) <= MAX_REPLAY_RECORD_BYTES
        && r.value.verified == so.verified[id := verdict.value.verified]
        && r.value.dropped == if verdict.value.dropped then so.dropped + {id} else so.dropped
  {
    TakenCommands(g, id, mail.messages, so.inputs);
  }

  /** Everything one pass over the clients gathers, client by client. */
  ghost predicate ServedAll<S>(
      g: Game<S>, interval: nat, policy: Policy, a: Authority<S>, order: seq<u64>, mails: map<u64, Mail>,
          so: Gathered, r: Gathered)
    requires interval > 0
    requires forall id :: id in order ==> id in mails
  {
    && r.inputs == so.inputs + RemoteCommands(g, order, mails, so.verified.Keys)
    && Charge(r.inputs) <= MAX_REPLAY_RECORD_BYTES
    && r.verified.Keys == so.verified.Keys && r.dropped <= so.dropped + so.verified.Keys
    && forall id :: id in so.verified ==>
        if id in order then
          var verdict := ClientVerdict(g, interval, policy, a, so.verified[id], mails[id]);
          && verdict.Ok? && r.verified[id] == verdict.value.verified
          && (id in r.dropped <==> id in so.dropped || verdict.value.dropped)
        else r.verified[id] == so.verified[id] && (id in r.dropped <==> id in so.dropped)
  }

  /** What serving one client, alone, gathers. */
  ghost predicate ServedOne<S>(
      g: Game<S>, interval: nat, policy: Policy, a: Authority<S>, id: u64, mail: Mail, so: Gathered, r: Gathered)
    requires interval > 0 && id in so.verified
  {
    var verdict := ClientVerdict(g, interval, policy, a, so.verified[id], mail);
    && verdict.Ok?
    && r.inputs == so.inputs + Commands(Remote(id), Accepted(g, mail.messages))
    && r.verified == so.verified[id := verdict.value.verified]
    && r.dropped == if verdict.value.dropped then so.dropped + {id} else so.dropped
  }

  lemma ServedFirst<S>(
      g: Game<S>, interval: nat, policy: Policy, a: Authority<S>, order: seq<u64>, mails: map<u64, Mail>,
      so: Gathered, first: Gathered, r: Gathered)
    requires interval > 0 && order != [] && order[0] in so.verified && NoDuplicates(order)
    requires forall id :: id in order ==> id in mails
    requires ServedOne(g, interval, policy, a, order[0], mails[order[0]], so, first)
    requires ServedAll(g, interval, policy, a, order[1..], mails, first, r)
    ensures ServedAll(g, interval, policy, a, order, mails, so, r)
  {
    hide ClientVerdict, Accepted, Commands, Charge;
    var (id, rest) := (order[0], order[1..]);
    assert id !in rest && forall x :: x in order <==> x == id || x in rest;
    assert first.verified.Keys == so.verified.Keys;
    Regroup(so.inputs, Commands(Remote(id), Accepted(g, mails[id].messages)),
      RemoteCommands(g, rest, mails, so.verified.Keys));
  }

  lemma {:induction false} ServedClients<S>(
      g: Game<S>, interval: nat, policy: Policy, a: Authority<S>, order: seq<u64>, mails: map<u64, Mail>, so: Gathered)
    requires interval > 0
    requires forall id :: id in order ==> id in mails
    requires NoDuplicates(order) && Charge(so.inputs) <= MAX_REPLAY_RECORD_BYTES
    ensures var r := ServeClients(g, interval, policy, a, order, mails, so);
      r.Ok? ==> ServedAll(g, interval, policy, a, order, mails, so, r.value)
    decreases |order|
  {
    hide ClientVerdict, ServeClient, Charge, Accepted, Commands;
    if order == [] {
      assert so.inputs + [] == so.inputs;
    } else {
      var (id, rest) := (order[0], order[1..]);
      if id !in so.verified {
        ServedClients(g, interval, policy, a, rest, mails, so);
        assert forall x :: x in order <==> x == id || x in rest;
        var others := RemoteCommands(g, rest, mails, so.verified.Keys);
        assert [] + others == others;
      } else {
        hide ServedAll, RemoteCommands;
        var first := ServeClient(g, interval, policy, a, id, mails[id], so);
        var later := ServeClients(g, interval, policy, a, order, mails, so);
        if later.Ok? {
          ServedClient(g, interval, policy, a, id, mails[id], so);
          ServedClients(g, interval, policy, a, rest, mails, first.value);
          ServedFirst(g, interval, policy, a, order, mails, so, first.value, later.value);
        }
      }
    }
  }

  // ----- The hash history and the verification deadline -----

  lemma QuotientStep(n: nat, m: nat)
    requires m > 0
    ensures (n + 1) % m == if n % m + 1 == m then 0 else n % m + 1
  {
    var (q, r) := (n / m, n % m);
    assert n == m * q + r;
    if r + 1 == m {
      assert n + 1 == m * (q + 1);
      ExactQuotient(n + 1, m, q + 1, 0);
    } else {
      ExactQuotient(n + 1, m, q, r + 1);
    }
  }

  lemma ExactQuotient(n: nat, m: nat, q: nat, r: nat)
    requires m > 0 && r < m && n == m * q + r
    ensures n % m == r
  {
    var (q', r') := (n / m, n % m);
    assert n == m * q' + r';
    ProductMonotone(q + 1, q', m);
    ProductMonotone(q' + 1, q, m);
  }

  /** The latest tick at which a fingerprint was due. */
  function LastDue(tick: nat, interval: nat): nat
    requires interval > 0
  {
    tick - tick % interval
  }

  lemma LastDueSteps(tick: nat, interval: nat)
    requires interval > 0
    ensures LastDue(tick + 1, interval) == if (tick + 1) % interval == 0 then tick + 1 else LastDue(tick, interval)
    ensures (tick + 1) % interval == 0 ==> LastDue(tick, interval) + interval == tick + 1
  {
    QuotientStep(tick, interval);
  }

  lemma {:induction false} DueBeforeLast(t: nat, tick: nat, interval: nat)
    requires interval > 0 && t <= tick && t % interval == 0
    ensures t <= LastDue(tick, interval)
    decreases tick - t
  {
    if t < tick {
      DueBeforeLast(t, tick - 1, interval);
      LastDueSteps(tick - 1, interval);
    }
  }

  /** State after the first `k` records. */
  function StateAt<S>(g: Game<S>, initial: S, log: seq<TickAdvance>, k: nat): Result<S, SimError>
    requires k <= |log|
  {
    Run(g, initial, log[..k])
  }

  /** Exactly the due ticks since Start, within ten intervals of the latest one. */
  ghost predicate Due(t: nat, start: nat, now: nat, interval: nat)
    requires interval > 0
  {
    t % interval == 0 && start < t <= now && LastDue(now, interval) - t <= interval * HISTORY_INTERVALS
  }

  /** The running authority: one fold of its log, and a history that holds exactly what it should. */
  ghost predicate Running<S>(g: Game<S>, interval: nat, initial: S, start: nat, a: Authority<S>) {
    && interval > 0 && start <= |a.log| <= U64_MAX
    && g.tickOf(initial) == 0
    && Run(g, initial, a.log) == Ok(a.state)
    && (forall t :: t in a.hashes <==> 0 <= t <= U64_MAX && Due(t, start, |a.log|, interval))
    && (forall t :: t in a.hashes ==>
          StateAt(g, initial, a.log, t).Ok? && a.hashes[t] == g.hashOf(StateAt(g, initial, a.log, t).value))
  }

  /** No client was left unverified for longer than the deadline. */
  ghost predicate OnTime<S>(interval: nat, start: nat, a: Authority<S>) {
    forall id :: id in a.verified ==>
      start <= a.verified[id] <= |a.log| && |a.log| - a.verified[id] <= interval * HISTORY_INTERVALS + 1
  }

  lemma TickIsLength<S>(g: Game<S>, initial: S, log: seq<TickAdvance>)
    requires g.tickOf(initial) == 0 && Run(g, initial, log).Ok?
    ensures g.tickOf(Run(g, initial, log).value) == |log|
    ensures forall i :: 0 <= i < |log| ==> log[i].tick == i + 1
  {
    RunNumbersTicks(g, initial, log);
  }

  lemma StateAtGrows<S>(g: Game<S>, initial: S, log: seq<TickAdvance>, advance: TickAdvance, k: nat)
    requires k <= |log|
    ensures StateAt(g, initial, log + [advance], k) == StateAt(g, initial, log, k)
    ensures StateAt(g, initial, log + [advance], |log| + 1) == Run(g, initial, log + [advance])
  {
    assert (log + [advance])[..k] == log[..k];
    assert (log + [advance])[..|log| + 1] == log + [advance];
  }

  /** Adding and trimming at a due tick keeps exactly the due window. */
  lemma RememberIsExact(hashes: map<u64, u64>, now: nat, start: nat, hash: u64, interval: nat)
    requires interval > 0 && start <= now < U64_MAX
    requires forall t :: t in hashes <==> 0 <= t <= U64_MAX && Due(t, start, now, interval)
    ensures var r := Remember(hashes, now + 1, hash, interval);
      && (forall t :: t in r <==> 0 <= t <= U64_MAX && Due(t, start, now + 1, interval))
      && (forall t :: t in r && t != now + 1 ==> t in hashes && r[t] == hashes[t])
      && (now + 1 in r ==> r[now + 1] == hash)
  {
    LastDueSteps(now, interval);
    var r := Remember(hashes, now + 1, hash, interval);
    forall t | 0 <= t <= U64_MAX ensures t in r <==> Due(t, start, now + 1, interval) {
    }
  }

  lemma HistoryGrows<S>(
      g: Game<S>, interval: nat, initial: S, start: nat, a: Authority<S>, a': Authority<S>, advance: TickAdvance)
    requires Running(g, interval, initial, start, a) && |a.log| < U64_MAX
    requires AdvanceTick(g, a.state, advance) == Ok(a'.state)
    requires a'.log == a.log + [advance]
    requires a'.hashes == Remember(a.hashes, |a.log| + 1, g.hashOf(a'.state), interval)
    ensures Running(g, interval, initial, start, a')
  {
    hide Remember, Run, AdvanceTick, Due;
    RunPush(g, initial, a.log, advance);
    RememberIsExact(a.hashes, |a.log|, start, g.hashOf(a'.state), interval);
    forall k | k in a'.hashes
      ensures k <= |a'.log| && StateAt(g, initial, a'.log, k).Ok?
      ensures a'.hashes[k] == g.hashOf(StateAt(g, initial, a'.log, k).value)
    {
      DueInRange(k, start, |a'.log|, interval);
      StateAtGrows(g, initial, a.log, advance, if k <= |a.log| then k else |a.log|);
    }
  }

  lemma DueInRange(t: nat, start: nat, now: nat, interval: nat)
    requires interval > 0 && Due(t, start, now, interval)
    ensures start < t <= now
  {
  }

  /** The log holds everything executed, and at most one tick that was recorded but failed to execute. */
  ghost predicate LeadsByAtMostOne<S>(g: Game<S>, initial: S, a: Authority<S>) {
    || Run(g, initial, a.log) == Ok(a.state)
    || (a.log != [] && Run(g, initial, a.log[..|a.log| - 1]) == Ok(a.state) && Run(g, initial, a.log).Err?)
  }

  lemma LogLeads<S>(g: Game<S>, interval: nat, initial: S, start: nat, a: Authority<S>, a': Authority<S>,
      advance: TickAdvance)
    requires Running(g, interval, initial, start, a) && a'.log == a.log + [advance]
    requires match AdvanceTick(g, a.state, advance)
             case Ok(s) => a'.state == s
             case Err(_) => a'.state == a.state
    ensures LeadsByAtMostOne(g, initial, a')
  {
    hide Run, AdvanceTick, Due;
    RunPush(g, initial, a.log, advance);
    assert a'.log[..|a'.log| - 1] == a.log;
  }

  /** A successful iteration extends the fold by the broadcast tick and keeps the history exact. */
  lemma ExecuteKeeps<S>(g: Game<S>, interval: nat, initial: S, start: nat, a: Authority<S>, so: Gathered,
      publishes: bool)
    requires Running(g, interval, initial, start, a)
    ensures var t := Execute(g, interval, a, so, publishes);
      && (t.failure.None? ==> t.sent.Some? && Running(g, interval, initial, start, t.authority))
      && (t.sent.Some? ==> t.sent.value.tick == |a.log| + 1 && t.sent.value.inputs == so.inputs)
      && t.authority.log == (if t.sent.Some? then a.log + [t.sent.value] else a.log)
      && t.authority.verified == so.verified - so.dropped && t.dropped == so.dropped
      && (t.sent.Some? ==> LeadsByAtMostOne(g, initial, t.authority))
  {
    hide Encode, Remember, Run, AdvanceTick, Due, LeadsByAtMostOne;
    TickIsLength(g, initial, a.log);
    var t := Execute(g, interval, a, so, publishes);
    if t.sent.Some? {
      LogLeads(g, interval, initial, start, a, t.authority, t.sent.value);
    }
    if t.failure.None? {
      HistoryGrows(g, interval, initial, start, a, t.authority, t.sent.value);
    }
  }

  /** At most eleven fingerprints are ever retained. */
  lemma HistoryIsBounded<S>(g: Game<S>, interval: nat, initial: S, start: nat, a: Authority<S>)
    requires Running(g, interval, initial, start, a)
    ensures |a.hashes| <= HISTORY_INTERVALS + 1
  {
    var last := LastDue(|a.log|, interval);
    var slots := set j: nat | j <= HISTORY_INTERVALS :: last - j * interval;
    assert a.hashes.Keys <= slots by {
      forall t | t in a.hashes ensures t in slots {
        var j := SlotOf(t, |a.log|, interval);
        assert t == last - j * interval;
      }
    }
    SlotCount(last, interval, HISTORY_INTERVALS);
    SubsetCount(a.hashes.Keys, slots);
  }

  lemma {:induction false} SlotOf(t: nat, now: nat, interval: nat) returns (j: nat)
    requires interval > 0 && t <= now && t % interval == 0
    requires LastDue(now, interval) - t <= interval * HISTORY_INTERVALS
    ensures j <= HISTORY_INTERVALS && t == LastDue(now, interval) - j * interval
  {
    DueBeforeLast(t, now, interval);
    var slots: int := now / interval - t / interval;
    assert t == interval * (t / interval) && now == interval * (now / interval) + now % interval;
    assert slots * interval == interval * (now / interval) - interval * (t / interval);
    ProductMonotone(HISTORY_INTERVALS + 1, slots, interval);
    ProductMonotone(slots, -1, interval);
    j := slots;
  }

  lemma {:induction false} SlotCount(last: nat, interval: nat, n: nat)
    ensures |set j: nat | j <= n :: last - j * interval| <= n + 1
  {
    var all := set j: nat | j <= n :: last - j * interval;
    if n == 0 {
      assert all == {last - 0 * interval};
    } else {
      var fewer := set j: nat | j <= n - 1 :: last - j * interval;
      SlotCount(last, interval, n - 1);
      assert all == fewer + {last - n * interval};
    }
  }

  /**
    The retention window fits the deadline: every honest report that is due after a client's last
    verification, and not in the future, is still in the history, and it matches.
  */
  lemma HonestReportMatches<S>(g: Game<S>, interval: nat, initial: S, start: nat, a: Authority<S>, verified: nat,
      report: Report)
    requires Running(g, interval, initial, start, a)
    requires start <= verified <= |a.log| && |a.log| - verified <= interval * HISTORY_INTERVALS + 1
    requires verified < report.tick <= |a.log| && report.tick % interval == 0
    requires StateAt(g, initial, a.log, report.tick).Ok?
    requires report.hash == g.hashOf(StateAt(g, initial, a.log, report.tick).value)
    ensures VerifyHash(report, |a.log|, verified, a.hashes, interval) == Matches
  {
    hide Run;
    assert Due(report.tick, start, |a.log|, interval);
  }

  /** Verification only moves to ticks whose fingerprint the client actually matched. */
  lemma {:induction false} VerifiedByMatch(
      reports: seq<Option<Report>>, current: nat, c: Checked, hashes: map<u64, u64>, policy: Policy, interval: nat)
    requires interval > 0
    ensures var r := CheckReports(reports, current, c, hashes, policy, interval);
      r.Ok? ==>
        && c.verified <= r.value.verified
        && (r.value.verified == c.verified
            || (r.value.verified <= current && r.value.verified in hashes
                && exists i :: 0 <= i < |reports|
                     && reports[i] == Some(Report(r.value.verified, hashes[r.value.verified]))))
    decreases |reports|
  {
    if reports != [] {
      var verdict :=
        if reports[0].None? then Invalid else VerifyHash(reports[0].value, current, c.verified, hashes, interval);
      if !(verdict == Mismatch && policy == FailFast) {
        var c' := if verdict == Matches then c.(verified := reports[0].value.tick) else c.(dropped := true);
        VerifiedByMatch(reports[1..], current, c', hashes, policy, interval);
        var r := CheckReports(reports[1..], current, c', hashes, policy, interval);
        if r.Ok? && r.value.verified != c'.verified {
          var i :| 0 <= i < |reports[1..]|
            && reports[1..][i] == Some(Report(r.value.verified, hashes[r.value.verified]));
          assert reports[i + 1] == reports[1..][i];
        } else if verdict == Matches {
          assert reports[0] == Some(Report(c'.verified, hashes[c'.verified]));
        }
      }
    }
  }

  /** A report that contradicts a retained fingerprint. */
  predicate Contradicts(report: Report, current: nat, hashes: map<u64, u64>, interval: nat)
    requires interval > 0
  {
    report.tick <= current && report.tick % interval == 0 && report.tick in hashes && hashes[report.tick] != report.hash
  }

  /** A desync exit needs the fail-fast policy and a report that contradicts a retained fingerprint. */
  lemma {:induction false} DesyncIsAContradiction(
      reports: seq<Option<Report>>, current: nat, c: Checked, hashes: map<u64, u64>, policy: Policy, interval: nat)
    requires interval > 0
    ensures CheckReports(reports, current, c, hashes, policy, interval).Err? ==>
      && CheckReports(reports, current, c, hashes, policy, interval).error == Desynced && policy == FailFast
      && exists i :: 0 <= i < |reports| && reports[i].Some? && Contradicts(reports[i].value, current, hashes, interval)
    decreases |reports|
  {
    if reports != [] && CheckReports(reports, current, c, hashes, policy, interval).Err? {
      var verdict :=
        if reports[0].None? then Invalid else VerifyHash(reports[0].value, current, c.verified, hashes, interval);
      if verdict == Mismatch && policy == FailFast {
        assert reports[0].Some? && Contradicts(reports[0].value, current, hashes, interval);
      } else {
        var c' := if verdict == Matches then c.(verified := reports[0].value.tick) else c.(dropped := true);
        DesyncIsAContradiction(reports[1..], current, c', hashes, policy, interval);
        var i :| 0 <= i < |reports[1..]| && reports[1..][i].Some?
          && Contradicts(reports[1..][i].value, current, hashes, interval);
        assert reports[i + 1] == reports[1..][i];
      }
    }
  }

  // ----- What a report costs or earns, exactly -----

  /** A well-formed report of a due tick that is retained, with the retained fingerprint. */
  predicate Confirms(report: Option<Report>, current: nat, hashes: map<u64, u64>, interval: nat)
    requires interval > 0
  {
    && report.Some? && report.value.tick <= current && report.value.tick % interval == 0
    && report.value.tick in hashes && hashes[report.value.tick] == report.value.hash
  }

  /** Every report confirms a tick, each a later one than the last, and all later than `verified`. */
  ghost predicate AllConfirm(
      reports: seq<Option<Report>>, current: nat, verified: nat, hashes: map<u64, u64>, interval: nat)
    requires interval > 0
  {
    && (forall i :: 0 <= i < |reports| ==>
          Confirms(reports[i], current, hashes, interval) && verified < reports[i].value.tick)
    && forall i, j :: 0 <= i < j < |reports| ==> reports[i].value.tick < reports[j].value.tick
  }

  /** Report `i` contradicts a retained fingerprint newer than anything confirmed before it. */
  ghost predicate OffendsAt(
      reports: seq<Option<Report>>, current: nat, verified: nat, hashes: map<u64, u64>, interval: nat, i: nat)
    requires interval > 0
  {
    && i < |reports| && reports[i].Some? && Contradicts(reports[i].value, current, hashes, interval)
    && verified < reports[i].value.tick
    && forall j :: 0 <= j < i && Confirms(reports[j], current, hashes, interval) ==>
        reports[j].value.tick < reports[i].value.tick
  }

  ghost predicate Offends(
      reports: seq<Option<Report>>, current: nat, verified: nat, hashes: map<u64, u64>, interval: nat)
    requires interval > 0
  {
    exists i: nat :: OffendsAt(reports, current, verified, hashes, interval, i)
  }

  function LastTick(reports: seq<Option<Report>>, verified: u64): u64
    requires forall i :: 0 <= i < |reports| ==> reports[i].Some?
  {
    if reports == [] then verified else reports[|reports| - 1].value.tick
  }

  lemma FirstReport(report: Option<Report>, current: nat, verified: nat, hashes: map<u64, u64>, interval: nat)
    requires interval > 0
    ensures var verdict :=
      if report.None? then Invalid else VerifyHash(report.value, current, verified, hashes, interval);
      && (verdict == Matches <==> Confirms(report, current, hashes, interval) && verified < report.value.tick)
      && (verdict == Mismatch <==>
            report.Some? && Contradicts(report.value, current, hashes, interval) && verified < report.value.tick)
  {
  }

  /**
    A client stays exactly when every one of its reports confirms a tick, in ascending order beyond
    the tick verified before; then the last of them is the verified one. Anything malformed, stale,
    from the future, not due, outside the history or contradicting it costs the client its place.
  */
  lemma {:induction false} KeptExactly(
      reports: seq<Option<Report>>, current: nat, c: Checked, hashes: map<u64, u64>, policy: Policy, interval: nat)
    requires interval > 0
    ensures var r := CheckReports(reports, current, c, hashes, policy, interval);
      && (r.Ok? && !r.value.dropped <==>
            !c.dropped && AllConfirm(reports, current, c.verified, hashes, interval))
      && (r.Ok? && !r.value.dropped ==> r.value.verified == LastTick(reports, c.verified))
    decreases |reports|
  {
    hide VerifyHash, Confirms, Contradicts;
    if reports != [] {
      var rest := reports[1..];
      FirstReport(reports[0], current, c.verified, hashes, interval);
      var verdict :=
        if reports[0].None? then Invalid else VerifyHash(reports[0].value, current, c.verified, hashes, interval);
      assert forall i :: 0 <= i < |rest| ==> rest[i] == reports[i + 1];
      assert forall i :: 0 < i < |reports| ==> reports[i] == rest[i - 1];
      if !(verdict == Mismatch && policy == FailFast) {
        var c' := if verdict == Matches then c.(verified := reports[0].value.tick) else c.(dropped := true);
        KeptExactly(rest, current, c', hashes, policy, interval);
      }
    }
  }

  /** A desync ends the session exactly under fail-fast, over a contradiction that is read as news. */
  lemma {:induction false} DesyncExactly(
      reports: seq<Option<Report>>, current: nat, c: Checked, hashes: map<u64, u64>, policy: Policy, interval: nat)
    requires interval > 0
    ensures CheckReports(reports, current, c, hashes, policy, interval) == Err(Desynced)
       <==> policy == FailFast && Offends(reports, current, c.verified, hashes, interval)
    ensures CheckReports(reports, current, c, hashes, policy, interval).Err? ==>
      CheckReports(reports, current, c, hashes, policy, interval).error == Desynced
    decreases |reports|
  {
    hide VerifyHash, Confirms, Contradicts, OffendsAt;
    if reports != [] {
      var rest := reports[1..];
      FirstReport(reports[0], current, c.verified, hashes, interval);
      var verdict :=
        if reports[0].None? then Invalid else VerifyHash(reports[0].value, current, c.verified, hashes, interval);
      if verdict == Mismatch {
        assert OffendsAt(reports, current, c.verified, hashes, interval, 0) by {
          OffendsFirst(reports, current, c.verified, hashes, interval);
        }
      }
      if !(verdict == Mismatch && policy == FailFast) {
        var c' := if verdict == Matches then c.(verified := reports[0].value.tick) else c.(dropped := true);
        DesyncExactly(rest, current, c', hashes, policy, interval);
        if policy == FailFast {
          OffendsLater(reports, current, c.verified, c'.verified, hashes, interval);
        }
      }
    } else if Offends(reports, current, c.verified, hashes, interval) {
      var i: nat :| OffendsAt(reports, current, c.verified, hashes, interval, i);
      NoOffenceInNothing(current, c.verified, hashes, interval, i);
    }
  }

  lemma OffendsFirst(reports: seq<Option<Report>>, current: nat, verified: nat, hashes: map<u64, u64>, interval: nat)
    requires interval > 0 && reports != [] && reports[0].Some?
    requires Contradicts(reports[0].value, current, hashes, interval) && verified < reports[0].value.tick
    ensures OffendsAt(reports, current, verified, hashes, interval, 0)
  {
  }

  lemma NoOffenceInNothing(current: nat, verified: nat, hashes: map<u64, u64>, interval: nat, i: nat)
    requires interval > 0
    ensures !OffendsAt([], current, verified, hashes, interval, i)
  {
  }

  /** After a first report that is no news of a contradiction, the others offend exactly as before. */
  lemma OffendsLater(reports: seq<Option<Report>>, current: nat, verified: nat, verified': nat,
      hashes: map<u64, u64>, interval: nat)
    requires interval > 0 && reports != []
    requires verified' ==
      if Confirms(reports[0], current, hashes, interval) && verified < reports[0].value.tick
      then reports[0].value.tick else verified
    requires !(reports[0].Some? && Contradicts(reports[0].value, current, hashes, interval)
               && verified < reports[0].value.tick)
    ensures Offends(reports, current, verified, hashes, interval)
       <==> Offends(reports[1..], current, verified', hashes, interval)
  {
    hide Contradicts;
    var rest := reports[1..];
    assert forall i :: 0 <= i < |rest| ==> rest[i] == reports[i + 1];
    if Offends(reports, current, verified, hashes, interval) {
      var i: nat :| OffendsAt(reports, current, verified, hashes, interval, i);
      assert OffendsAt(rest, current, verified', hashes, interval, i - 1);
    }
    if Offends(rest, current, verified', hashes, interval) {
      var i: nat :| OffendsAt(rest, current, verified', hashes, interval, i);
      forall j | 0 <= j < i + 1 && Confirms(reports[j], current, hashes, interval)
        ensures reports[j].value.tick < reports[i + 1].value.tick
      {
        if j > 0 {
          assert reports[j] == rest[j - 1];
        }
      }
      assert OffendsAt(reports, current, verified, hashes, interval, i + 1);
    }
  }

  // ----- A whole iteration -----

  /** Admission bounds payloads, as `Adapter::validate_command` does. */
  ghost predicate Bounded<S>(g: Game<S>) {
    forall payload :: g.accepts(payload) ==> |payload| <= MAX_PAYLOAD_BYTES
  }

  lemma {:induction false} AcceptedAreAdmitted<S>(g: Game<S>, messages: seq<Option<ClientMessage>>)
    ensures forall i :: 0 <= i < |Accepted(g, messages)| ==> g.accepts(Accepted(g, messages)[i])
    decreases |messages|
  {
    if messages != [] && messages[0].Some? && messages[0].value.Input? && g.accepts(messages[0].value.payload) {
      AcceptedAreAdmitted(g, messages[1..]);
    }
  }

  lemma {:induction false} RemoteCommandsFit<S>(g: Game<S>, order: seq<u64>, mails: map<u64, Mail>, served: set<u64>)
    requires forall id :: id in order ==> id in mails
    requires Bounded(g)
    ensures PayloadsFit(RemoteCommands(g, order, mails, served))
  {
    hide Accepted;
    if order != [] {
      AcceptedAreAdmitted(g, mails[order[0]].messages);
      RemoteCommandsFit(g, order[1..], mails, served);
    }
  }

  /** The inputs of one tick: remote commands in serving order, then the host's. */
  function Inputs<S>(g: Game<S>, order: seq<u64>, mails: map<u64, Mail>, served: set<u64>,
      local: seq<seq<byte>>): seq<Command>
    requires forall id :: id in order ==> id in mails
  {
    RemoteCommands(g, order, mails, served) + Commands(Host, local)
  }

  ghost predicate AllRemote(commands: seq<Command>) {
    forall i :: 0 <= i < |commands| ==> commands[i].participant.Remote?
  }

  lemma RemoteTogether(xs: seq<Command>, ys: seq<Command>)
    requires AllRemote(xs) && AllRemote(ys)
    ensures AllRemote(xs + ys)
  {
  }

  lemma HostIsNotRemote(xs: seq<Command>, ys: seq<Command>, i: nat)
    requires AllRemote(xs) && i < |xs + ys| && (xs + ys)[i].participant.Host?
    ensures |xs| <= i
  {
  }

  lemma {:induction false} RemoteOnly<S>(g: Game<S>, order: seq<u64>, mails: map<u64, Mail>, served: set<u64>)
    requires forall id :: id in order ==> id in mails
    ensures AllRemote(RemoteCommands(g, order, mails, served))
  {
    hide Accepted;
    if order != [] {
      RemoteOnly(g, order[1..], mails, served);
      var first := FirstCommands(g, order[0], mails[order[0]], served);
      assert AllRemote(first);
      RemoteTogether(first, RemoteCommands(g, order[1..], mails, served));
    }
  }

  /** In every tick the clients' commands come before the host's. */
  lemma HostComesLast<S>(g: Game<S>, order: seq<u64>, mails: map<u64, Mail>, served: set<u64>,
      local: seq<seq<byte>>, i: nat, j: nat)
    requires forall id :: id in order ==> id in mails
    requires i < j < |Inputs(g, order, mails, served, local)|
    requires Inputs(g, order, mails, served, local)[i].participant.Host?
    ensures Inputs(g, order, mails, served, local)[j].participant.Host?
  {
    hide RemoteCommands;
    RemoteOnly(g, order, mails, served);
    HostIsNotRemote(RemoteCommands(g, order, mails, served), Commands(Host, local), i);
  }

  /** What gathering yields when it does not end the session. */
  ghost predicate GatheredAll<S>(
      g: Game<S>, interval: nat, policy: Policy, a: Authority<S>, order: seq<u64>, mails: map<u64, Mail>,
      local: seq<seq<byte>>, r: Gathered)
    requires interval > 0
    requires forall id :: id in order ==> id in mails
  {
    && r.inputs == Inputs(g, order, mails, a.verified.Keys, local)
    && Charge(r.inputs) <= MAX_REPLAY_RECORD_BYTES
    && r.verified.Keys == a.verified.Keys && r.dropped <= a.verified.Keys
    && (forall i :: 0 <= i < |local| ==> g.accepts(local[i]))
    && forall id :: id in a.verified && id in order ==>
        var verdict := ClientVerdict(g, interval, policy, a, a.verified[id], mails[id]);
        && verdict.Ok? && r.verified[id] == verdict.value.verified
        && (id in r.dropped <==> verdict.value.dropped)
  }

  lemma GatherIsExact<S>(
      g: Game<S>, interval: nat, policy: Policy, a: Authority<S>, order: seq<u64>, mails: map<u64, Mail>,
          local: seq<seq<byte>>)
    requires interval > 0
    requires forall id :: id in order ==> id in mails
    requires NoDuplicates(order)
    ensures var r := Gather(g, interval, policy, a, order, mails, local);
      r.Ok? ==> GatheredAll(g, interval, policy, a, order, mails, local, r.value)
  {
    hide ClientVerdict, Charge, ServeClients, TakeLocal, RemoteCommands;
    var nothing := Gathered([], a.verified, {});
    assert Charge([]) == 0 by {
      NothingCharged();
    }
    ServedClients(g, interval, policy, a, order, mails, nothing);
    var remote := ServeClients(g, interval, policy, a, order, mails, nothing);
    if remote.Ok? {
      assert [] + RemoteCommands(g, order, mails, a.verified.Keys) == RemoteCommands(g, order, mails, a.verified.Keys);
      TakenLocal(g, local, remote.value.inputs);
    }
  }

  lemma NothingCharged()
    ensures Charge([]) == 0
  {
  }

  /** A tick that was gathered always fits the envelope, the log and both decoders. */
  lemma GatheredTickFits<S>(
      g: Game<S>, interval: nat, policy: Policy, a: Authority<S>, order: seq<u64>, mails: map<u64, Mail>,
      local: seq<seq<byte>>, r: Gathered, tick: u64)
    requires interval > 0 && Bounded(g)
    requires forall id :: id in order ==> id in mails
    requires GatheredAll(g, interval, policy, a, order, mails, local, r)
    ensures var t := TickAdvance(tick, r.inputs);
      && |Encode(OfServer(Tick(t)))| <= MAX_REPLAY_RECORD_BYTES
      && Recordable(t)
      && Decode(ServerKind, Encode(OfServer(Tick(t)))) == Ok(OfServer(Tick(t)))
  {
    hide Charge, Encode, Decode, EncodeTick, ClientVerdict, RemoteCommands;
    RemoteCommandsFit(g, order, mails, a.verified.Keys);
    ChargedTickFits(TickAdvance(tick, r.inputs));
  }

  /** A surviving client's verification is recent, and came from a match or from Start. */
  lemma SurvivorIsOnTime<S>(g: Game<S>, interval: nat, policy: Policy, a: Authority<S>, verified: u64, mail: Mail)
    requires interval > 0 && verified <= g.tickOf(a.state)
    ensures var r := ClientVerdict(g, interval, policy, a, verified, mail);
      r.Ok? ==>
        && verified <= r.value.verified <= g.tickOf(a.state)
        && (!r.value.dropped ==> g.tickOf(a.state) - r.value.verified <= interval * HISTORY_INTERVALS)
  {
    hide CheckReports, Accepted;
    VerifiedByMatch(mail.reports, g.tickOf(a.state), Checked(verified, false), a.hashes, policy, interval);
  }

  /** Every client that had an entry was judged by its own mail alone. */
  ghost predicate JudgedAlone<S>(
      g: Game<S>, interval: nat, policy: Policy, a: Authority<S>, mails: map<u64, Mail>, dropped: set<u64>,
          verified: map<u64, u64>)
    requires interval > 0
    requires forall id :: id in a.verified ==> id in mails
  {
    && dropped <= a.verified.Keys && verified.Keys == a.verified.Keys - dropped
    && forall id :: id in a.verified ==>
        var verdict := ClientVerdict(g, interval, policy, a, a.verified[id], mails[id]);
        && verdict.Ok? && (id in dropped <==> verdict.value.dropped)
        && (id !in dropped ==> verified[id] == verdict.value.verified)
  }

  lemma GatherJudges<S>(
      g: Game<S>, interval: nat, policy: Policy, a: Authority<S>, order: seq<u64>, mails: map<u64, Mail>,
      local: seq<seq<byte>>, r: Gathered)
    requires interval > 0
    requires forall id :: id in order ==> id in mails
    requires forall id :: id in a.verified ==> id in order
    requires GatheredAll(g, interval, policy, a, order, mails, local, r)
    ensures JudgedAlone(g, interval, policy, a, mails, r.dropped, r.verified - r.dropped)
  {
    hide ClientVerdict, Charge, RemoteCommands;
  }

  lemma SurvivorsAreOnTime<S>(
      g: Game<S>, interval: nat, policy: Policy, start: nat, a: Authority<S>, mails: map<u64, Mail>,
      dropped: set<u64>, verified: map<u64, u64>)
    requires interval > 0 && g.tickOf(a.state) == |a.log| && OnTime(interval, start, a)
    requires forall id :: id in a.verified ==> id in mails
    requires JudgedAlone(g, interval, policy, a, mails, dropped, verified)
    ensures forall id :: id in verified ==>
      start <= verified[id] <= |a.log| && |a.log| - verified[id] <= interval * HISTORY_INTERVALS
  {
    hide ClientVerdict;
    forall id | id in verified
      ensures start <= verified[id] <= |a.log| && |a.log| - verified[id] <= interval * HISTORY_INTERVALS
    {
      SurvivorIsOnTime(g, interval, policy, a, a.verified[id], mails[id]);
    }
  }

  /** One iteration, as the rest of the session sees it. */
  ghost predicate TurnKeeps<S>(
      g: Game<S>, interval: nat, policy: Policy, initial: S, start: nat, a: Authority<S>,
      order: seq<u64>, mails: map<u64, Mail>, local: seq<seq<byte>>, t: Turn<S>)
    requires interval > 0
    requires forall id :: id in order ==> id in mails
    requires forall id :: id in a.verified ==> id in order
  {
    && (t.failure.None? ==>
          && t.sent.Some? && Running(g, interval, initial, start, t.authority) && OnTime(interval, start, t.authority)
          && |t.authority.hashes| <= HISTORY_INTERVALS + 1)
    && (t.sent.None? ==> t.failure.Some? && t.authority.log == a.log)
    && (t.sent.Some? ==>
          && t.sent.value.tick == |a.log| + 1 && Recordable(t.sent.value)
          && t.sent.value.inputs == Inputs(g, order, mails, a.verified.Keys, local)
          && t.authority.log == a.log + [t.sent.value]
          && LeadsByAtMostOne(g, initial, t.authority)
          && JudgedAlone(g, interval, policy, a, mails, t.dropped, t.authority.verified))
  }

  lemma LiveTurnKeeps<S>(
      g: Game<S>, interval: nat, policy: Policy, initial: S, start: nat, a: Authority<S>,
      order: seq<u64>, mails: map<u64, Mail>, local: seq<seq<byte>>, publishes: bool)
    requires interval > 0 && Running(g, interval, initial, start, a) && OnTime(interval, start, a) && Bounded(g)
    requires forall id :: id in order ==> id in mails
    requires NoDuplicates(order) && forall id :: id in a.verified ==> id in order
    ensures TurnKeeps(g, interval, policy, initial, start, a, order, mails, local,
              LiveTurn(g, interval, policy, a, order, mails, local, publishes))
  {
    hide Running, OnTime, LeadsByAtMostOne, Gather, Execute, ClientVerdict, JudgedAlone, GatheredAll, Inputs,
        RemoteCommands, Recordable, Encode, Decode, Run;
    var so := Gather(g, interval, policy, a, order, mails, local);
    if so.Ok? {
      GatherIsExact(g, interval, policy, a, order, mails, local);
      GatherJudges(g, interval, policy, a, order, mails, local, so.value);
      StateTick(g, interval, initial, start, a);
      ExecuteKeeps(g, interval, initial, start, a, so.value, publishes);
      var t := Execute(g, interval, a, so.value, publishes);
      if t.sent.Some? {
        GatheredTickFits(g, interval, policy, a, order, mails, local, so.value, t.sent.value.tick);
        assert so.value.inputs == Inputs(g, order, mails, a.verified.Keys, local) by {
          GatheredInputs(g, interval, policy, a, order, mails, local, so.value);
        }
      }
      if t.failure.None? {
        HistoryIsBounded(g, interval, initial, start, t.authority);
        SurvivorsAreOnTime(g, interval, policy, start, a, mails, so.value.dropped, t.authority.verified);
        OnTimeAfterTick(interval, start, a, t.authority);
      }
    }
  }

  lemma OnTimeAfterTick<S>(interval: nat, start: nat, a: Authority<S>, a': Authority<S>)
    requires |a'.log| == |a.log| + 1
    requires forall id :: id in a'.verified ==>
      start <= a'.verified[id] <= |a.log| && |a.log| - a'.verified[id] <= interval * HISTORY_INTERVALS
    ensures OnTime(interval, start, a')
  {
  }

  lemma GatheredInputs<S>(
      g: Game<S>, interval: nat, policy: Policy, a: Authority<S>, order: seq<u64>, mails: map<u64, Mail>,
      local: seq<seq<byte>>, r: Gathered)
    requires interval > 0
    requires forall id :: id in order ==> id in mails
    requires GatheredAll(g, interval, policy, a, order, mails, local, r)
    ensures r.inputs == Inputs(g, order, mails, a.verified.Keys, local)
  {
  }

  lemma StateTick<S>(g: Game<S>, interval: nat, initial: S, start: nat, a: Authority<S>)
    requires Running(g, interval, initial, start, a)
    ensures g.tickOf(a.state) == |a.log| && Run(g, initial, a.log) == Ok(a.state)
  {
    TickIsLength(g, initial, a.log);
  }

  // ----- When an iteration succeeds -----

  lemma {:induction false} TakingSucceedsExactly<S>(g: Game<S>, id: u64, messages: seq<Option<ClientMessage>>,
      inputs: seq<Command>)
    requires Charge(inputs) <= MAX_REPLAY_RECORD_BYTES
    ensures TakeCommands(g, id, messages, inputs).Ok?
       <==> Charge(inputs + Commands(Remote(id), Accepted(g, messages))) <= MAX_REPLAY_RECORD_BYTES
    decreases |messages|
  {
    hide Charge;
    if messages == [] || messages[0].None? || !messages[0].value.Input? || !g.accepts(messages[0].value.payload) {
      assert inputs + Commands(Remote(id), []) == inputs;
    } else {
      var c := Command(Remote(id), messages[0].value.payload);
      var later := Commands(Remote(id), Accepted(g, messages[1..]));
      ChargeAppend(inputs, c);
      assert Commands(Remote(id), Accepted(g, messages)) == [c] + later;
      Regroup(inputs, [c], later);
      ChargeJoins(inputs + [c], later);
      if Affordable(inputs, c.payload) {
        TakingSucceedsExactly(g, id, messages[1..], inputs + [c]);
      }
    }
  }

  lemma {:induction false} TakingLocalSucceedsExactly<S>(g: Game<S>, local: seq<seq<byte>>, inputs: seq<Command>)
    requires Charge(inputs) <= MAX_REPLAY_RECORD_BYTES
    ensures TakeLocal(g, local, inputs).Ok? <==>
      && Charge(inputs + Commands(Host, local)) <= MAX_REPLAY_RECORD_BYTES
      && forall i :: 0 <= i < |local| ==> g.accepts(local[i])
    decreases |local|
  {
    hide Charge;
    if local == [] {
      assert inputs + Commands(Host, []) == inputs;
    } else {
      var c := Command(Host, local[0]);
      var later := Commands(Host, local[1..]);
      ChargeAppend(inputs, c);
      assert Commands(Host, local) == [c] + later;
      Regroup(inputs, [c], later);
      ChargeJoins(inputs + [c], later);
      assert forall i :: 0 < i < |local| ==> local[i] == local[1..][i - 1];
      if Affordable(inputs, local[0]) {
        TakingLocalSucceedsExactly(g, local[1..], inputs + [c]);
        assert TakeLocal(g, local, inputs).Ok? <==> g.accepts(local[0]) && TakeLocal(g, local[1..], inputs + [c]).Ok?;
        assert (forall i :: 0 <= i < |local| ==> g.accepts(local[i])) <==>
            g.accepts(local[0]) && forall i :: 0 <= i < |local| - 1 ==> g.accepts(local[1..][i]);
      }
    }
  }

  /** A message that is an admissible command. */
  predicate Acceptable<S>(g: Game<S>, message: Option<ClientMessage>) {
    message.Some? && message.value.Input? && g.accepts(message.value.payload)
  }

  /** What is accepted is every command before the first message that is none, and nothing after it. */
  lemma {:induction false} AcceptedIsTheFront<S>(g: Game<S>, messages: seq<Option<ClientMessage>>)
    ensures var n := |Accepted(g, messages)|;
      && n <= |messages| && (n < |messages| ==> !Acceptable(g, messages[n]))
      && forall i :: 0 <= i < n ==>
          Acceptable(g, messages[i]) && Accepted(g, messages)[i] == messages[i].value.payload
    decreases |messages|
  {
    if messages != [] && Acceptable(g, messages[0]) {
      AcceptedIsTheFront(g, messages[1..]);
      var later := Accepted(g, messages[1..]);
      assert forall i :: 0 < i <= |later| ==>
        Accepted(g, messages)[i] == later[i - 1] && messages[i] == messages[1..][i - 1];
    }
  }

  /** Every served client's own reports verify, or at least do not end the session. */
  ghost predicate NoDesync<S>(g: Game<S>, interval: nat, policy: Policy, a: Authority<S>, verified: map<u64, u64>,
      order: seq<u64>, mails: map<u64, Mail>)
    requires interval > 0
    requires forall id :: id in order ==> id in mails
  {
    forall id :: id in order && id in verified ==> ClientVerdict(g, interval, policy, a, verified[id], mails[id]).Ok?
  }

  lemma ServingOneSucceedsExactly<S>(g: Game<S>, interval: nat, policy: Policy, a: Authority<S>, id: u64, mail: Mail,
      so: Gathered)
    requires interval > 0 && id in so.verified && Charge(so.inputs) <= MAX_REPLAY_RECORD_BYTES
    ensures ServeClient(g, interval, policy, a, id, mail, so).Ok? <==>
      && Charge(so.inputs + Commands(Remote(id), Accepted(g, mail.messages))) <= MAX_REPLAY_RECORD_BYTES
      && ClientVerdict(g, interval, policy, a, so.verified[id], mail).Ok?
  {
    hide Charge, CheckReports, Accepted, TakeCommands, Commands;
    TakingSucceedsExactly(g, id, mail.messages, so.inputs);
  }

  lemma {:induction false} ServingSucceedsExactly<S>(
      g: Game<S>, interval: nat, policy: Policy, a: Authority<S>, order: seq<u64>, mails: map<u64, Mail>, so: Gathered)
    requires interval > 0 && NoDuplicates(order) && Charge(so.inputs) <= MAX_REPLAY_RECORD_BYTES
    requires forall id :: id in order ==> id in mails
    ensures ServeClients(g, interval, policy, a, order, mails, so).Ok? <==>
      && Charge(so.inputs + RemoteCommands(g, order, mails, so.verified.Keys)) <= MAX_REPLAY_RECORD_BYTES
      && NoDesync(g, interval, policy, a, so.verified, order, mails)
    decreases |order|
  {
    hide ClientVerdict, ServeClient, Charge, Accepted, Commands;
    if order == [] {
      assert so.inputs + [] == so.inputs;
    } else {
      var (id, rest) := (order[0], order[1..]);
      assert id !in rest && forall x :: x in order <==> x == id || x in rest;
      var others := RemoteCommands(g, rest, mails, so.verified.Keys);
      if id !in so.verified {
        ServingSucceedsExactly(g, interval, policy, a, rest, mails, so);
        assert [] + others == others;
      } else {
        var mine := Commands(Remote(id), Accepted(g, mails[id].messages));
        ServingOneSucceedsExactly(g, interval, policy, a, id, mails[id], so);
        Regroup(so.inputs, mine, others);
        ChargeJoins(so.inputs + mine, others);
        var first := ServeClient(g, interval, policy, a, id, mails[id], so);
        if first.Ok? {
          ServedClient(g, interval, policy, a, id, mails[id], so);
          assert first.value.verified.Keys == so.verified.Keys;
          ServingSucceedsExactly(g, interval, policy, a, rest, mails, first.value);
          assert NoDesync(g, interval, policy, a, so.verified, order, mails)
            <==> NoDesync(g, interval, policy, a, first.value.verified, rest, mails);
        }
      }
    }
  }

  lemma GatheringSucceedsExactly<S>(
      g: Game<S>, interval: nat, policy: Policy, a: Authority<S>, order: seq<u64>, mails: map<u64, Mail>,
      local: seq<seq<byte>>)
    requires interval > 0 && NoDuplicates(order)
    requires forall id :: id in order ==> id in mails
    ensures Gather(g, interval, policy, a, order, mails, local).Ok? <==>
      && Charge(Inputs(g, order, mails, a.verified.Keys, local)) <= MAX_REPLAY_RECORD_BYTES
      && (forall i :: 0 <= i < |local| ==> g.accepts(local[i]))
      && NoDesync(g, interval, policy, a, a.verified, order, mails)
  {
    hide ClientVerdict, Charge, ServeClients, TakeLocal, RemoteCommands, Commands;
    var nothing := Gathered([], a.verified, {});
    NothingCharged();
    var others := RemoteCommands(g, order, mails, a.verified.Keys);
    assert [] + others == others;
    ServingSucceedsExactly(g, interval, policy, a, order, mails, nothing);
    ChargeJoins(others, Commands(Host, local));
    var remote := ServeClients(g, interval, policy, a, order, mails, nothing);
    if remote.Ok? {
      ServedClients(g, interval, policy, a, order, mails, nothing);
      TakingLocalSucceedsExactly(g, local, remote.value.inputs);
    }
  }

  /**
    An iteration of the live loop succeeds exactly when no client's report ends the session, the host
    submitted only valid commands, the gathered payloads with 32 bytes for each fit 256 KiB, there is
    a next tick, the game executes it, and it is published.
  */
  lemma IterationSucceedsExactly<S>(
      g: Game<S>, interval: nat, policy: Policy, initial: S, start: nat, a: Authority<S>,
      order: seq<u64>, mails: map<u64, Mail>, local: seq<seq<byte>>, publishes: bool)
    requires Running(g, interval, initial, start, a) && Bounded(g) && NoDuplicates(order)
    requires forall id :: id in order ==> id in mails
    ensures var inputs := Inputs(g, order, mails, a.verified.Keys, local);
      LiveTurn(g, interval, policy, a, order, mails, local, publishes).failure.None? <==>
        && (policy == FailFast ==> forall id :: id in order && id in a.verified ==>
              !Offends(mails[id].reports, |a.log|, a.verified[id], a.hashes, interval))
        && (forall i :: 0 <= i < |local| ==> g.accepts(local[i]))
        && PayloadBytes(inputs) + 32 * |inputs| <= 0x4_0000
        && |a.log| < U64_MAX && AdvanceTick(g, a.state, TickAdvance(|a.log| + 1, inputs)).Ok? && publishes
  {
    hide Running, Gather, ClientVerdict, GatheredAll, Inputs, RemoteCommands, Encode, Decode, Charge, AdvanceTick,
        Remember, Recordable, Offends;
    assert interval > 0 by {
      RunsAtAll(g, interval, initial, start, a);
    }
    StateTick(g, interval, initial, start, a);
    var inputs := Inputs(g, order, mails, a.verified.Keys, local);
    ChargeIs(inputs);
    GatheringSucceedsExactly(g, interval, policy, a, order, mails, local);
    forall id | id in order && id in a.verified
      ensures ClientVerdict(g, interval, policy, a, a.verified[id], mails[id]).Ok? <==>
        !(policy == FailFast && Offends(mails[id].reports, |a.log|, a.verified[id], a.hashes, interval))
    {
      VerdictErrsExactly(g, interval, policy, a, a.verified[id], mails[id]);
    }
    var so := Gather(g, interval, policy, a, order, mails, local);
    if so.Ok? {
      GatherIsExact(g, interval, policy, a, order, mails, local);
      GatheredInputs(g, interval, policy, a, order, mails, local, so.value);
      if |a.log| < U64_MAX {
        GatheredTickFits(g, interval, policy, a, order, mails, local, so.value, |a.log| + 1);
      }
    }
  }

  lemma RunsAtAll<S>(g: Game<S>, interval: nat, initial: S, start: nat, a: Authority<S>)
    requires Running(g, interval, initial, start, a)
    ensures interval > 0 && |a.log| <= U64_MAX
  {
  }

  lemma VerdictErrsExactly<S>(g: Game<S>, interval: nat, policy: Policy, a: Authority<S>, verified: u64, mail: Mail)
    requires interval > 0
    ensures ClientVerdict(g, interval, policy, a, verified, mail).Err? <==>
      policy == FailFast && Offends(mail.reports, g.tickOf(a.state), verified, a.hashes, interval)
  {
    hide CheckReports, Accepted, Offends;
    DesyncExactly(mail.reports, g.tickOf(a.state), Checked(verified, false), a.hashes, policy, interval);
  }

  /**
    A client keeps its place in an iteration exactly when every message is an admissible command,
    every report confirms a tick in ascending order beyond the verified one, and the last tick
    verified is at most ten intervals ago.
  */
  lemma PlaceKeptExactly<S>(g: Game<S>, interval: nat, policy: Policy, a: Authority<S>, verified: u64, mail: Mail)
    requires interval > 0
    ensures var (r, now) := (ClientVerdict(g, interval, policy, a, verified, mail), g.tickOf(a.state));
      && (r.Ok? && !r.value.dropped <==>
            && (forall i :: 0 <= i < |mail.messages| ==> Acceptable(g, mail.messages[i]))
            && AllConfirm(mail.reports, now, verified, a.hashes, interval)
            && now <= LastTick(mail.reports, verified) + 10 * interval)
      && (r.Ok? && !r.value.dropped ==> r.value.verified == LastTick(mail.reports, verified))
  {
    hide CheckReports, Accepted, AllConfirm, LastTick;
    KeptExactly(mail.reports, g.tickOf(a.state), Checked(verified, false), a.hashes, policy, interval);
    AcceptedIsTheFront(g, mail.messages);
    if AllConfirm(mail.reports, g.tickOf(a.state), verified, a.hashes, interval) {
      assert forall i :: 0 <= i < |mail.reports| ==> mail.reports[i].Some? by {
        ConfirmedAreThere(mail.reports, g.tickOf(a.state), verified, a.hashes, interval);
      }
    }
  }

  lemma ConfirmedAreThere(
      reports: seq<Option<Report>>, current: nat, verified: nat, hashes: map<u64, u64>, interval: nat)
    requires interval > 0 && AllConfirm(reports, current, verified, hashes, interval)
    ensures forall i :: 0 <= i < |reports| ==> reports[i].Some?
  {
  }

  // ----- The loop itself -----

  /** The state `tick_loop` works on; `log` is what it has broadcast and, if recording, appended. */
  class LiveServer<S> {
    const driver: Driver<S>
    const writer: ReplayWriter?
    const interval: nat
    const policy: Policy
    var log: seq<TickAdvance>
    var hashes: map<u64, u64>
    var verified: map<u64, u64>

    constructor (driver: Driver<S>, writer: ReplayWriter?, interval: nat, policy: Policy, log: seq<TickAdvance>,
        verified: map<u64, u64>)
      ensures this.driver == driver && this.writer == writer && this.interval == interval && this.policy == policy
      ensures AsAuthority() == Authority(driver.state, log, map[], verified)
    {
      this.driver, this.writer, this.interval, this.policy := driver, writer, interval, policy;
      this.log, this.hashes, this.verified := log, map[], verified;
    }

    function AsAuthority(): Authority<S>
      reads this, driver
    {
      Authority(driver.state, log, hashes, verified)
    }

    /** Drain a client's lockstep channel; `used` is the running charge of `account_input`. */
    method DrainCommands(id: u64, messages: seq<Option<ClientMessage>>, before: seq<Command>, used: nat)
      returns (r: Result<Taken, Failure>, charge: nat)
      requires used == Charge(before)
      ensures r == TakeCommands(driver.game, id, messages, before)
      ensures r.Ok? ==> charge == Charge(r.value.inputs)
    {
      hide Charge;
      var inputs := before;
      charge := used;
      var i := 0;
      while i < |messages|
        invariant i <= |messages| && charge == Charge(inputs)
        invariant TakeCommands(driver.game, id, messages, before)
               == TakeCommands(driver.game, id, messages[i..], inputs)
      {
        assert messages[i..][0] == messages[i] && messages[i..][1..] == messages[i + 1..];
        match messages[i] {
          case Some(Input(payload)) =>
            if !driver.game.accepts(payload) {
              return Ok(Taken(inputs, true)), charge;
            }
            if charge + |payload| + 32 > MAX_REPLAY_RECORD_BYTES {
              return Err(OverBudget), charge;
            }
            ChargeAppend(inputs, Command(Remote(id), payload));
            charge := charge + |payload| + 32;
            inputs := inputs + [Command(Remote(id), payload)];
          case _ =>
            return Ok(Taken(inputs, true)), charge;
        }
        i := i + 1;
      }
      r := Ok(Taken(inputs, false));
    }

    method DrainLocal(local: seq<seq<byte>>, before: seq<Command>, used: nat) returns (r: Result<seq<Command>, Failure>)
      requires used == Charge(before)
      ensures r == TakeLocal(driver.game, local, before)
    {
      hide Charge;
      var inputs, charge := before, used;
      var i := 0;
      while i < |local|
        invariant i <= |local| && charge == Charge(inputs)
        invariant TakeLocal(driver.game, local, before) == TakeLocal(driver.game, local[i..], inputs)
      {
        assert local[i..][0] == local[i] && local[i..][1..] == local[i + 1..];
        if !driver.game.accepts(local[i]) {
          return Err(InvalidHostCommand);
        }
        if charge + |local[i]| + 32 > MAX_REPLAY_RECORD_BYTES {
          return Err(OverBudget);
        }
        ChargeAppend(inputs, Command(Host, local[i]));
        charge := charge + |local[i]| + 32;
        inputs := inputs + [Command(Host, local[i])];
        i := i + 1;
      }
      r := Ok(inputs);
    }

    /** Drain a client's verification channel. */
    method VerifyReports(reports: seq<Option<Report>>, current: nat, last: u64) returns (r: Result<Checked, Failure>)
      requires interval > 0
      ensures r == CheckReports(reports, current, Checked(last, false), hashes, policy, interval)
    {
      hide VerifyHash;
      var c := Checked(last, false);
      var i := 0;
      while i < |reports|
        invariant i <= |reports|
        invariant CheckReports(reports, current, Checked(last, false), hashes, policy, interval)
               == CheckReports(reports[i..], current, c, hashes, policy, interval)
      {
        assert reports[i..][0] == reports[i] && reports[i..][1..] == reports[i + 1..];
        var verdict :=
          if reports[i].None? then Invalid else VerifyHash(reports[i].value, current, c.verified, hashes, interval);
        if verdict == Mismatch && policy == FailFast {
          return Err(Desynced);
        }
        c := if verdict == Matches then c.(verified := reports[i].value.tick) else c.(dropped := true);
        i := i + 1;
      }
      r := Ok(c);
    }

    /** One pass over the connected clients. */
    method ServeEach(order: seq<u64>, mails: map<u64, Mail>) returns (r: Result<Gathered, Failure>, charge: nat)
      requires interval > 0
      requires forall id :: id in order ==> id in mails
      modifies `verified
      ensures r == ServeClients(driver.game, interval, policy, old(AsAuthority()), order, mails,
        Gathered([], old(verified), {}))
      ensures r.Ok? ==> verified == r.value.verified && charge == Charge(r.value.inputs)
    {
      hide TakeCommands, CheckReports, Charge;
      ghost var a := AsAuthority();
      var g := driver.game;
      var current := g.tickOf(driver.state);
      var inputs: seq<Command> := [];
      var dropped: set<u64> := {};
      charge := 0;
      NothingCharged();
      var i := 0;
      while i < |order|
        invariant i <= |order| && charge == Charge(inputs)
        invariant AsAuthority() == a.(verified := verified)
        invariant ServeClients(g, interval, policy, a, order, mails, Gathered([], a.verified, {}))
               == ServeClients(g, interval, policy, a, order[i..], mails, Gathered(inputs, verified, dropped))
      {
        var id := order[i];
        assert order[i..][0] == id && order[i..][1..] == order[i + 1..];
        if id in verified {
          var taken;
          taken, charge := DrainCommands(id, mails[id].messages, inputs, charge);
          if taken.Err? {
            return Err(taken.error), charge;
          }
          var checked := VerifyReports(mails[id].reports, current, verified[id]);
          if checked.Err? {
            return Err(checked.error), charge;
          }
          inputs := taken.value.inputs;
          verified := verified[id := checked.value.verified];
          if taken.value.dropped || checked.value.dropped || Overdue(current, checked.value.verified, interval) {
            dropped := dropped + {id};
          }
        }
        i := i + 1;
      }
      r := Ok(Gathered(inputs, verified, dropped));
    }

    /** Keep a due fingerprint and forget what is out of the window. */
    method KeepFingerprint(tick: u64, hash: u64)
      requires interval > 0
      modifies `hashes
      ensures hashes == Remember(old(hashes), tick, hash, interval)
    {
      if tick % interval == 0 {
        hashes := hashes[tick := hash];
        hashes := map t | t in hashes && (tick <= t || tick - t <= interval * HISTORY_INTERVALS) :: hashes[t];
      }
    }

    /** Remote commands, verification, deadlines, then the host's commands. */
    method GatherInputs(order: seq<u64>, mails: map<u64, Mail>, local: seq<seq<byte>>)
      returns (r: Result<Gathered, Failure>)
      requires interval > 0
      requires forall id :: id in order ==> id in mails
      modifies `verified
      ensures r == Gather(driver.game, interval, policy, old(AsAuthority()), order, mails, local)
      ensures r.Ok? ==> verified == r.value.verified
    {
      hide ServeClients, TakeLocal, Charge;
      var remote, charge := ServeEach(order, mails);
      if remote.Err? {
        return Err(remote.error);
      }
      var inputs := DrainLocal(local, remote.value.inputs, charge);
      if inputs.Err? {
        return Err(inputs.error);
      }
      r := Ok(remote.value.(inputs := inputs.value));
    }

    /** Check the envelope, append, broadcast, execute, and keep a due fingerprint, in that order. */
    method ExecuteTick(so: Gathered, publishes: bool) returns (sent: Option<TickAdvance>, failure: Option<Failure>)
      requires interval > 0
      modifies this, driver, writer
      ensures var t := Execute(driver.game, interval, old(AsAuthority()), so, publishes);
        && failure == t.failure && sent == t.sent && log == t.authority.log && verified == t.authority.verified
        && (failure.None? ==> AsAuthority() == t.authority)
        && (sent.None? ==> driver.state == old(driver.state))
      ensures writer != null ==>
        writer.bytes == if sent.Some? then old(writer.bytes) + Frame(sent.value) else old(writer.bytes)
    {
      hide Remember, AdvanceTick, EncodeTick, Frame, HooksEntered;
      var g := driver.game;
      sent, failure := None, None;
      verified := so.verified - so.dropped;
      var current := g.tickOf(driver.state);
      if current == U64_MAX {
        failure := Some(TickExhausted);
        return;
      }
      var advance := TickAdvance(current + 1, so.inputs);
      if |Encode(OfServer(Tick(advance)))| > MAX_REPLAY_RECORD_BYTES {
        failure := Some(OverBudget);
        return;
      }
      if writer != null {
        var appended := writer.Append(advance);
      }
      log := log + [advance];
      sent := Some(advance);
      var ticked := driver.Tick(advance, Playing, publishes);
      if ticked.Err? {
        failure := Some(TickFailed(ticked.error));
        return;
      }
      KeepFingerprint(advance.tick, g.hashOf(driver.state));
    }

    /** One iteration of `tick_loop`. A tick that fails to execute leaves the game's own state unspecified. */
    method Iterate(order: seq<u64>, mails: map<u64, Mail>, local: seq<seq<byte>>, publishes: bool)
      returns (dropped: set<u64>, sent: Option<TickAdvance>, failure: Option<Failure>)
      requires interval > 0
      requires forall id :: id in order ==> id in mails
      modifies this, driver, writer
      ensures var t := LiveTurn(driver.game, interval, policy, old(AsAuthority()), order, mails, local, publishes);
        && failure == t.failure && sent == t.sent && log == t.authority.log && dropped == t.dropped
        && (failure.None? ==> AsAuthority() == t.authority)
        && (sent.None? ==> driver.state == old(driver.state))
      ensures writer != null ==>
        writer.bytes == if sent.Some? then old(writer.bytes) + Frame(sent.value) else old(writer.bytes)
    {
      hide Gather, Execute, Frame;
      ghost var a := AsAuthority();
      var so := GatherInputs(order, mails, local);
      if so.Err? {
        return {}, None, Some(so.error);
      }
      dropped := so.value.dropped;
      ExecuteIgnoresVerified(driver.game, interval, a, verified, so.value, publishes);
      sent, failure := ExecuteTick(so.value, publishes);
    }
  }

  /** Verification ticks enter an executed tick only through what was gathered. */
  lemma ExecuteIgnoresVerified<S>(g: Game<S>, interval: nat, a: Authority<S>, verified: map<u64, u64>,
      so: Gathered, publishes: bool)
    requires interval > 0
    ensures Execute(g, interval, a.(verified := verified), so, publishes) == Execute(g, interval, a, so, publishes)
    ensures Execute(g, interval, a, so, publishes).dropped == so.dropped
  {
    hide Encode, Remember, AdvanceTick;
  }
}

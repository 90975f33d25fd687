/**
  A live replica and the authority's log: what a client comes to by hearing ticks, which
  fingerprints it reports, and why the authority accepts them
  (crates/synctick/src/run_client.rs:111-197, crates/synctick/src/run_server.rs:347-391).
*/
module Following {
  import opened Bytes
  import opened Envelope
  import opened Simulation
  import opened Live
  import opened Replica

  /** The log as broadcast. */
  function Ticks(log: seq<TickAdvance>): seq<ServerMessage> {
    seq(|log|, i requires 0 <= i < |log| => Tick(log[i]))
  }

  /** The honest fingerprint of tick `k`. */
  function ReportAt<S>(g: Game<S>, initial: S, log: seq<TickAdvance>, k: nat): Report
    requires k <= |log| <= U64_MAX
  {
    var s := StateAt(g, initial, log, k);
    Report(k, if s.Ok? then g.hashOf(s.value) else 0)
  }

  /** The reports that are due after tick `from`, up to and including tick `to`. */
  function DueReports<S>(g: Game<S>, interval: nat, initial: S, log: seq<TickAdvance>, from: nat,
      till: nat): seq<Report>
    requires interval > 0 && till <= |log| <= U64_MAX
  {
    if till <= from then []
    else
      var last := if till % interval == 0 then [ReportAt(g, initial, log, till)] else [];
      DueReports(g, interval, initial, log, from, till - 1) + last
  }

  lemma {:induction false} DueReportsJoin<S>(
      g: Game<S>, interval: nat, initial: S, log: seq<TickAdvance>, from: nat, mid: nat, till: nat)
    requires interval > 0 && from <= mid <= till <= |log| <= U64_MAX
    ensures DueReports(g, interval, initial, log, from, mid) + DueReports(g, interval, initial, log, mid, till)
         == DueReports(g, interval, initial, log, from, till)
    decreases till
  {
    hide ReportAt;
    var first := DueReports(g, interval, initial, log, from, mid);
    if mid == till {
      assert first + [] == first;
    } else {
      DueReportsJoin(g, interval, initial, log, from, mid, till - 1);
      var last := if till % interval == 0 then [ReportAt(g, initial, log, till)] else [];
      Regroup(first, DueReports(g, interval, initial, log, mid, till - 1), last);
    }
  }

  /** The first report due says which tick it is for, and the others are those due after it. */
  lemma {:induction false} DueReportsHead<S>(g: Game<S>, interval: nat, initial: S, log: seq<TickAdvance>,
      from: nat, till: nat)
    returns (t: nat)
    requires interval > 0 && till <= |log| <= U64_MAX
    requires DueReports(g, interval, initial, log, from, till) != []
    ensures from < t <= till && t % interval == 0
    ensures DueReports(g, interval, initial, log, from, till)
         == [ReportAt(g, initial, log, t)] + DueReports(g, interval, initial, log, t, till)
    decreases till
  {
    hide ReportAt;
    if DueReports(g, interval, initial, log, from, till - 1) == [] {
      t := till;
      assert [] + [ReportAt(g, initial, log, till)] == [ReportAt(g, initial, log, till)] + [];
    } else {
      t := DueReportsHead(g, interval, initial, log, from, till - 1);
      var last := if till % interval == 0 then [ReportAt(g, initial, log, till)] else [];
      Regroup([ReportAt(g, initial, log, t)], DueReports(g, interval, initial, log, t, till - 1), last);
    }
  }

  lemma StateAtNext<S>(g: Game<S>, initial: S, log: seq<TickAdvance>, k: nat, s: S)
    requires k < |log| && StateAt(g, initial, log, k) == Ok(s)
    ensures StateAt(g, initial, log, k + 1) == AdvanceTick(g, s, log[k])
  {
    hide Run, AdvanceTick;
    RunPush(g, initial, log[..k], log[k]);
    assert log[..k] + [log[k]] == log[..k + 1];
  }

  /** A log that broke once stays broken, with the same error. */
  lemma BrokenStaysBroken<S>(g: Game<S>, initial: S, log: seq<TickAdvance>, k: nat, k': nat)
    requires k <= k' <= |log| && StateAt(g, initial, log, k).Err?
    ensures StateAt(g, initial, log, k') == StateAt(g, initial, log, k)
  {
    hide Run;
    assert log[..k'] == log[..k] + log[k..k'];
    RunAppend(g, initial, log[..k], log[k..k']);
  }

  lemma StateAtTick<S>(g: Game<S>, initial: S, log: seq<TickAdvance>, k: nat)
    requires g.tickOf(initial) == 0 && k <= |log| && StateAt(g, initial, log, k).Ok?
    ensures g.tickOf(StateAt(g, initial, log, k).value) == k
    ensures forall i :: 0 <= i < k ==> log[i].tick == i + 1
  {
    TickIsLength(g, initial, log[..k]);
    assert forall i :: 0 <= i < k ==> log[..k][i] == log[i];
  }

  /** Hearing ticks `k + 1` to `to` comes to the state of tick `to` and reports exactly what is due on the way. */
  ghost predicate HeardOn<S>(
      g: Game<S>, interval: nat, initial: S, log: seq<TickAdvance>, k: nat, till: nat, publishes: bool,
      c: Client<S>, r: Result<Heard<S>, ClientError>)
    requires interval > 0 && k <= till <= |log| <= U64_MAX
  {
    var s := StateAt(g, initial, log, till);
    && (r.Ok? ==> s.Ok? && r.value == Heard(c.(sim := Some(s.value)), DueReports(g, interval, initial, log, k, till)))
    && (publishes ==> if s.Ok? then r.Ok? else r == Err(TickRefused(s.error)))
  }

  lemma {:induction false} HearTicks<S>(
      g: Game<S>, interval: nat, initial: S, log: seq<TickAdvance>, k: nat, till: nat, publishes: bool, c: Client<S>)
    requires interval > 0 && k <= till <= |log| <= U64_MAX && g.tickOf(initial) == 0
    requires c.startup.phase.Live? && c.sim.Some? && StateAt(g, initial, log, k) == Ok(c.sim.value)
    ensures var heard := HearAll(g, interval, c, Ticks(log[k..till]), publishes);
      HeardOn(g, interval, initial, log, k, till, publishes, c, heard)
    decreases till - k
  {
    hide StateAt, DueReports, ReportAt, AdvanceTick;
    var downs := Ticks(log[k..till]);
    if k == till {
      assert DueReports(g, interval, initial, log, k, till) == [] by {
        NothingDue(g, interval, initial, log, k);
      }
    } else {
      assert downs[0] == Tick(log[k]) && downs[1..] == Ticks(log[k + 1..till]);
      StateAtNext(g, initial, log, k, c.sim.value);
      var next := StateAt(g, initial, log, k + 1);
      if next.Err? {
        BrokenStaysBroken(g, initial, log, k + 1, till);
      } else {
        OneDue(g, interval, initial, log, k);
        StateAtTick(g, initial, log, k + 1);
        DueReportsJoin(g, interval, initial, log, k, k + 1, till);
        HearTicks(g, interval, initial, log, k + 1, till, publishes, c.(sim := Some(next.value)));
      }
    }
  }

  lemma NothingDue<S>(g: Game<S>, interval: nat, initial: S, log: seq<TickAdvance>, k: nat)
    requires interval > 0 && k <= |log| <= U64_MAX
    ensures DueReports(g, interval, initial, log, k, k) == []
  {
  }

  lemma OneDue<S>(g: Game<S>, interval: nat, initial: S, log: seq<TickAdvance>, k: nat)
    requires interval > 0 && k < |log| <= U64_MAX && StateAt(g, initial, log, k + 1).Ok?
    ensures DueReports(g, interval, initial, log, k, k + 1)
         == if (k + 1) % interval == 0 then [Report(k + 1, g.hashOf(StateAt(g, initial, log, k + 1).value))] else []
  {
    hide StateAt;
    assert DueReports(g, interval, initial, log, k, k) == [];
  }

  // ----- The authority's side -----

  function Arrived<T>(ms: seq<T>): seq<Option<T>> { seq(|ms|, i requires 0 <= i < |ms| => Some(ms[i])) }

  function InputsOf(payloads: seq<seq<byte>>): seq<ClientMessage> {
    seq(|payloads|, i requires 0 <= i < |payloads| => Input(payloads[i]))
  }

  lemma {:induction false} HonestInputsAccepted<S>(g: Game<S>, payloads: seq<seq<byte>>)
    requires forall i :: 0 <= i < |payloads| ==> g.accepts(payloads[i])
    ensures Accepted(g, Arrived(InputsOf(payloads))) == payloads
  {
    if payloads != [] {
      assert Arrived(InputsOf(payloads))[1..] == Arrived(InputsOf(payloads[1..]));
      HonestInputsAccepted(g, payloads[1..]);
    }
  }

  /** Any number of due reports, taken in order, match one after another and only move verification forward. */
  lemma {:induction false} HonestReportsMatch<S>(
      g: Game<S>, interval: nat, initial: S, start: nat, a: Authority<S>, policy: Policy, verified: u64, k: nat, m: nat)
    returns (verified': u64)
    requires Running(g, interval, initial, start, a)
    requires start <= verified <= k <= |a.log| && |a.log| - verified <= interval * HISTORY_INTERVALS + 1
    requires m <= |DueReports(g, interval, initial, a.log, verified, k)|
    ensures verified <= verified' <= k
    ensures CheckReports(Arrived(DueReports(g, interval, initial, a.log, verified, k)[..m]), |a.log|,
              Checked(verified, false), a.hashes, policy, interval) == Ok(Checked(verified', false))
    ensures DueReports(g, interval, initial, a.log, verified, k)[m..]
         == DueReports(g, interval, initial, a.log, verified', k)
    decreases m
  {
    hide Running, DueReports, VerifyHash;
    assert interval > 0 && |a.log| <= U64_MAX by {
      RunningFacts(g, interval, initial, start, a);
    }
    var due := DueReports(g, interval, initial, a.log, verified, k);
    if m == 0 {
      verified' := verified;
    } else {
      var t := DueReportsHead(g, interval, initial, a.log, verified, k);
      RunningStates(g, interval, initial, start, a, t);
      HonestReportMatches(g, interval, initial, start, a, verified, due[0]);
      var later := DueReports(g, interval, initial, a.log, t, k);
      verified' := HonestReportsMatch(g, interval, initial, start, a, policy, t, k, m - 1);
      assert Arrived(due[..m])[1..] == Arrived(later[..m - 1]);
      assert due[m..] == later[m - 1..];
    }
  }

  lemma RunningFacts<S>(g: Game<S>, interval: nat, initial: S, start: nat, a: Authority<S>)
    requires Running(g, interval, initial, start, a)
    ensures interval > 0 && start <= |a.log| <= U64_MAX && g.tickOf(initial) == 0
    ensures StateAt(g, initial, a.log, |a.log|) == Ok(a.state)
  {
    assert a.log[..|a.log|] == a.log;
  }

  lemma RunningStates<S>(g: Game<S>, interval: nat, initial: S, start: nat, a: Authority<S>, k: nat)
    requires Running(g, interval, initial, start, a) && k <= |a.log|
    ensures StateAt(g, initial, a.log, k).Ok?
  {
    hide Due;
    RunPrefix(g, initial, a.log, k);
  }

  /** An honest client is never dropped for what it sent; only the deadline can drop it. */
  lemma HonestVerdict<S>(
      g: Game<S>, interval: nat, initial: S, start: nat, a: Authority<S>, policy: Policy,
      verified: u64, k: nat, payloads: seq<seq<byte>>, m: nat)
    returns (verified': u64)
    requires Running(g, interval, initial, start, a)
    requires start <= verified <= k <= |a.log| && |a.log| - verified <= interval * HISTORY_INTERVALS + 1
    requires m <= |DueReports(g, interval, initial, a.log, verified, k)|
    requires forall i :: 0 <= i < |payloads| ==> g.accepts(payloads[i])
    ensures verified <= verified' <= k
    ensures ClientVerdict(g, interval, policy, a, verified,
              Mail(Arrived(InputsOf(payloads)), Arrived(DueReports(g, interval, initial, a.log, verified, k)[..m])))
         == Ok(Checked(verified', Overdue(|a.log|, verified', interval)))
    ensures DueReports(g, interval, initial, a.log, verified, k)[m..]
         == DueReports(g, interval, initial, a.log, verified', k)
  {
    hide Running, DueReports, CheckReports, Accepted;
    RunningFacts(g, interval, initial, start, a);
    StateTick(g, interval, initial, start, a);
    HonestInputsAccepted(g, payloads);
    verified' := HonestReportsMatch(g, interval, initial, start, a, policy, verified, k, m);
  }
}

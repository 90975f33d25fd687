/**
  The deterministic game and the tick lifecycle shared by live play and replay
  (crates/synctick/src/simulation.rs, the adapter of crates/synctick/src/api.rs).
*/
module Simulation {
  import opened Bytes
  import opened Envelope
  import opened ReplayLog

  /**
    A game as the driver sees it: `create` and `step` are partial because both may reject,
    and functions because the determinism contract makes them so.
  */
  datatype Game<!S> = Game(
    create: Header -> Option<S>,
    step: (S, TickAdvance) -> Option<S>,
    tickOf: S -> u64,
    hashOf: S -> u64,
    accepts: seq<byte> -> bool)

  datatype SimError = TickGap | AdvanceFailed | WrongTick | PublishFailed

  /** `Adapter::initialize`, which refuses a game that does not begin at tick zero. */
  function Initialize<S>(g: Game<S>, header: Header): (r: Option<S>)
    ensures r.Some? ==> g.tickOf(r.value) == 0
  {
    var created := g.create(header);
    if created.Some? && g.tickOf(created.value) == 0 then created else None
  }

  predicate Continues<S>(g: Game<S>, s: S, tick: u64) {
    g.tickOf(s) < U64_MAX && g.tickOf(s) + 1 == tick
  }

  /** `advance_tick`: continuity, execution, then the adapter's resulting tick. */
  function AdvanceTick<S>(g: Game<S>, s: S, advance: TickAdvance): (r: Result<S, SimError>)
    ensures r.Ok? ==> g.tickOf(s) + 1 == advance.tick == g.tickOf(r.value)
  {
    if !Continues(g, s, advance.tick) then Err(TickGap)
    else
      var stepped := g.step(s, advance);
      if stepped.None? then Err(AdvanceFailed)
      else if g.tickOf(stepped.value) != advance.tick then Err(WrongTick)
      else Ok(stepped.value)
  }

  /** The simple meaning of any session: one fold of the records over a state. */
  function Run<S>(g: Game<S>, s: S, records: seq<TickAdvance>): Result<S, SimError>
    decreases |records|
  {
    if records == [] then Ok(s)
    else
      var next := AdvanceTick(g, s, records[0]);
      if next.Err? then next else Run(g, next.value, records[1..])
  }

  /** Continue a session from an earlier outcome. */
  function RunFrom<S>(g: Game<S>, earlier: Result<S, SimError>, records: seq<TickAdvance>): Result<S, SimError> {
    if earlier.Err? then earlier else Run(g, earlier.value, records)
  }

  lemma {:induction false} RunAppend<S>(g: Game<S>, s: S, records: seq<TickAdvance>, more: seq<TickAdvance>)
    ensures Run(g, s, records + more) == RunFrom(g, Run(g, s, records), more)
  {
    if records == [] {
      assert records + more == more;
    } else if AdvanceTick(g, s, records[0]).Ok? {
      assert (records + more)[1..] == records[1..] + more;
      RunAppend(g, AdvanceTick(g, s, records[0]).value, records[1..], more);
    }
  }

  lemma RunOne<S>(g: Game<S>, s: S, advance: TickAdvance)
    ensures Run(g, s, [advance]) == AdvanceTick(g, s, advance)
  {
    assert [advance][1..] == [];
  }

  lemma RunPush<S>(g: Game<S>, s: S, records: seq<TickAdvance>, advance: TickAdvance)
    ensures Run(g, s, records + [advance])
         == if Run(g, s, records).Err? then Run(g, s, records) else AdvanceTick(g, Run(g, s, records).value, advance)
  {
    RunAppend(g, s, records, [advance]);
    if Run(g, s, records).Ok? {
      RunOne(g, Run(g, s, records).value, advance);
    }
  }

  /** A log that runs is numbered without gaps, and its length is the distance covered. */
  lemma {:induction false} RunNumbersTicks<S>(g: Game<S>, s: S, records: seq<TickAdvance>)
    requires Run(g, s, records).Ok?
    ensures g.tickOf(Run(g, s, records).value) == g.tickOf(s) + |records|
    ensures forall i :: 0 <= i < |records| ==> records[i].tick == g.tickOf(s) + 1 + i
  {
    if records != [] {
      RunNumbersTicks(g, AdvanceTick(g, s, records[0]).value, records[1..]);
      assert forall i :: 0 < i < |records| ==> records[i] == records[1..][i - 1];
    }
  }

  /** Prefixes of a running log run, so every earlier state is well defined. */
  lemma RunPrefix<S>(g: Game<S>, s: S, records: seq<TickAdvance>, k: nat)
    requires k <= |records|
    requires Run(g, s, records).Ok?
    ensures Run(g, s, records[..k]).Ok?
  {
    assert records == records[..k] + records[k..];
    RunAppend(g, s, records[..k], records[k..]);
  }

  const NANOS_PER_SECOND: nat := 1_000_000_000

  function HashInterval(tickNanos: nat): nat
    requires tickNanos > 0
  {
    (NANOS_PER_SECOND + tickNanos / 2) / tickNanos
  }

  lemma QuotientBounds(total: nat, d: nat)
    requires d > 0
    ensures total / d * d <= total < total / d * d + d
  {
    assert total == total / d * d + total % d;
  }

  /** The interval is the whole number of ticks within half a tick of one second, and never zero. */
  lemma HashIntervalIsNearestSecond(tickNanos: nat)
    requires MIN_TICK_NANOS <= tickNanos <= MAX_TICK_NANOS
    ensures 1 <= HashInterval(tickNanos) <= 1_000_000
    ensures 2 * (HashInterval(tickNanos) * tickNanos - NANOS_PER_SECOND) <= tickNanos
    ensures 2 * (NANOS_PER_SECOND - HashInterval(tickNanos) * tickNanos) <= tickNanos + 1
  {
    var q := HashInterval(tickNanos);
    QuotientBounds(NANOS_PER_SECOND + tickNanos / 2, tickNanos);
    ProductMonotone(q, 0, tickNanos);
    ProductMonotone(1_000_001, q, tickNanos);
  }

  datatype Phase = Replaying | Playing
  datatype Hook = Advance | Publish | Finish

  /** Hooks one attempted tick enters: none for a gap, and cleanup exactly once for anything else. */
  function HooksEntered<S>(g: Game<S>, s: S, advance: TickAdvance, phase: Phase): seq<Hook> {
    match AdvanceTick(g, s, advance)
    case Err(TickGap) => []
    case Err(_) => [Advance, Finish]
    case Ok(_) => if phase == Playing then [Advance, Publish, Finish] else [Advance, Finish]
  }

  /**
    Cleanup always runs: any tick that is the next one enters its step first and its cleanup last, each
    once, whatever happens between them; publication is entered exactly for a correct tick in play.
    Anything but the next tick enters nothing.
  */
  lemma CleanupAlwaysRuns<S>(g: Game<S>, s: S, advance: TickAdvance, phase: Phase)
    ensures var hooks := HooksEntered(g, s, advance, phase);
      && (hooks == [] <==> g.tickOf(s) + 1 != advance.tick)
      && (hooks != [] ==>
            && hooks[0] == Advance && hooks[|hooks| - 1] == Finish
            && multiset(hooks)[Advance] == 1 && multiset(hooks)[Finish] == 1)
      && multiset(hooks)[Publish] == (if phase == Playing && AdvanceTick(g, s, advance).Ok? then 1 else 0)
  {
  }

  /** The running simulation. `publishes` is the outcome of the game's publication hook. */
  class Driver<S> {
    const game: Game<S>
    var state: S
    var hooks: seq<Hook>

    constructor (game: Game<S>, state: S)
      ensures this.game == game && this.state == state && hooks == []
    {
      this.game := game;
      this.state := state;
      hooks := [];
    }

    method Tick(advance: TickAdvance, phase: Phase, publishes: bool) returns (r: Result<(), SimError>)
      modifies this
      ensures r == if AdvanceTick(game, old(state), advance).Err? then Err(AdvanceTick(game, old(state), advance).error)
                   else if phase == Playing && !publishes then Err(PublishFailed)
                   else Ok(())
      ensures AdvanceTick(game, old(state), advance).Ok? ==> state == AdvanceTick(game, old(state), advance).value
      ensures AdvanceTick(game, old(state), advance) == Err(TickGap) ==> state == old(state)
      ensures hooks == old(hooks) + HooksEntered(game, old(state), advance, phase)
    {
      if game.tickOf(state) == U64_MAX || game.tickOf(state) + 1 != advance.tick {
        return Err(TickGap);
      }
      hooks := hooks + [Advance];
      match game.step(state, advance) {
        case None =>
          r := Err(AdvanceFailed);
        case Some(s) =>
          state := s;
          if game.tickOf(state) != advance.tick {
            r := Err(WrongTick);
          } else if phase == Playing {
            hooks := hooks + [Publish];
            r := if publishes then Ok(()) else Err(PublishFailed);
          } else {
            r := Ok(());
          }
      }
      hooks := hooks + [Finish];
    }
  }
}

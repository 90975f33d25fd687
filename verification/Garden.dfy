/**
  The Power Garden rules: tiles and their ports, the traversal that finds what is powered, the
  board with its cached connectivity, and why every reachable board can still be won
  (examples/power-garden/src/model).
*/
module Garden {
  import opened Bytes

  const CELLS: nat := 25
  const BEACONS: nat := 4

  datatype Kind = Empty | Wire | Source | Beacon
  datatype Tile = Tile(kind: Kind, ports: bv8, rotation: nat)

  // ----- Tiles -----

  /** North, east, south and west are directions 0 to 3; the port mask has one bit for each. */
  function Bit(d: nat): bv8
    requires d < 4
  {
    if d == 0 then 1 else if d == 1 then 2 else if d == 2 then 4 else 8
  }

  function Opposite(d: nat): nat { (d + 2) % 4 }

  predicate Has(mask: bv8, d: nat)
    requires d < 4
  {
    mask & Bit(d) != 0
  }

  /** `Tile::connections`: the mask after `rotation` clockwise quarter turns. */
  function Turned(ports: bv8, rotation: nat): bv8 { Shifted(ports, rotation % 4) }

  function Shifted(ports: bv8, r: nat): bv8
    requires r < 4
  {
    ((ports << r) | (ports >> (4 - r))) & 15
  }

  function Connections(t: Tile): bv8 { Turned(t.ports, t.rotation) }

  function BasePorts(t: Tile): bv8 { t.ports }

  lemma UnturnedIsBase(ports: bv8)
    requires ports <= 15
    ensures Turned(ports, 0) == ports
  {
  }

  /** A quarter turn carries every port to the next direction clockwise, and four turns change nothing. */
  lemma QuarterTurn(ports: bv8, rotation: nat, d: nat)
    requires ports <= 15 && d < 4
    ensures Has(Turned(ports, rotation + 1), (d + 1) % 4) <==> Has(Turned(ports, rotation), d)
    ensures Turned(ports, rotation + 4) == Turned(ports, rotation)
  {
    hide Shifted, Has;
    var r := rotation % 4;
    assert (rotation + 1) % 4 == if r == 3 then 0 else r + 1;
    QuarterTurnOf(ports, r, d);
  }

  lemma QuarterTurnOf(ports: bv8, r: nat, d: nat)
    requires ports <= 15 && d < 4 && r < 4
    ensures Has(Shifted(ports, if r == 3 then 0 else r + 1), (d + 1) % 4) <==> Has(Shifted(ports, r), d)
  {
    if r == 0 {
    } else if r == 1 {
    } else if r == 2 {
    } else {
    }
  }

  // ----- What reachability means -----

  function Neighbor(i: nat, d: nat): (n: Option<nat>)
    requires i < CELLS && d < 4
    ensures n.Some? ==> n.value < CELLS
  {
    if d == 0 then (if i >= 5 then Some(i - 5) else None)
    else if d == 1 then (if i % 5 < 4 then Some(i + 1) else None)
    else if d == 2 then (if i < 20 then Some(i + 5) else None)
    else if i % 5 > 0 then Some(i - 1) else None
  }

  /** Neighbours are one row or one column apart, on the side the direction says; the board does not wrap. */
  lemma NeighborsAreAdjacent(i: nat, d: nat, j: nat)
    requires i < CELLS && j < CELLS && d < 4
    ensures Neighbor(i, d) == Some(j) <==>
      && j / 5 == i / 5 + (if d == 2 then 1 else if d == 0 then -1 else 0)
      && j % 5 == i % 5 + (if d == 1 then 1 else if d == 3 then -1 else 0)
  {
  }

  predicate LinkedAt(masks: seq<bv8>, i: nat, d: nat, j: nat)
    requires |masks| == CELLS && i < CELLS && j < CELLS && d < 4
  {
    Neighbor(i, d) == Some(j) && Has(masks[i], d) && Has(masks[j], Opposite(d))
  }

  /** Two cells are linked when each has a port towards the other. */
  ghost predicate Linked(masks: seq<bv8>, i: nat, j: nat)
    requires |masks| == CELLS
  {
    i < CELLS && j < CELLS && exists d :: 0 <= d < 4 && LinkedAt(masks, i, d, j)
  }

  lemma LinkedIsSymmetric(masks: seq<bv8>, i: nat, j: nat)
    requires |masks| == CELLS && Linked(masks, i, j)
    ensures Linked(masks, j, i)
  {
    var d :| 0 <= d < 4 && LinkedAt(masks, i, d, j);
    assert LinkedAt(masks, j, Opposite(d), i);
  }

  ghost predicate IsPath(masks: seq<bv8>, path: seq<nat>)
    requires |masks| == CELLS
  {
    && path != []
    && (forall k :: 0 <= k < |path| ==> path[k] < CELLS)
    && forall k :: 0 <= k < |path| - 1 ==> Linked(masks, path[k], path[k + 1])
  }

  /** A path of reciprocal ports joins the two cells. */
  ghost predicate Reachable(masks: seq<bv8>, from: nat, cell: nat)
    requires |masks| == CELLS
  {
    exists path :: IsPath(masks, path) && path[0] == from && path[|path| - 1] == cell
  }

  lemma ReachesItself(masks: seq<bv8>, from: nat)
    requires |masks| == CELLS && from < CELLS
    ensures Reachable(masks, from, from)
  {
    assert IsPath(masks, [from]);
  }

  lemma ReachesOn(masks: seq<bv8>, from: nat, i: nat, j: nat)
    requires |masks| == CELLS && Reachable(masks, from, i) && Linked(masks, i, j)
    ensures Reachable(masks, from, j)
  {
    hide Linked;
    var path :| IsPath(masks, path) && path[0] == from && path[|path| - 1] == i;
    var longer := path + [j];
    assert j < CELLS by {
      LinkedInRange(masks, i, j);
    }
    forall k | 0 <= k < |longer| - 1 ensures Linked(masks, longer[k], longer[k + 1]) {
      if k < |path| - 1 {
        assert longer[k] == path[k] && longer[k + 1] == path[k + 1];
      }
    }
    assert IsPath(masks, longer) && longer[0] == from && longer[|longer| - 1] == j;
  }

  lemma LinkedInRange(masks: seq<bv8>, i: nat, j: nat)
    requires |masks| == CELLS && Linked(masks, i, j)
    ensures i < CELLS && j < CELLS
  {
  }

  /** A set of cells closed under links holds everything reachable from its members. */
  lemma {:induction false} ClosedHoldsPaths(masks: seq<bv8>, closed: set<nat>, path: seq<nat>)
    requires |masks| == CELLS && IsPath(masks, path) && path[0] in closed
    requires forall i, j: nat :: i in closed && Linked(masks, i, j) ==> j in closed
    ensures path[|path| - 1] in closed
    decreases |path|
  {
    hide Linked;
    if |path| > 1 {
      assert Linked(masks, path[0], path[1]);
      assert IsPath(masks, path[1..]) by {
        forall k | 0 <= k < |path| - 2 ensures Linked(masks, path[1..][k], path[1..][k + 1]) {
          assert path[1..][k] == path[k + 1] && path[1..][k + 1] == path[k + 2];
        }
      }
      ClosedHoldsPaths(masks, closed, path[1..]);
    }
  }

  function Masks(tiles: seq<Tile>, ports: Tile -> bv8): seq<bv8> {
    seq(|tiles|, i requires 0 <= i < |tiles| => ports(tiles[i]))
  }

  /** The first source; the board's length if there is none. */
  function SourceOf(tiles: seq<Tile>): (i: nat)
    ensures i <= |tiles| && (i < |tiles| ==> tiles[i].kind.Source?)
    ensures forall j :: 0 <= j < i ==> !tiles[j].kind.Source?
  {
    if tiles == [] || tiles[0].kind.Source? then 0 else 1 + SourceOf(tiles[1..])
  }

  /** Exactly the cells a path of reciprocal ports joins to the source. */
  ghost function Powered(masks: seq<bv8>, source: nat): seq<bool>
    requires |masks| == CELLS
  {
    seq(CELLS, c requires 0 <= c < CELLS => Reachable(masks, source, c))
  }

  // ----- The traversal -----

  ghost predicate Distinct(cells: seq<nat>) {
    forall i, j :: 0 <= i < j < |cells| ==> cells[i] != cells[j]
  }

  function Members(cells: seq<nat>): set<nat> {
    if cells == [] then {} else {cells[0]} + Members(cells[1..])
  }

  function AllBelow(n: nat): set<nat> {
    if n == 0 then {} else AllBelow(n - 1) + {n - 1}
  }

  lemma {:induction false} MembersAre(cells: seq<nat>)
    ensures forall c :: c in Members(cells) <==> c in cells
    ensures Distinct(cells) ==> |Members(cells)| == |cells|
  {
    if cells != [] {
      MembersAre(cells[1..]);
    }
  }

  lemma {:induction false} AllBelowAre(n: nat)
    ensures |AllBelow(n)| == n && forall c: nat :: c in AllBelow(n) <==> c < n
  {
    if n > 0 {
      AllBelowAre(n - 1);
    }
  }

  /** Distinct cells fit the board. */
  lemma DistinctCells(cells: seq<nat>)
    requires Distinct(cells) && forall i :: 0 <= i < |cells| ==> cells[i] < CELLS
    ensures |cells| <= CELLS
  {
    MembersAre(cells);
    AllBelowAre(CELLS);
    SubsetCount(Members(cells), AllBelow(CELLS));
  }

  /** Everything linked to this cell has been marked. */
  ghost predicate Expanded(masks: seq<bv8>, powered: seq<bool>, i: nat)
    requires |masks| == |powered| == CELLS
  {
    forall j: nat :: Linked(masks, i, j) ==> j < CELLS && powered[j]
  }

  /** The traversal so far: `found` is the filled part of the queue, its first `done` cells fully expanded. */
  ghost predicate Exploring(masks: seq<bv8>, source: nat, powered: seq<bool>, found: seq<nat>, done: nat)
    requires |masks| == CELLS
  {
    && |powered| == CELLS && found != [] && done <= |found| && found[0] == source
    && Distinct(found)
    && (forall i :: 0 <= i < |found| ==> found[i] < CELLS && Reachable(masks, source, found[i]))
    && (forall c :: 0 <= c < CELLS ==> (powered[c] <==> c in found))
    && forall i :: 0 <= i < done ==> Expanded(masks, powered, found[i])
  }

  /** Directions below `d` of cell `i` have been looked at. */
  ghost predicate LookedAt(masks: seq<bv8>, powered: seq<bool>, i: nat, d: nat)
    requires |masks| == |powered| == CELLS && i < CELLS && d <= 4
  {
    forall e, j :: 0 <= e < d && 0 <= j < CELLS && LinkedAt(masks, i, e, j) ==> powered[j]
  }

  lemma FoundOne(masks: seq<bv8>, source: nat, powered: seq<bool>, found: seq<nat>, done: nat, i: nat, next: nat)
    requires |masks| == CELLS && Exploring(masks, source, powered, found, done)
    requires i in found && Linked(masks, i, next) && next < CELLS && !powered[next]
    ensures |found| < CELLS && Exploring(masks, source, powered[next := true], found + [next], done)
  {
    hide Reachable, Linked;
    var k :| 0 <= k < |found| && found[k] == i;
    ReachesOn(masks, source, i, next);
    DistinctCells(found + [next]);
    var (p, f) := (powered[next := true], found + [next]);
    forall a | 0 <= a < done ensures Expanded(masks, p, f[a]) {
      assert f[a] == found[a] && Expanded(masks, powered, found[a]);
    }
  }

  lemma ExpandedOne(masks: seq<bv8>, source: nat, powered: seq<bool>, found: seq<nat>, done: nat)
    requires |masks| == CELLS && Exploring(masks, source, powered, found, done) && done < |found|
    requires LookedAt(masks, powered, found[done], 4)
    ensures Exploring(masks, source, powered, found, done + 1)
  {
    hide Reachable, LookedAt, Expanded;
    LookedAtAll(masks, powered, found[done]);
  }

  lemma LookedAtAll(masks: seq<bv8>, powered: seq<bool>, i: nat)
    requires |masks| == |powered| == CELLS && i < CELLS && LookedAt(masks, powered, i, 4)
    ensures Expanded(masks, powered, i)
  {
    hide LinkedAt;
    forall j: nat | Linked(masks, i, j) ensures j < CELLS && powered[j] {
      var d :| 0 <= d < 4 && LinkedAt(masks, i, d, j);
    }
  }

  lemma ExploredAll(masks: seq<bv8>, source: nat, powered: seq<bool>, found: seq<nat>)
    requires |masks| == CELLS && Exploring(masks, source, powered, found, |found|)
    ensures powered == Powered(masks, source)
  {
    hide Linked;
    var closed := set c | c in found;
    forall i, j: nat | i in closed && Linked(masks, i, j) ensures j in closed {
      var k :| 0 <= k < |found| && found[k] == i;
      assert Expanded(masks, powered, found[k]);
    }
    forall c | 0 <= c < CELLS ensures powered[c] <==> Reachable(masks, source, c) {
      if Reachable(masks, source, c) {
        var path :| IsPath(masks, path) && path[0] == source && path[|path| - 1] == c;
        assert source in closed;
        ClosedHoldsPaths(masks, closed, path);
      }
    }
  }

  lemma Discovering(masks: seq<bv8>, source: nat, powered: seq<bool>)
    requires |masks| == CELLS && source < CELLS
    requires powered == seq(CELLS, c => c == source)
    ensures Exploring(masks, source, powered, [source], 0)
  {
    ReachesItself(masks, source);
  }

  /**
    `connectivity`: a traversal with a queue of 25 slots. The queue never overflows, and a cell is
    marked exactly when a path of reciprocal ports joins it to the source.
  */
  method Connectivity(tiles: seq<Tile>, ports: Tile -> bv8) returns (powered: array<bool>)
    requires |tiles| == CELLS && SourceOf(tiles) < CELLS
    ensures fresh(powered) && powered[..] == Powered(Masks(tiles, ports), SourceOf(tiles))
  {
    hide Exploring, LookedAt, Linked, Has, Reachable;
    ghost var masks := Masks(tiles, ports);
    var source := SourceOf(tiles);
    powered := new bool[CELLS](c => c == source);
    assert powered[..] == seq(CELLS, c => c == source);
    var queue := new nat[CELLS](_ => source);
    var head, tail := 0, 1;
    Discovering(masks, source, powered[..]);
    assert queue[..1] == [source];
    while head < tail
      invariant head <= tail <= CELLS && powered.Length == queue.Length == CELLS
      invariant Exploring(masks, source, powered[..], queue[..tail], head)
      decreases CELLS - head
    {
      var index := queue[head];
      assert index == queue[..tail][head];
      QueueHolds(masks, source, powered[..], queue[..tail], head);
      var outgoing := ports(tiles[index]);
      LookedAtNothing(masks, powered[..], index);
      var d := 0;
      while d < 4
        invariant d <= 4 && head < tail <= CELLS && index == queue[head]
        invariant Exploring(masks, source, powered[..], queue[..tail], head)
        invariant LookedAt(masks, powered[..], index, d)
      {
        var neighbor := Neighbor(index, d);
        ghost var before := powered[..];
        if neighbor.Some? && Has(outgoing, d) && Has(ports(tiles[neighbor.value]), Opposite(d))
           && !powered[neighbor.value] {
          var next := neighbor.value;
          assert LinkedAt(masks, index, d, next);
          LinkAt(masks, index, d, next);
          assert index == queue[..tail][head];
          FoundOne(masks, source, powered[..], queue[..tail], head, index, next);
          ghost var found := queue[..tail];
          powered[next] := true;
          queue[tail] := next;
          tail := tail + 1;
          assert powered[..] == before[next := true] && queue[..tail] == found + [next];
        }
        LookedAtOne(masks, before, powered[..], index, d);
        d := d + 1;
      }
      assert index == queue[..tail][head];
      ExpandedOne(masks, source, powered[..], queue[..tail], head);
      head := head + 1;
    }
    assert head == |queue[..tail]|;
    ExploredAll(masks, source, powered[..], queue[..tail]);
  }

  lemma QueueHolds(masks: seq<bv8>, source: nat, powered: seq<bool>, found: seq<nat>, done: nat)
    requires |masks| == CELLS && Exploring(masks, source, powered, found, done) && done < |found|
    ensures found[done] < CELLS
  {
  }

  lemma LinkAt(masks: seq<bv8>, i: nat, d: nat, j: nat)
    requires |masks| == CELLS && i < CELLS && j < CELLS && d < 4 && LinkedAt(masks, i, d, j)
    ensures Linked(masks, i, j)
  {
  }

  lemma LookedAtNothing(masks: seq<bv8>, powered: seq<bool>, i: nat)
    requires |masks| == |powered| == CELLS && i < CELLS
    ensures LookedAt(masks, powered, i, 0)
  {
  }

  lemma LookedAtOne(masks: seq<bv8>, before: seq<bool>, powered: seq<bool>, i: nat, d: nat)
    requires |masks| == |before| == |powered| == CELLS && i < CELLS && d < 4
    requires LookedAt(masks, before, i, d)
    requires forall c :: 0 <= c < CELLS && before[c] ==> powered[c]
    requires forall j :: 0 <= j < CELLS && LinkedAt(masks, i, d, j) ==> powered[j]
    ensures LookedAt(masks, powered, i, d + 1)
  {
    hide LinkedAt;
  }

  // ----- Beacons -----

  /** `connected_beacons`. */
  function CountLit(tiles: seq<Tile>, powered: seq<bool>): nat
    requires |tiles| == |powered|
  {
    if tiles == [] then 0
    else (if tiles[0].kind.Beacon? && powered[0] then 1 else 0) + CountLit(tiles[1..], powered[1..])
  }

  function CountKind(tiles: seq<Tile>, kind: Kind): nat {
    if tiles == [] then 0 else (if tiles[0].kind == kind then 1 else 0) + CountKind(tiles[1..], kind)
  }

  function Kinds(tiles: seq<Tile>): seq<Kind> { seq(|tiles|, i requires 0 <= i < |tiles| => tiles[i].kind) }

  lemma {:induction false} CountIs(tiles: seq<Tile>, kind: Kind)
    ensures CountKind(tiles, kind) == multiset(Kinds(tiles))[kind]
  {
    if tiles != [] {
      CountIs(tiles[1..], kind);
      assert Kinds(tiles) == [tiles[0].kind] + Kinds(tiles[1..]);
    }
  }

  /** All of the beacons are lit exactly when each of them is powered. */
  lemma {:induction false} LitBeacons(tiles: seq<Tile>, powered: seq<bool>)
    requires |tiles| == |powered|
    ensures CountLit(tiles, powered) <= CountKind(tiles, Beacon)
    ensures CountLit(tiles, powered) == CountKind(tiles, Beacon)
      <==> forall i :: 0 <= i < |tiles| && tiles[i].kind.Beacon? ==> powered[i]
  {
    if tiles != [] {
      LitBeacons(tiles[1..], powered[1..]);
      assert forall i :: 0 < i < |tiles| ==> tiles[i] == tiles[1..][i - 1] && powered[i] == powered[1..][i - 1];
      if forall i :: 0 <= i < |tiles[1..]| && tiles[1..][i].kind.Beacon? ==> powered[1..][i] {
      } else {
        var i :| 0 <= i < |tiles[1..]| && tiles[1..][i].kind.Beacon? && !powered[1..][i];
        assert tiles[i + 1].kind.Beacon? && !powered[i + 1];
      }
    }
  }

  method ConnectedBeacons(tiles: seq<Tile>, powered: seq<bool>) returns (count: nat)
    requires |tiles| == |powered|
    ensures count == CountLit(tiles, powered)
  {
    count := 0;
    var i := 0;
    assert tiles[0..] == tiles && powered[0..] == powered;
    while i < |tiles|
      invariant i <= |tiles| && CountLit(tiles, powered) == count + CountLit(tiles[i..], powered[i..])
    {
      assert tiles[i..][0] == tiles[i] && tiles[i..][1..] == tiles[i + 1..];
      assert powered[i..][0] == powered[i] && powered[i..][1..] == powered[i + 1..];
      if tiles[i].kind.Beacon? && powered[i] {
        count := count + 1;
      }
      i := i + 1;
    }
  }

  /** Four beacons are powered under these ports. */
  ghost predicate Solved(tiles: seq<Tile>, ports: Tile -> bv8)
    requires |tiles| == CELLS
  {
    CountLit(tiles, Powered(Masks(tiles, ports), SourceOf(tiles))) == BEACONS
  }

  // ----- Setup -----

  datatype Initialization = Initialization(width: nat, height: nat, tiles: seq<Tile>)
  datatype InitializationError = Dimensions | TileEncoding | TileRole | Endpoints | Unsolvable

  function Ones(mask: bv8): nat {
    (if Has(mask, 0) then 1 else 0) + (if Has(mask, 1) then 1 else 0)
    + (if Has(mask, 2) then 1 else 0) + (if Has(mask, 3) then 1 else 0)
  }

  /** A role's ports: none, two or three, some, or exactly one; and only wires may be turned. */
  predicate FitsRole(t: Tile) {
    && (match t.kind
        case Empty => Ones(t.ports) == 0
        case Wire => Ones(t.ports) == 2 || Ones(t.ports) == 3
        case Source => Ones(t.ports) > 0
        case Beacon => Ones(t.ports) == 1)
    && (t.kind.Wire? || t.rotation == 0)
  }

  /** The directions a tile has ports in, unturned. */
  function PortsOf(t: Tile): set<nat> { set d: nat | d < 4 && Has(t.ports, d) }

  /**
    Which tiles a setup may hold: no ports for an empty one, two or three for a wire, some for a
    source, one for a beacon; and only a wire may be turned.
  */
  lemma RolesAre(t: Tile)
    ensures FitsRole(t) <==>
      && (t.kind == Empty ==> |PortsOf(t)| == 0) && (t.kind == Wire ==> 2 <= |PortsOf(t)| <= 3)
      && (t.kind == Source ==> |PortsOf(t)| >= 1) && (t.kind == Beacon ==> |PortsOf(t)| == 1)
      && (t.rotation != 0 ==> t.kind == Wire)
  {
    hide Has;
    CountsPorts(t);
  }

  lemma CountsPorts(t: Tile)
    ensures |PortsOf(t)| == Ones(t.ports)
  {
    hide Has;
    OneMorePort(t, 0);
    OneMorePort(t, 1);
    OneMorePort(t, 2);
    OneMorePort(t, 3);
    assert PortsBelow(t, 0) == {} && PortsBelow(t, 4) == PortsOf(t);
  }

  function PortsBelow(t: Tile, n: nat): set<nat> { set d: nat | d < 4 && d < n && Has(t.ports, d) }

  lemma OneMorePort(t: Tile, n: nat)
    requires n < 4
    ensures |PortsBelow(t, n + 1)| == |PortsBelow(t, n)| + (if Has(t.ports, n) then 1 else 0)
  {
    hide Has;
    if Has(t.ports, n) {
      assert PortsBelow(t, n + 1) == PortsBelow(t, n) + {n};
    } else {
      assert PortsBelow(t, n + 1) == PortsBelow(t, n);
    }
  }

  predicate FitsEncoding(t: Tile) { t.ports <= 15 && t.rotation <= 3 }

  /** The first tile that is wrong decides, and its encoding before its role. */
  function FirstDefect(tiles: seq<Tile>): Option<InitializationError> {
    if tiles == [] then None
    else if !FitsEncoding(tiles[0]) then Some(TileEncoding)
    else if !FitsRole(tiles[0]) then Some(TileRole)
    else FirstDefect(tiles[1..])
  }

  /** `Initialization::validate`. */
  ghost function Judge(initial: Initialization): Option<InitializationError> {
    var tiles := initial.tiles;
    if initial.width != 5 || initial.height != 5 || |tiles| != CELLS then Some(Dimensions)
    else if FirstDefect(tiles).Some? then FirstDefect(tiles)
    else if CountKind(tiles, Source) != 1 || CountKind(tiles, Beacon) != BEACONS then Some(Endpoints)
    else if !Solved(tiles, BasePorts) then Some(Unsolvable)
    else None
  }

  lemma {:induction false} NoDefect(tiles: seq<Tile>)
    ensures FirstDefect(tiles).None? <==> forall i :: 0 <= i < |tiles| ==> FitsEncoding(tiles[i]) && FitsRole(tiles[i])
  {
    hide FitsEncoding, FitsRole;
    if tiles != [] {
      NoDefect(tiles[1..]);
      assert forall i :: 0 < i < |tiles| ==> tiles[i] == tiles[1..][i - 1];
      if FirstDefect(tiles[1..]).Some? {
        var i :| 0 <= i < |tiles[1..]| && !(FitsEncoding(tiles[1..][i]) && FitsRole(tiles[1..][i]));
        assert !(FitsEncoding(tiles[i + 1]) && FitsRole(tiles[i + 1]));
      }
    }
  }

  lemma {:induction false} SourceExists(tiles: seq<Tile>)
    ensures CountKind(tiles, Source) > 0 <==> SourceOf(tiles) < |tiles|
  {
    if tiles != [] {
      SourceExists(tiles[1..]);
    }
  }

  /**
    A setup is accepted exactly when it is a 5 by 5 board of well-formed tiles with one source and
    four beacons whose unturned layout joins every beacon to the source.
  */
  lemma AcceptedSetups(initial: Initialization)
    ensures Judge(initial).None? <==>
      && initial.width == 5 && initial.height == 5 && |initial.tiles| == 25
      && (forall i :: 0 <= i < CELLS ==> FitsEncoding(initial.tiles[i]) && FitsRole(initial.tiles[i]))
      && CountKind(initial.tiles, Source) == 1 && CountKind(initial.tiles, Beacon) == 4
      && forall i :: 0 <= i < CELLS && initial.tiles[i].kind.Beacon? ==>
           Reachable(Masks(initial.tiles, BasePorts), SourceOf(initial.tiles), i)
  {
    hide Reachable, FitsRole, FitsEncoding, CountLit, CountKind;
    NoDefect(initial.tiles);
    if |initial.tiles| == CELLS {
      LitBeacons(initial.tiles, Powered(Masks(initial.tiles, BasePorts), SourceOf(initial.tiles)));
    }
  }

  method Validate(initial: Initialization) returns (error: Option<InitializationError>)
    ensures error == Judge(initial)
  {
    hide Powered, FitsRole, FitsEncoding;
    var tiles := initial.tiles;
    if initial.width != 5 || initial.height != 5 || |tiles| != CELLS {
      return Some(Dimensions);
    }
    var sources, beacons, i := 0, 0, 0;
    assert tiles[0..] == tiles;
    while i < CELLS
      invariant i <= CELLS && FirstDefect(tiles) == FirstDefect(tiles[i..])
      invariant CountKind(tiles, Source) == sources + CountKind(tiles[i..], Source)
      invariant CountKind(tiles, Beacon) == beacons + CountKind(tiles[i..], Beacon)
    {
      assert tiles[i..][0] == tiles[i] && tiles[i..][1..] == tiles[i + 1..];
      if !FitsEncoding(tiles[i]) {
        return Some(TileEncoding);
      }
      if tiles[i].kind.Source? {
        sources := sources + 1;
      } else if tiles[i].kind.Beacon? {
        beacons := beacons + 1;
      }
      if !FitsRole(tiles[i]) {
        return Some(TileRole);
      }
      i := i + 1;
    }
    if sources != 1 || beacons != BEACONS {
      return Some(Endpoints);
    }
    SourceExists(tiles);
    var solution := Connectivity(tiles, BasePorts);
    PoweredLength(Masks(tiles, BasePorts), SourceOf(tiles));
    var lit := ConnectedBeacons(tiles, solution[..]);
    error := if lit != BEACONS then Some(Unsolvable) else None;
  }

  // ----- Play -----

  datatype Puzzle = Puzzle(tiles: seq<Tile>, moves: u64, complete: bool)

  predicate Accepts(p: Puzzle, cell: nat) {
    cell < |p.tiles| && !p.complete && p.tiles[cell].kind.Wire? && p.moves < U64_MAX
  }

  function TurnTile(tiles: seq<Tile>, cell: nat): seq<Tile>
    requires cell < |tiles|
  {
    tiles[cell := tiles[cell].(rotation := (tiles[cell].rotation + 1) % 4)]
  }

  /** What a rotation means: an illegal one is a no-op, a legal one decides completion afresh. */
  ghost function Rotated(p: Puzzle, cell: nat): Puzzle
    requires |p.tiles| == CELLS
  {
    if !Accepts(p, cell) then p
    else Puzzle(TurnTile(p.tiles, cell), p.moves + 1, Solved(TurnTile(p.tiles, cell), Connections))
  }

  lemma {:induction false} TurningKeepsSource(tiles: seq<Tile>, cell: nat)
    requires cell < |tiles|
    ensures SourceOf(TurnTile(tiles, cell)) == SourceOf(tiles)
  {
    if cell > 0 && !tiles[0].kind.Source? {
      assert TurnTile(tiles, cell)[1..] == TurnTile(tiles[1..], cell - 1);
      TurningKeepsSource(tiles[1..], cell - 1);
    } else if cell == 0 {
      assert TurnTile(tiles, cell)[1..] == tiles[1..];
    }
  }

  /** The board and its caches: `powered` and `complete` always equal a fresh computation. */
  class Board {
    var tiles: seq<Tile>
    var moves: u64
    var complete: bool
    var powered: seq<bool>

    ghost predicate Valid()
      reads this
    {
      && |tiles| == CELLS && SourceOf(tiles) < CELLS
      && powered == Powered(Masks(tiles, Connections), SourceOf(tiles))
      && complete == Solved(tiles, Connections)
    }

    function AsPuzzle(): Puzzle
      reads this
    {
      Puzzle(tiles, moves, complete)
    }

    constructor (tiles: seq<Tile>)
      requires |tiles| == CELLS && SourceOf(tiles) < CELLS
      ensures Valid() && this.tiles == tiles && moves == 0
    {
      this.tiles, moves := tiles, 0;
      complete, powered := false, [];
      new;
      Recompute();
    }

    method Recompute()
      requires |tiles| == CELLS && SourceOf(tiles) < CELLS
      modifies `powered, `complete
      ensures Valid()
    {
      hide Powered, CountLit;
      var now := Connectivity(tiles, Connections);
      powered := now[..];
      PoweredLength(Masks(tiles, Connections), SourceOf(tiles));
      var lit := ConnectedBeacons(tiles, powered);
      complete := lit == BEACONS;
    }

    method Rotate(cell: nat) returns (accepted: bool)
      requires Valid()
      modifies this
      ensures Valid() && accepted == Accepts(old(AsPuzzle()), cell)
      ensures AsPuzzle() == Rotated(old(AsPuzzle()), cell)
    {
      hide Powered, Solved;
      if cell >= |tiles| {
        return false;
      }
      if complete || !tiles[cell].kind.Wire? {
        return false;
      }
      if moves == U64_MAX {
        return false;
      }
      TurningKeepsSource(tiles, cell);
      tiles := TurnTile(tiles, cell);
      moves := moves + 1;
      Recompute();
      accepted := true;
    }
  }

  /** `Board::new`. */
  method NewBoard(initial: Initialization) returns (board: Board?, error: Option<InitializationError>)
    ensures error == Judge(initial) && (board == null <==> error.Some?)
    ensures board != null ==> fresh(board) && board.Valid() && board.tiles == initial.tiles && board.moves == 0
  {
    hide Solved, Board.Valid;
    error := Validate(initial);
    if error.Some? {
      return null, error;
    }
    SourceExists(initial.tiles);
    board := new Board(initial.tiles);
  }

  // ----- Every reachable board stays winnable -----

  /** Same roles and ports as the setup, quarter turns only, and completion up to date. */
  ghost predicate SameGarden(base: seq<Tile>, p: Puzzle) {
    && |base| == |p.tiles| == CELLS
    && (forall i :: 0 <= i < CELLS ==>
          && p.tiles[i].kind == base[i].kind && p.tiles[i].ports == base[i].ports
          && p.tiles[i].rotation < 4 && (p.tiles[i].kind.Wire? || p.tiles[i].rotation == 0))
    && p.complete == Solved(p.tiles, Connections)
  }

  /** The board after any rotations, legal or not. */
  ghost function RotateAll(p: Puzzle, cells: seq<nat>): (r: Puzzle)
    requires |p.tiles| == CELLS
    ensures |r.tiles| == CELLS
    decreases |cells|
  {
    if cells == [] then p else RotateAll(Rotated(p, cells[0]), cells[1..])
  }

  /** Every rotation of the list is accepted when its turn comes. */
  ghost predicate AllAccepted(p: Puzzle, cells: seq<nat>)
    requires |p.tiles| == CELLS
    decreases |cells|
  {
    cells == [] || (Accepts(p, cells[0]) && AllAccepted(Rotated(p, cells[0]), cells[1..]))
  }

  lemma {:induction false} PlayKeepsGarden(base: seq<Tile>, p: Puzzle, cells: seq<nat>)
    requires SameGarden(base, p)
    ensures SameGarden(base, RotateAll(p, cells))
    decreases |cells|
  {
    hide Solved;
    if cells != [] {
      PlayKeepsGarden(base, Rotated(p, cells[0]), cells[1..]);
    }
  }

  /** A completed board never changes again. */
  lemma {:induction false} CompletedStays(p: Puzzle, cells: seq<nat>)
    requires |p.tiles| == CELLS && p.complete
    ensures RotateAll(p, cells) == p
    decreases |cells|
  {
    if cells != [] {
      CompletedStays(p, cells[1..]);
    }
  }

  /**
    A rotation counts exactly when it names a wire of an uncompleted board and the counter has room;
    then that wire alone turns, by one quarter.
  */
  lemma RotationsCount(p: Puzzle, cell: nat)
    requires |p.tiles| == CELLS
    ensures var r := Rotated(p, cell);
      && (r.moves == p.moves + 1 <==>
            cell < CELLS && p.tiles[cell].kind == Wire && !p.complete && p.moves < U64_MAX)
      && (r.moves != p.moves + 1 ==> r == p)
      && (r.moves == p.moves + 1 ==>
            && r.tiles[cell] == p.tiles[cell].(rotation := (p.tiles[cell].rotation + 1) % 4)
            && forall other :: 0 <= other < CELLS && other != cell ==> r.tiles[other] == p.tiles[other])
  {
    hide Solved;
  }

  /** Completion means what it says: with four beacons on the board, every one is joined to the source as turned. */
  lemma CompleteMeansPowered(base: seq<Tile>, p: Puzzle)
    requires SameGarden(base, p) && CountKind(p.tiles, Beacon) == 4
    ensures p.complete <==>
      forall i :: 0 <= i < CELLS && p.tiles[i].kind.Beacon? ==>
        Reachable(Masks(p.tiles, Connections), SourceOf(p.tiles), i)
  {
    hide Reachable, CountLit, CountKind;
    LitBeacons(p.tiles, Powered(Masks(p.tiles, Connections), SourceOf(p.tiles)));
  }

  /** Quarter turns a tile is away from its unturned position. */
  function Owes(t: Tile): nat { (4 - t.rotation % 4) % 4 }

  function Owed(tiles: seq<Tile>): nat {
    if tiles == [] then 0 else Owes(tiles[0]) + Owed(tiles[1..])
  }

  lemma {:induction false} TurningPays(tiles: seq<Tile>, cell: nat)
    requires cell < |tiles| && 0 < tiles[cell].rotation < 4
    ensures Owed(TurnTile(tiles, cell)) == Owed(tiles) - 1
    ensures Owes(TurnTile(tiles, cell)[cell]) == Owes(tiles[cell]) - 1
  {
    if cell > 0 {
      assert TurnTile(tiles, cell)[1..] == TurnTile(tiles[1..], cell - 1);
      TurningPays(tiles[1..], cell - 1);
    } else {
      assert TurnTile(tiles, cell)[1..] == tiles[1..];
    }
  }

  lemma {:induction false} SameKinds(tiles: seq<Tile>, others: seq<Tile>, powered: seq<bool>)
    requires |tiles| == |others| == |powered|
    requires forall i :: 0 <= i < |tiles| ==> tiles[i].kind == others[i].kind
    ensures SourceOf(tiles) == SourceOf(others) && CountLit(tiles, powered) == CountLit(others, powered)
  {
    if tiles != [] {
      SameKinds(tiles[1..], others[1..], powered[1..]);
    }
  }

  /** With every tile unturned, the board is the base layout, which validation found solved. */
  lemma UnturnedIsSolved(base: seq<Tile>, p: Puzzle)
    requires SameGarden(base, p) && Solved(base, BasePorts)
    requires forall i :: 0 <= i < CELLS ==> base[i].ports <= 15 && p.tiles[i].rotation == 0
    ensures p.complete
  {
    hide Powered, CountLit, Turned;
    var (masks, powered) := (Masks(base, BasePorts), Powered(Masks(base, BasePorts), SourceOf(base)));
    forall i | 0 <= i < CELLS ensures Masks(p.tiles, Connections)[i] == masks[i] {
      UnturnedIsBase(base[i].ports);
      assert Connections(p.tiles[i]) == Turned(base[i].ports, 0) == BasePorts(base[i]);
    }
    assert Masks(p.tiles, Connections) == masks;
    assert |powered| == CELLS by {
      PoweredLength(masks, SourceOf(base));
    }
    SameKinds(base, p.tiles, powered);
  }

  lemma PoweredLength(masks: seq<bv8>, source: nat)
    requires |masks| == CELLS
    ensures |Powered(masks, source)| == CELLS
  {
  }

  lemma {:induction false} TurnedTileExists(tiles: seq<Tile>) returns (cell: nat)
    requires exists i :: 0 <= i < |tiles| && tiles[i].rotation != 0
    ensures cell < |tiles| && tiles[cell].rotation != 0
  {
    cell :| cell < |tiles| && tiles[cell].rotation != 0;
  }

  /**
    From any reachable board, at most three further accepted rotations of each wire complete it,
    whenever the move counter has room for them.
  */
  lemma {:induction false} StaysWinnable(base: seq<Tile>, p: Puzzle) returns (plan: seq<nat>)
    requires SameGarden(base, p) && Solved(base, BasePorts)
    requires forall i :: 0 <= i < CELLS ==> base[i].ports <= 15
    requires p.moves + Owed(p.tiles) <= U64_MAX
    ensures |plan| <= Owed(p.tiles) && AllAccepted(p, plan) && RotateAll(p, plan).complete
    ensures forall c :: c in plan ==> c < CELLS && p.tiles[c].kind.Wire?
    ensures forall c :: 0 <= c < CELLS ==> multiset(plan)[c] <= Owes(p.tiles[c]) <= 3
    decreases Owed(p.tiles)
  {
    hide Solved;
    if p.complete {
      plan := [];
    } else {
      if forall i :: 0 <= i < CELLS ==> p.tiles[i].rotation == 0 {
        UnturnedIsSolved(base, p);
        assert false;
      }
      var cell := TurnedTileExists(p.tiles);
      TurningPays(p.tiles, cell);
      var next := Rotated(p, cell);
      var rest := StaysWinnable(base, next);
      plan := [cell] + rest;
      assert plan[1..] == rest;
      OneTurnMore(p.tiles, cell, rest);
    }
  }

  lemma OneTurnMore(tiles: seq<Tile>, cell: nat, rest: seq<nat>)
    requires cell < |tiles| && 0 < tiles[cell].rotation < 4
    requires forall c :: 0 <= c < |tiles| ==> multiset(rest)[c] <= Owes(TurnTile(tiles, cell)[c])
    ensures forall c :: 0 <= c < |tiles| ==> multiset([cell] + rest)[c] <= Owes(tiles[c]) <= 3
  {
    assert multiset([cell] + rest) == multiset{cell} + multiset(rest);
  }

  /** Any play of any accepted setup can still be won. */
  lemma EveryPlayIsWinnable(initial: Initialization, cells: seq<nat>) returns (plan: seq<nat>)
    requires Judge(initial).None?
    requires var p := RotateAll(Puzzle(initial.tiles, 0, Solved(initial.tiles, Connections)), cells);
      p.moves + Owed(p.tiles) <= U64_MAX
    ensures var p := RotateAll(Puzzle(initial.tiles, 0, Solved(initial.tiles, Connections)), cells);
      && AllAccepted(p, plan) && RotateAll(p, plan).complete
      && forall c :: 0 <= c < CELLS ==> multiset(plan)[c] <= 3
  {
    hide Solved, RotateAll;
    NoDefect(initial.tiles);
    var start := Puzzle(initial.tiles, 0, Solved(initial.tiles, Connections));
    PlayKeepsGarden(initial.tiles, start, cells);
    plan := StaysWinnable(initial.tiles, RotateAll(start, cells));
  }
}

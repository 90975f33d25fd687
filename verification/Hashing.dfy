/**
  Stable state fingerprints (crates/synctick/src/hashing.rs and the derive of
  crates/synctick-derive/src/hashing.rs): canonical representations, streamed through FNV-1a with
  64 bits (draft-eastlake-fnv, section 2).
*/
module Hashing {
  import opened Bytes
  import C = Codec

  const OFFSET_BASIS: nat := 0xcbf2_9ce4_8422_2325
  const PRIME: nat := 0x100_0000_01b3
  const MODULUS: nat := 0x1_0000_0000_0000_0000

  // ----- Exclusive or -----

  function Pow2(n: nat): (p: nat)
    ensures p >= 1
  {
    if n == 0 then 1 else 2 * Pow2(n - 1)
  }

  /** Bitwise exclusive or of the low `bits` bits. */
  function Xor(a: nat, b: nat, bits: nat): nat {
    if bits == 0 then 0 else (if a % 2 == b % 2 then 0 else 1) + 2 * Xor(a / 2, b / 2, bits - 1)
  }

  lemma {:induction false} XorUndoesItself(a: nat, b: nat, bits: nat)
    requires a < Pow2(bits)
    ensures Xor(a, b, bits) < Pow2(bits)
    ensures Xor(Xor(a, b, bits), b, bits) == a
    ensures Xor(a, b, bits) == Xor(b, a, bits)
    decreases bits
  {
    if bits > 0 {
      XorUndoesItself(a / 2, b / 2, bits - 1);
      var x := Xor(a, b, bits);
      assert x / 2 == Xor(a / 2, b / 2, bits - 1);
    }
  }

  lemma Doubled(m: nat, n: nat)
    ensures m * (2 * n) == 2 * (m * n)
  {
  }

  lemma {:induction false} Pow2Add(m: nat, n: nat)
    ensures Pow2(m + n) == Pow2(m) * Pow2(n)
    decreases m
  {
    if m > 0 {
      Pow2Add(m - 1, n);
      Doubled(Pow2(n), Pow2(m - 1));
    }
  }

  lemma WordIs64Bits()
    ensures Pow2(64) == MODULUS && Pow2(8) == 256
  {
    assert Pow2(4) == 2 * Pow2(3) == 16;
    Pow2Add(4, 4);
    Pow2Add(8, 8);
    Pow2Add(16, 16);
    Pow2Add(32, 32);
  }

  // ----- FNV-1a -----

  function Step(h: nat, b: byte): (r: nat)
    ensures r < MODULUS
  {
    Xor(h, b as int, 64) * PRIME % MODULUS
  }

  function Fold(h: nat, bytes: seq<byte>): nat
    decreases |bytes|
  {
    if bytes == [] then h else Fold(Step(h, bytes[0]), bytes[1..])
  }

  /** The inverse of the FNV prime modulo 2^64. */
  const INVERSE: nat := 0xce96_5057_aff6_957b

  lemma UniqueRemainder(n: int, x: int, t: int)
    requires n == x + MODULUS * t && 0 <= x < MODULUS
    ensures n % MODULUS == x
  {
    assert n == MODULUS * (n / MODULUS) + n % MODULUS;
  }

  /** Multiplication by the prime is undone by its inverse. */
  lemma MultiplicationInverts(x: nat)
    requires x < MODULUS
    ensures x * PRIME % MODULUS * INVERSE % MODULUS == x
  {
    var (q, r) := (x * PRIME / MODULUS, x * PRIME % MODULUS);
    assert x * PRIME == MODULUS * q + r;
    assert PRIME * INVERSE == 1 + MODULUS * 887285111055;
    assert r * INVERSE == x + MODULUS * (887285111055 * x - INVERSE * q);
    UniqueRemainder(r * INVERSE, x, 887285111055 * x - INVERSE * q);
  }

  /** One step loses nothing: it can be undone knowing the byte, and the byte can be told from its result. */
  lemma StepIsInvertible(h: nat, k: nat, a: byte, b: byte)
    requires h < MODULUS && k < MODULUS
    ensures Step(h, a) == Step(k, a) ==> h == k
    ensures Step(h, a) == Step(h, b) ==> a == b
  {
    WordIs64Bits();
    XorUndoesItself(h, a as int, 64);
    XorUndoesItself(k, a as int, 64);
    XorUndoesItself(h, b as int, 64);
    XorUndoesItself(a as int, h, 64);
    XorUndoesItself(b as int, h, 64);
    MultiplicationInverts(Xor(h, a as int, 64));
    MultiplicationInverts(Xor(k, a as int, 64));
    MultiplicationInverts(Xor(h, b as int, 64));
  }

  lemma {:induction false} FoldJoins(h: nat, x: seq<byte>, y: seq<byte>)
    ensures Fold(h, x + y) == Fold(Fold(h, x), y)
    decreases |x|
  {
    hide Step;
    if x == [] {
      assert x + y == y;
    } else {
      assert (x + y)[1..] == x[1..] + y;
      FoldJoins(Step(h, x[0]), x[1..], y);
    }
  }

  lemma {:induction false} FoldStaysInWord(h: nat, bytes: seq<byte>)
    requires h < MODULUS
    ensures Fold(h, bytes) < MODULUS
    decreases |bytes|
  {
    if bytes != [] {
      FoldStaysInWord(Step(h, bytes[0]), bytes[1..]);
    }
  }

  lemma {:induction false} XorNothing(a: nat, bits: nat)
    requires a < Pow2(bits)
    ensures Xor(a, 0, bits) == a
  {
    if bits > 0 {
      XorNothing(a / 2, bits - 1);
    }
  }

  lemma XorStep(half: nat, r: nat, b: nat, bits: nat)
    requires bits > 0
    ensures Xor(2 * half + r, b, bits)
         == (if r % 2 == b % 2 then 0 else 1) + 2 * Xor(half + r / 2, b / 2, bits - 1)
  {
    assert (2 * half + r) / 2 == half + r / 2 && (2 * half + r) % 2 == r % 2;
  }

  /** Bits above the lowest `low` are left alone by a number that has none there. */
  lemma {:induction false} XorLow(m: nat, r: nat, b: nat, low: nat, high: nat)
    requires m < Pow2(high) && r < Pow2(low) && b < Pow2(low)
    ensures Xor(m * Pow2(low) + r, b, low + high) == m * Pow2(low) + Xor(r, b, low)
    decreases low
  {
    hide Xor;
    if low == 0 {
      XorNothing(m, high);
      XorNothing(0, 0);
    } else {
      XorLow(m, r / 2, b / 2, low - 1, high);
      var half := m * Pow2(low - 1);
      assert m * Pow2(low) == 2 * half by {
        Doubled(m, Pow2(low - 1));
      }
      XorStep(half, r, b, low + high);
      XorStep(0, r, b, low);
    }
  }

  lemma StepTo(m: nat, r: nat, b: byte, x: nat, next: nat)
    requires r < 256 && 256 * m + r < MODULUS && x == Xor(r, b as int, 8)
    requires next == (256 * m + x) * PRIME % MODULUS
    ensures Step(256 * m + r, b) == next
  {
    hide Xor;
    WordIs64Bits();
    Pow2Add(8, 56);
    XorLow(m, r, b as int, 8, 56);
  }

  lemma FirstByteOfVector()
    ensures Xor(0x25, 0x61, 8) == 0x44
  {
    assert Xor(0x00, 0x00, 1) == 0x00;
    assert Xor(0x00, 0x01, 2) == 0x01;
    assert Xor(0x01, 0x03, 3) == 0x02;
    assert Xor(0x02, 0x06, 4) == 0x04;
    assert Xor(0x04, 0x0c, 5) == 0x08;
    assert Xor(0x09, 0x18, 6) == 0x11;
    assert Xor(0x12, 0x30, 7) == 0x22;
  }

  /**
    One published test vector of 64-bit FNV-1a, for "a" (draft-eastlake-fnv, appendix C): the byte is
    mixed in before the multiplication, not after it.
  */
  lemma TestVector()
    ensures Fold(OFFSET_BASIS, [0x61]) == 0xaf63_dc4c_8601_ec8c
  {
    hide Step, Xor;
    FirstByteOfVector();
    StepTo(0xcb_f29c_e484_2223, 0x25, 0x61, 0x44, 0xaf63_dc4c_8601_ec8c);
  }

  /** Different states stay different, whatever follows. */
  lemma {:induction false} FoldKeepsApart(h: nat, k: nat, bytes: seq<byte>)
    requires h < MODULUS && k < MODULUS && h != k
    ensures Fold(h, bytes) != Fold(k, bytes)
    decreases |bytes|
  {
    hide Step;
    if bytes != [] {
      StepIsInvertible(h, k, bytes[0], bytes[0]);
      FoldKeepsApart(Step(h, bytes[0]), Step(k, bytes[0]), bytes[1..]);
    }
  }

  /** Equal-length representations that differ in exactly one byte never share a fingerprint. */
  lemma OneByteChangesTheFingerprint(before: seq<byte>, a: byte, b: byte, after: seq<byte>)
    requires a != b
    ensures Fold(OFFSET_BASIS, before + [a] + after) != Fold(OFFSET_BASIS, before + [b] + after)
  {
    hide Step;
    var h := Fold(OFFSET_BASIS, before);
    FoldStaysInWord(OFFSET_BASIS, before);
    FoldJoins(OFFSET_BASIS, before, [a]);
    FoldJoins(OFFSET_BASIS, before, [b]);
    FoldJoins(OFFSET_BASIS, before + [a], after);
    FoldJoins(OFFSET_BASIS, before + [b], after);
    assert [a][1..] == [] && [b][1..] == [];
    assert Fold(h, [a]) == Step(h, a) && Fold(h, [b]) == Step(h, b);
    StepIsInvertible(h, h, a, b);
    FoldKeepsApart(Step(h, a), Step(h, b), after);
  }

  // ----- Canonical representations -----

  /**
    A hashable type. Floats are `Integer` over their bits, arrays and slices are `Items`, tuples are
    `Fields`; `Skipped` is a field left out of the fingerprint.
  */
  datatype Shape =
    | Integer(width: nat, signed: bool)
    | Flag
    | Nil
    | Text
    | Items(item: Shape)
    | Maybe(item: Shape)
    | Fields(fields: seq<Shape>)
    | Enum(arms: seq<HashArm>)
    | Skipped
  datatype HashArm = HashArm(tag: byte, fields: seq<Shape>)

  datatype State =
    | Num(n: int)
    | Truth(on: bool)
    | Nothing
    | Str(text: seq<byte>)
    | Listed(items: seq<State>)
    | Absent
    | Present(value: State)
    | Parts(parts: seq<State>)
    | Case(arm: nat, parts: seq<State>)

  /** Integers have a width, enums one tag per variant. */
  ghost predicate WellFormed(s: Shape)
    decreases s, 0
  {
    match s
    case Integer(width, _) => width > 0
    case Items(item) => WellFormed(item)
    case Maybe(item) => WellFormed(item)
    case Fields(fields) => AllWellFormed(fields)
    case Enum(arms) =>
      && (forall i, j :: 0 <= i < j < |arms| ==> arms[i].tag != arms[j].tag)
      && forall i :: 0 <= i < |arms| ==> AllWellFormed(arms[i].fields)
    case _ => true
  }

  ghost predicate AllWellFormed(fields: seq<Shape>)
    decreases fields, 1
  {
    forall i :: 0 <= i < |fields| ==> WellFormed(fields[i])
  }

  predicate HasShape(s: Shape, v: State)
    decreases s, 0, 0
  {
    match s
    case Integer(width, signed) => v.Num? && C.Low(width, signed) <= v.n < C.High(width, signed)
    case Flag => v.Truth?
    case Nil => v.Nothing?
    case Text => v.Str? && |v.text| <= U64_MAX
    case Items(item) => v.Listed? && |v.items| <= U64_MAX && AllHaveShape(item, v.items)
    case Maybe(item) => v.Absent? || (v.Present? && HasShape(item, v.value))
    case Fields(fields) => v.Parts? && HaveShapes(fields, v.parts)
    case Enum(arms) => v.Case? && v.arm < |arms| && HaveShapes(arms[v.arm].fields, v.parts)
    case Skipped => true
  }

  predicate AllHaveShape(item: Shape, vs: seq<State>)
    decreases item, 1, |vs|
  {
    vs == [] || (HasShape(item, vs[0]) && AllHaveShape(item, vs[1..]))
  }

  predicate HaveShapes(fields: seq<Shape>, vs: seq<State>)
    decreases fields, 1, 0
  {
    if fields == [] then vs == [] else vs != [] && HasShape(fields[0], vs[0]) && HaveShapes(fields[1..], vs[1..])
  }

  /** The bytes a value contributes, exactly as `hash_into` feeds them. */
  function Repr(s: Shape, v: State): seq<byte>
    requires HasShape(s, v)
    decreases s, 0, 0
  {
    match s
    case Integer(width, signed) => LeBytes(if v.n < 0 then v.n + Pow256(width) else v.n, width)
    case Flag => [if v.on then 1 else 0]
    case Nil => []
    case Text => LeBytes(|v.text|, 8) + v.text
    case Items(item) => LeBytes(|v.items|, 8) + ReprItems(item, v.items)
    case Maybe(item) => if v.Absent? then [0] else [1] + Repr(item, v.value)
    case Fields(fields) => ReprFields(fields, v.parts)
    case Enum(arms) => [arms[v.arm].tag] + ReprFields(arms[v.arm].fields, v.parts)
    case Skipped => []
  }

  function ReprItems(item: Shape, vs: seq<State>): seq<byte>
    requires AllHaveShape(item, vs)
    decreases item, 1, |vs|
  {
    if vs == [] then [] else Repr(item, vs[0]) + ReprItems(item, vs[1..])
  }

  function ReprFields(fields: seq<Shape>, vs: seq<State>): seq<byte>
    requires HaveShapes(fields, vs)
    decreases fields, 1, 0
  {
    if fields == [] then [] else Repr(fields[0], vs[0]) + ReprFields(fields[1..], vs[1..])
  }

  /** The bytes that are hashed for a 16-bit number beside a text. */
  lemma RecordFixture()
    ensures var (s, v) := (Fields([Integer(2, false), Text]), Parts([Num(513), Str([0x78])]));
      HasShape(s, v) && Repr(s, v) == [1, 2, 1, 0, 0, 0, 0, 0, 0, 0, 0x78]
  {
    hide LeBytes;
    NumberFixture();
    OneInEightBytes();
    var (number, text) := (Integer(2, false), Str([0x78]));
    assert [Text][1..] == [] && [text][1..] == [];
    assert ReprFields([Text], [text]) == [1, 0, 0, 0, 0, 0, 0, 0, 0x78];
    assert [number, Text][1..] == [Text] && [Num(513), text][1..] == [text];
  }

  lemma NumberFixture()
    ensures HasShape(Integer(2, false), Num(513)) && Repr(Integer(2, false), Num(513)) == [1, 2]
  {
    Widths();
    assert LeBytes(513, 2) == [1, 2] by {
      assert LeBytes(2, 1) == [2];
    }
  }

  /** The bytes that are hashed for a variant with tag 2 and one field, and for an option. */
  lemma VariantFixture()
    ensures var (s, v) := (Enum([HashArm(9, []), HashArm(2, [Integer(2, false)])]), Case(1, [Num(513)]));
      HasShape(s, v) && Repr(s, v) == [2, 1, 2]
    ensures Repr(Maybe(Flag), Absent) == [0] && Repr(Maybe(Flag), Present(Truth(false))) == [1, 0]
  {
    hide LeBytes;
    NumberFixture();
    var fields := [Integer(2, false)];
    assert fields[1..] == [] && [Num(513)][1..] == [];
    assert ReprFields(fields, [Num(513)]) == [1, 2];
  }

  lemma OneInEightBytes()
    ensures LeBytes(1, 8) == [1, 0, 0, 0, 0, 0, 0, 0]
  {
    assert LeBytes(0, 3) == [0, 0, 0];
    assert LeBytes(0, 5) == [0, 0] + LeBytes(0, 3);
    assert LeBytes(0, 7) == [0, 0] + LeBytes(0, 5);
  }

  /** Equality on everything that is hashed. */
  predicate Same(s: Shape, v: State, w: State)
    requires HasShape(s, v) && HasShape(s, w)
    decreases s, 0, 0
  {
    match s
    case Items(item) => |v.items| == |w.items| && SameItems(item, v.items, w.items)
    case Maybe(item) => v.Absent? == w.Absent? && (v.Present? ==> Same(item, v.value, w.value))
    case Fields(fields) => SameFields(fields, v.parts, w.parts)
    case Enum(arms) => v.arm == w.arm && SameFields(arms[v.arm].fields, v.parts, w.parts)
    case Skipped => true
    case _ => v == w
  }

  predicate SameItems(item: Shape, vs: seq<State>, ws: seq<State>)
    requires AllHaveShape(item, vs) && AllHaveShape(item, ws) && |vs| == |ws|
    decreases item, 1, |vs|
  {
    vs == [] || (Same(item, vs[0], ws[0]) && SameItems(item, vs[1..], ws[1..]))
  }

  predicate SameFields(fields: seq<Shape>, vs: seq<State>, ws: seq<State>)
    requires HaveShapes(fields, vs) && HaveShapes(fields, ws)
    decreases fields, 1, 0
  {
    fields == [] || (Same(fields[0], vs[0], ws[0]) && SameFields(fields[1..], vs[1..], ws[1..]))
  }

  lemma SplitAt(a: seq<byte>, x: seq<byte>, b: seq<byte>, y: seq<byte>)
    requires a + x == b + y && |a| == |b|
    ensures a == b && x == y
  {
    assert a == (a + x)[..|a|] && b == (b + y)[..|b|];
    assert x == (a + x)[|a|..] && y == (b + y)[|b|..];
  }

  lemma LengthsAgree(m: nat, x: seq<byte>, n: nat, y: seq<byte>)
    requires m <= U64_MAX && n <= U64_MAX && LeBytes(m, 8) + x == LeBytes(n, 8) + y
    ensures m == n && x == y
  {
    SplitAt(LeBytes(m, 8), x, LeBytes(n, 8), y);
    Widths();
    LeValueOfBytes(m, 8);
    LeValueOfBytes(n, 8);
  }

  /**
    Unique parsing: in any two streams that begin with representations of one shape, equal streams
    mean the same value, on everything hashed, and the same continuation.
  */
  lemma {:induction false} ParsesUniquely(s: Shape, v: State, w: State, x: seq<byte>, y: seq<byte>)
    requires WellFormed(s) && HasShape(s, v) && HasShape(s, w)
    requires Repr(s, v) + x == Repr(s, w) + y
    ensures Same(s, v, w) && x == y
    decreases s, 0, 0
  {
    hide LeBytes;
    match s
    case Integer(width, signed) =>
      SplitAt(Repr(s, v), x, Repr(s, w), y);
      C.NumberRoundTrip(v.n, width, signed);
      C.NumberRoundTrip(w.n, width, signed);
    case Flag => SplitAt(Repr(s, v), x, Repr(s, w), y);
    case Nil => assert Repr(s, v) + x == x && Repr(s, w) + y == y;
    case Text =>
      Regroup(LeBytes(|v.text|, 8), v.text, x);
      Regroup(LeBytes(|w.text|, 8), w.text, y);
      LengthsAgree(|v.text|, v.text + x, |w.text|, w.text + y);
      SplitAt(v.text, x, w.text, y);
    case Items(item) =>
      Regroup(LeBytes(|v.items|, 8), ReprItems(item, v.items), x);
      Regroup(LeBytes(|w.items|, 8), ReprItems(item, w.items), y);
      LengthsAgree(|v.items|, ReprItems(item, v.items) + x, |w.items|, ReprItems(item, w.items) + y);
      ItemsParseUniquely(item, v.items, w.items, x, y);
    case Maybe(item) => MaybeParsesUniquely(item, v, w, x, y);
    case Fields(fields) => FieldsParseUniquely(fields, v.parts, w.parts, x, y);
    case Enum(arms) =>
      Regroup([arms[v.arm].tag], ReprFields(arms[v.arm].fields, v.parts), x);
      Regroup([arms[w.arm].tag], ReprFields(arms[w.arm].fields, w.parts), y);
      SplitAt([arms[v.arm].tag], ReprFields(arms[v.arm].fields, v.parts) + x,
        [arms[w.arm].tag], ReprFields(arms[w.arm].fields, w.parts) + y);
      SameArm(arms, v.arm, w.arm);
      FieldsParseUniquely(arms[v.arm].fields, v.parts, w.parts, x, y);
    case Skipped => assert Repr(s, v) + x == x && Repr(s, w) + y == y;
  }

  lemma SameArm(arms: seq<HashArm>, i: nat, j: nat)
    requires i < |arms| && j < |arms| && [arms[i].tag] == [arms[j].tag]
    requires forall a, b :: 0 <= a < b < |arms| ==> arms[a].tag != arms[b].tag
    ensures i == j
  {
    assert [arms[i].tag][0] == [arms[j].tag][0];
  }

  lemma {:induction false} MaybeParsesUniquely(item: Shape, v: State, w: State, x: seq<byte>, y: seq<byte>)
    requires WellFormed(item) && HasShape(Maybe(item), v) && HasShape(Maybe(item), w)
    requires Repr(Maybe(item), v) + x == Repr(Maybe(item), w) + y
    ensures Same(Maybe(item), v, w) && x == y
    decreases item, 2, 0
  {
    hide Repr;
    var (p, q) := (MaybeRest(item, v), MaybeRest(item, w));
    MaybeSplits(item, v);
    MaybeSplits(item, w);
    Regroup([if v.Absent? then 0 else 1], p, x);
    Regroup([if w.Absent? then 0 else 1], q, y);
    SplitAt([if v.Absent? then 0 else 1], p + x, [if w.Absent? then 0 else 1], q + y);
    assert v.Absent? == w.Absent?;
    if v.Present? {
      ParsesUniquely(item, v.value, w.value, x, y);
    } else {
      assert [] + x == x && [] + y == y;
    }
  }

  function MaybeRest(item: Shape, v: State): seq<byte>
    requires HasShape(Maybe(item), v)
  {
    if v.Absent? then [] else Repr(item, v.value)
  }

  lemma MaybeSplits(item: Shape, v: State)
    requires HasShape(Maybe(item), v)
    ensures Repr(Maybe(item), v) == [if v.Absent? then 0 else 1] + MaybeRest(item, v)
  {
  }

  lemma {:induction false} ItemsParseUniquely(item: Shape, vs: seq<State>, ws: seq<State>, x: seq<byte>, y: seq<byte>)
    requires WellFormed(item) && AllHaveShape(item, vs) && AllHaveShape(item, ws) && |vs| == |ws|
    requires ReprItems(item, vs) + x == ReprItems(item, ws) + y
    ensures SameItems(item, vs, ws) && x == y
    decreases item, 1, |vs|
  {
    hide Repr, Same, HasShape;
    if vs == [] {
      assert [] + x == x && [] + y == y;
    } else {
      Regroup(Repr(item, vs[0]), ReprItems(item, vs[1..]), x);
      Regroup(Repr(item, ws[0]), ReprItems(item, ws[1..]), y);
      ParsesUniquely(item, vs[0], ws[0], ReprItems(item, vs[1..]) + x, ReprItems(item, ws[1..]) + y);
      ItemsParseUniquely(item, vs[1..], ws[1..], x, y);
    }
  }

  lemma {:induction false} FieldsParseUniquely(fields: seq<Shape>, vs: seq<State>, ws: seq<State>,
      x: seq<byte>, y: seq<byte>)
    requires AllWellFormed(fields) && HaveShapes(fields, vs) && HaveShapes(fields, ws)
    requires ReprFields(fields, vs) + x == ReprFields(fields, ws) + y
    ensures SameFields(fields, vs, ws) && x == y
    decreases fields, 1, 0
  {
    hide Repr, Same, HasShape;
    if fields == [] {
      assert [] + x == x && [] + y == y;
    } else {
      Regroup(Repr(fields[0], vs[0]), ReprFields(fields[1..], vs[1..]), x);
      Regroup(Repr(fields[0], ws[0]), ReprFields(fields[1..], ws[1..]), y);
      ParsesUniquely(fields[0], vs[0], ws[0],
        ReprFields(fields[1..], vs[1..]) + x, ReprFields(fields[1..], ws[1..]) + y);
      FieldsParseUniquely(fields[1..], vs[1..], ws[1..], x, y);
    }
  }

  /** What is skipped is invisible: values that agree on everything hashed have one representation. */
  lemma {:induction false} SameMeansSameBytes(s: Shape, v: State, w: State)
    requires HasShape(s, v) && HasShape(s, w) && Same(s, v, w)
    ensures Repr(s, v) == Repr(s, w)
    decreases s, 0, 0
  {
    match s
    case Items(item) => SameItemsSameBytes(item, v.items, w.items);
    case Maybe(item) =>
      if v.Present? {
        SameMeansSameBytes(item, v.value, w.value);
      }
    case Fields(fields) => SameFieldsSameBytes(fields, v.parts, w.parts);
    case Enum(arms) => SameFieldsSameBytes(arms[v.arm].fields, v.parts, w.parts);
    case _ =>
  }

  lemma {:induction false} SameItemsSameBytes(item: Shape, vs: seq<State>, ws: seq<State>)
    requires AllHaveShape(item, vs) && AllHaveShape(item, ws) && |vs| == |ws| && SameItems(item, vs, ws)
    ensures ReprItems(item, vs) == ReprItems(item, ws)
    decreases item, 1, |vs|
  {
    if vs != [] {
      SameMeansSameBytes(item, vs[0], ws[0]);
      SameItemsSameBytes(item, vs[1..], ws[1..]);
    }
  }

  lemma {:induction false} SameFieldsSameBytes(fields: seq<Shape>, vs: seq<State>, ws: seq<State>)
    requires HaveShapes(fields, vs) && HaveShapes(fields, ws) && SameFields(fields, vs, ws)
    ensures ReprFields(fields, vs) == ReprFields(fields, ws)
    decreases fields, 1, 0
  {
    if fields != [] {
      SameMeansSameBytes(fields[0], vs[0], ws[0]);
      SameFieldsSameBytes(fields[1..], vs[1..], ws[1..]);
    }
  }

  /** Canonical: within one shape, equal bytes mean equality on everything hashed, and the other way round. */
  lemma RepresentationsAreCanonical(s: Shape, v: State, w: State)
    requires WellFormed(s) && HasShape(s, v) && HasShape(s, w)
    ensures Repr(s, v) == Repr(s, w) <==> Same(s, v, w)
  {
    hide Repr, Same, HasShape;
    if Repr(s, v) == Repr(s, w) {
      ParsesUniquely(s, v, w, [], []);
    }
    if Same(s, v, w) {
      SameMeansSameBytes(s, v, w);
    }
  }

  // ----- The streaming hasher -----

  class StateHasher {
    var state: nat

    constructor ()
      ensures state == OFFSET_BASIS
    {
      state := OFFSET_BASIS;
    }

    /** However the stream is cut into calls, the state is one fold over its bytes. */
    method WriteBytes(bytes: seq<byte>)
      modifies this
      ensures state == Fold(old(state), bytes)
    {
      hide Step;
      var i := 0;
      assert bytes[0..] == bytes;
      while i < |bytes|
        invariant i <= |bytes| && Fold(old(state), bytes) == Fold(state, bytes[i..])
      {
        assert bytes[i..][0] == bytes[i] && bytes[i..][1..] == bytes[i + 1..];
        state := Step(state, bytes[i]);
        i := i + 1;
      }
    }

    /** `field`: the value's own representation, folded in. */
    method Field(s: Shape, v: State)
      requires HasShape(s, v)
      modifies this
      ensures state == Fold(old(state), Repr(s, v))
      decreases s, 0
    {
      hide Fold, LeBytes;
      ghost var h := state;
      FoldNothing(h);
      match s {
        case Integer(width, _) =>
          WriteBytes(LeBytes(if v.n < 0 then v.n + Pow256(width) else v.n, width));
        case Flag =>
          WriteBytes([if v.on then 1 else 0]);
        case Nil =>
        case Text =>
          WriteBytes(LeBytes(|v.text|, 8));
          WriteBytes(v.text);
          FoldJoins(h, LeBytes(|v.text|, 8), v.text);
        case Items(item) =>
          WriteBytes(LeBytes(|v.items|, 8));
          FieldItems(item, v.items);
          FoldJoins(h, LeBytes(|v.items|, 8), ReprItems(item, v.items));
        case Maybe(item) =>
          if v.Absent? {
            WriteBytes([0]);
          } else {
            WriteBytes([1]);
            Field(item, v.value);
            FoldJoins(h, [1], Repr(item, v.value));
          }
        case Fields(fields) =>
          FieldEach(fields, v.parts);
        case Enum(arms) =>
          WriteBytes([arms[v.arm].tag]);
          FieldEach(arms[v.arm].fields, v.parts);
          FoldJoins(h, [arms[v.arm].tag], ReprFields(arms[v.arm].fields, v.parts));
        case Skipped =>
      }
    }

    method FieldItems(item: Shape, vs: seq<State>)
      requires AllHaveShape(item, vs)
      modifies this
      ensures state == Fold(old(state), ReprItems(item, vs))
      decreases item, 1
    {
      hide Fold, Repr, HasShape;
      var i := 0;
      assert vs[0..] == vs;
      while i < |vs|
        invariant i <= |vs| && AllHaveShape(item, vs[i..])
        invariant Fold(old(state), ReprItems(item, vs)) == Fold(state, ReprItems(item, vs[i..]))
      {
        assert vs[i..][0] == vs[i] && vs[i..][1..] == vs[i + 1..];
        FoldJoins(state, Repr(item, vs[i]), ReprItems(item, vs[i + 1..]));
        Field(item, vs[i]);
        i := i + 1;
      }
      FoldNothing(state);
    }

    method FieldEach(fields: seq<Shape>, vs: seq<State>)
      requires HaveShapes(fields, vs)
      modifies this
      ensures state == Fold(old(state), ReprFields(fields, vs))
      decreases fields, 1
    {
      hide Fold, Repr, HasShape;
      var i := 0;
      SameCount(fields, vs);
      assert fields[0..] == fields && vs[0..] == vs;
      while i < |fields|
        invariant i <= |fields| && HaveShapes(fields[i..], vs[i..])
        invariant Fold(old(state), ReprFields(fields, vs)) == Fold(state, ReprFields(fields[i..], vs[i..]))
      {
        assert fields[i..][0] == fields[i] && fields[i..][1..] == fields[i + 1..];
        assert vs[i..][0] == vs[i] && vs[i..][1..] == vs[i + 1..];
        FoldJoins(state, Repr(fields[i], vs[i]), ReprFields(fields[i + 1..], vs[i + 1..]));
        Field(fields[i], vs[i]);
        i := i + 1;
      }
      FoldNothing(state);
    }
  }

  lemma FoldNothing(h: nat)
    ensures Fold(h, []) == h
  {
  }

  lemma {:induction false} SameCount(fields: seq<Shape>, vs: seq<State>)
    requires HaveShapes(fields, vs)
    ensures |fields| == |vs|
  {
    hide HasShape;
    if fields != [] {
      SameCount(fields[1..], vs[1..]);
    }
  }

  /** `stable_hash`. */
  method StableHash(s: Shape, v: State) returns (fingerprint: nat)
    requires HasShape(s, v)
    ensures fingerprint == Fold(OFFSET_BASIS, Repr(s, v)) < MODULUS
  {
    hide Repr, Step;
    FoldStaysInWord(OFFSET_BASIS, Repr(s, v));
    var hasher := new StateHasher();
    hasher.Field(s, v);
    fingerprint := hasher.state;
  }
}

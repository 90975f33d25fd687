/** Shared vocabulary: bytes, fixed machine widths, little-endian integers and error results. */
module Bytes {

  newtype byte = n: int | 0 <= n < 256
  type u64 = n: int | 0 <= n <= 0xFFFF_FFFF_FFFF_FFFF

  /** The bound on one payload, whether a command's or a header's (crates/synctick/src/codec.rs:9). */
  const MAX_PAYLOAD_BYTES: nat := 0x1_0000

  const U16_MAX: nat := 0xFFFF
  const U32_MAX: nat := 0xFFFF_FFFF
  const U64_MAX: nat := 0xFFFF_FFFF_FFFF_FFFF

  datatype Option<+T> = None | Some(value: T)

  datatype Result<+T, +E> = Ok(value: T) | Err(error: E) {
    predicate IsFailure() { Err? }
    function PropagateFailure<U>(): Result<U, E>
      requires Err?
    {
      Err(error)
    }
    function Extract(): T
      requires Ok?
    {
      value
    }
  }

  /** A reader that works in place did what is specified: same value and new state, or same error. */
  ghost predicate Follows<T, State, E>(r: Result<T, E>, now: State, spec: Result<(T, State), E>) {
    match spec
    case Ok((value, after)) => r == Ok(value) && now == after
    case Err(e) => r == Err(e)
  }

  /** What is read with `read` already read. */
  function Prepend<T, State, E>(read: seq<T>, more: Result<(seq<T>, State), E>): Result<(seq<T>, State), E> {
    match more
    case Ok((values, after)) => Ok((read + values, after))
    case Err(e) => Err(e)
  }

  function Min(a: nat, b: nat): nat { if a < b then a else b }

  lemma ProductMonotone(a: int, b: int, d: nat)
    ensures a <= b ==> a * d <= b * d
  {
  }

  lemma {:induction false} SubsetCount<T>(a: set<T>, b: set<T>)
    requires a <= b
    ensures |a| <= |b|
  {
    if a != {} {
      var x :| x in a;
      SubsetCount(a - {x}, b - {x});
    }
  }

  lemma Regroup<T>(a: seq<T>, b: seq<T>, c: seq<T>)
    ensures (a + b) + c == a + (b + c)
  {
  }

  lemma SlicesJoin<T>(xs: seq<T>, a: nat, b: nat, c: nat)
    requires a <= b <= c <= |xs|
    ensures xs[a..b] + xs[b..c] == xs[a..c]
  {
  }

  lemma PrefixGrows<T>(xs: seq<T>, k: nat, ys: seq<T>)
    requires k <= |xs| && ys <= xs[k..]
    ensures k + |ys| <= |xs| && xs[..k + |ys|] == xs[..k] + ys
    ensures xs[k..][|ys|..] == xs[k + |ys|..]
    ensures k + |ys| < |xs| ==> xs[k..][|ys|] == xs[k + |ys|]
    ensures ys == xs[k..] <==> k + |ys| == |xs|
  {
    assert ys == xs[k..][..|ys|];
  }

  function Pow256(width: nat): (p: nat)
    ensures p >= 1
  {
    if width == 0 then 1 else 256 * Pow256(width - 1)
  }

  /** The fixed-width little-endian form of `n`, as every `to_le_bytes` in the source. */
  function LeBytes(n: nat, width: nat): (b: seq<byte>)
    ensures |b| == width
  {
    if width == 0 then [] else [(n % 256) as byte] + LeBytes(n / 256, width - 1)
  }

  function LeValue(b: seq<byte>): (n: nat)
    ensures n < Pow256(|b|)
  {
    if b == [] then 0 else b[0] as int + 256 * LeValue(b[1..])
  }

  lemma {:induction false} LeValueOfBytes(n: nat, width: nat)
    requires n < Pow256(width)
    ensures LeValue(LeBytes(n, width)) == n
  {
    if width > 0 {
      LeValueOfBytes(n / 256, width - 1);
      assert LeBytes(n, width)[1..] == LeBytes(n / 256, width - 1);
    }
  }

  lemma {:induction false} LeBytesOfValue(b: seq<byte>)
    ensures LeBytes(LeValue(b), |b|) == b
  {
    if b != [] {
      LeBytesOfValue(b[1..]);
      LowestDigit(b[0] as int, LeValue(b[1..]));
    }
  }

  lemma LowestDigit(d: nat, rest: nat)
    requires d < 256
    ensures (d + 256 * rest) % 256 == d && (d + 256 * rest) / 256 == rest
  {
  }

  lemma Widths()
    ensures Pow256(1) == 0x100 && Pow256(2) == U16_MAX + 1
    ensures Pow256(4) == U32_MAX + 1 && Pow256(8) == U64_MAX + 1
  {
    assert Pow256(3) == 256 * Pow256(2);
    assert Pow256(5) == 256 * Pow256(4);
    assert Pow256(6) == 256 * Pow256(5);
    assert Pow256(7) == 256 * Pow256(6);
  }
}

/**
  The bounded payload codec (crates/synctick/src/codec.rs) and what `#[derive(Wire)]` generates
  for it (crates/synctick-derive/src/wire.rs): one schema, three interpreters over it, and an exact
  account of what encodes and what decodes.
*/
module Codec {
  import opened Bytes

  const MAX_ALLOCATION: nat := 0x40_0000
  const MAX_DEPTH: nat := 32

  datatype CodecError =
    | OverBudget | Truncated | LengthExceedsPayload | AllocationExceeded | NestingExceeded
    | BadMarker | BadText | UnknownTag | TooLong | TrailingBytes

  /**
    A derivable type. `Number` is a little-endian integer, `Marker` the unit type, `Text` a string
    under an arbitrary validity test on bytes, `List` a vector whose items have any in-memory size,
    `Record` a struct and `Choice` an enum.
  */
  datatype Schema =
    | Number(width: nat, signed: bool)
    | Marker
    | Text(valid: seq<byte> -> bool)
    | List(item: Schema, itemSize: nat)
    | Record(fields: seq<Schema>)
    | Choice(arms: seq<Arm>)
  datatype Arm = Arm(tag: byte, fields: seq<Schema>)

  datatype Value =
    | Num(n: int)
    | Nothing
    | Str(text: seq<byte>)
    | Items(items: seq<Value>)
    | Parts(parts: seq<Value>)
    | Case(arm: nat, parts: seq<Value>)

  // ----- Types -----

  /** What the derive accepts: nonempty structs, and nonempty enums with one tag per variant. */
  ghost predicate WellFormed(s: Schema)
    decreases s, 0
  {
    match s
    case Number(width, signed) => width in {1, 2, 4, 8} && (signed ==> width >= 4)
    case Marker => true
    case Text(_) => true
    case List(item, _) => WellFormed(item)
    case Record(fields) => fields != [] && AllWellFormed(fields)
    case Choice(arms) =>
      && arms != [] && DistinctTags(arms)
      && forall i :: 0 <= i < |arms| ==> AllWellFormed(arms[i].fields)
  }

  ghost predicate AllWellFormed(fields: seq<Schema>)
    decreases fields, 1
  {
    forall i :: 0 <= i < |fields| ==> WellFormed(fields[i])
  }

  ghost predicate DistinctTags(arms: seq<Arm>) {
    forall i, j :: 0 <= i < j < |arms| ==> arms[i].tag != arms[j].tag
  }

  function Low(width: nat, signed: bool): int { if signed then -(Half(width) as int) else 0 }
  function High(width: nat, signed: bool): int { if signed then Half(width) else Pow256(width) }
  function Half(width: nat): nat { Pow256(width) / 2 }

  predicate HasType(s: Schema, v: Value)
    decreases s, 0, 0
  {
    match s
    case Number(width, signed) => v.Num? && Low(width, signed) <= v.n < High(width, signed)
    case Marker => v.Nothing?
    case Text(valid) => v.Str? && valid(v.text)
    case List(item, _) => v.Items? && AllHaveType(item, v.items)
    case Record(fields) => v.Parts? && HaveTypes(fields, v.parts)
    case Choice(arms) => v.Case? && v.arm < |arms| && HaveTypes(arms[v.arm].fields, v.parts)
  }

  predicate AllHaveType(item: Schema, vs: seq<Value>)
    decreases item, 1, |vs|
  {
    vs == [] || (HasType(item, vs[0]) && AllHaveType(item, vs[1..]))
  }

  predicate HaveTypes(fields: seq<Schema>, vs: seq<Value>)
    decreases fields, 1, 0
  {
    if fields == [] then vs == [] else vs != [] && HasType(fields[0], vs[0]) && HaveTypes(fields[1..], vs[1..])
  }

  // ----- Meaning of the format -----

  /** The bytes of a value. */
  function Flat(s: Schema, v: Value): seq<byte>
    requires HasType(s, v)
    decreases s, 0, 0
  {
    match s
    case Number(width, _) => LeBytes(if v.n < 0 then v.n + Pow256(width) else v.n, width)
    case Marker => [0]
    case Text(_) => LeBytes(|v.text|, 4) + v.text
    case List(item, _) => LeBytes(|v.items|, 4) + FlatItems(item, v.items)
    case Record(fields) => FlatFields(fields, v.parts)
    case Choice(arms) => [arms[v.arm].tag] + FlatFields(arms[v.arm].fields, v.parts)
  }

  function FlatItems(item: Schema, vs: seq<Value>): seq<byte>
    requires AllHaveType(item, vs)
    decreases item, 1, |vs|
  {
    if vs == [] then [] else Flat(item, vs[0]) + FlatItems(item, vs[1..])
  }

  function FlatFields(fields: seq<Schema>, vs: seq<Value>): seq<byte>
    requires HaveTypes(fields, vs)
    decreases fields, 1, 0
  {
    if fields == [] then [] else Flat(fields[0], vs[0]) + FlatFields(fields[1..], vs[1..])
  }

  /** An item counts at least one byte, whatever its in-memory size. */
  function ItemCost(itemSize: nat): nat { if itemSize == 0 then 1 else itemSize }

  /** What a value counts against the allocation budget. */
  function Alloc(s: Schema, v: Value): nat
    requires HasType(s, v)
    decreases s, 0, 0
  {
    match s
    case Text(_) => |v.text|
    case List(item, itemSize) => |v.items| * ItemCost(itemSize) + AllocItems(item, v.items)
    case Record(fields) => AllocFields(fields, v.parts)
    case Choice(arms) => AllocFields(arms[v.arm].fields, v.parts)
    case _ => 0
  }

  function AllocItems(item: Schema, vs: seq<Value>): nat
    requires AllHaveType(item, vs)
    decreases item, 1, |vs|
  {
    if vs == [] then 0 else Alloc(item, vs[0]) + AllocItems(item, vs[1..])
  }

  function AllocFields(fields: seq<Schema>, vs: seq<Value>): nat
    requires HaveTypes(fields, vs)
    decreases fields, 1, 0
  {
    if fields == [] then 0 else Alloc(fields[0], vs[0]) + AllocFields(fields[1..], vs[1..])
  }

  function Max(a: nat, b: nat): nat { if a < b then b else a }

  /** How deeply lists nest in a value. */
  function Nest(s: Schema, v: Value): nat
    requires HasType(s, v)
    decreases s, 0, 0
  {
    match s
    case List(item, _) => 1 + NestItems(item, v.items)
    case Record(fields) => NestFields(fields, v.parts)
    case Choice(arms) => NestFields(arms[v.arm].fields, v.parts)
    case _ => 0
  }

  function NestItems(item: Schema, vs: seq<Value>): nat
    requires AllHaveType(item, vs)
    decreases item, 1, |vs|
  {
    if vs == [] then 0 else Max(Nest(item, vs[0]), NestItems(item, vs[1..]))
  }

  function NestFields(fields: seq<Schema>, vs: seq<Value>): nat
    requires HaveTypes(fields, vs)
    decreases fields, 1, 0
  {
    if fields == [] then 0 else Max(Nest(fields[0], vs[0]), NestFields(fields[1..], vs[1..]))
  }

  /** `MIN_SIZE`, as the scalar implementations and the derive compute it. */
  function MinSize(s: Schema): nat
    decreases s, 0, 0
  {
    match s
    case Number(width, _) => width
    case Marker => 1
    case Text(_) => 4
    case List(_, _) => 4
    case Record(fields) => MinFields(fields)
    case Choice(arms) => MinArms(arms)
  }

  function MinFields(fields: seq<Schema>): nat
    decreases fields, 1, 0
  {
    if fields == [] then 0 else MinSize(fields[0]) + MinFields(fields[1..])
  }

  function MinArms(arms: seq<Arm>): nat
    decreases arms, 1, 0
  {
    if arms == [] then 0
    else
      var first := 1 + MinFields(arms[0].fields);
      if |arms| == 1 || first < MinArms(arms[1..]) then first else MinArms(arms[1..])
  }

  lemma {:induction false} MinSizeIsPositive(s: Schema)
    requires WellFormed(s)
    ensures MinSize(s) > 0
    decreases s
  {
    match s
    case Record(fields) => MinSizeIsPositive(fields[0]);
    case Choice(arms) => MinArmsBound(arms, 0);
    case _ =>
  }

  lemma {:induction false} MinArmsBound(arms: seq<Arm>, i: nat)
    requires i < |arms|
    ensures 0 < MinArms(arms) <= 1 + MinFields(arms[i].fields)
    decreases |arms|
  {
    if |arms| > 1 {
      MinArmsBound(arms[1..], if i == 0 then 0 else i - 1);
    }
  }

  /** Every encoding is at least as long as the declared minimum. */
  lemma {:induction false} MinSizeBounds(s: Schema, v: Value)
    requires HasType(s, v)
    ensures MinSize(s) <= |Flat(s, v)|
    decreases s, 0, 0
  {
    match s
    case Record(fields) => MinFieldsBound(fields, v.parts);
    case Choice(arms) =>
      MinArmsBound(arms, v.arm);
      MinFieldsBound(arms[v.arm].fields, v.parts);
    case _ =>
  }

  lemma {:induction false} MinFieldsBound(fields: seq<Schema>, vs: seq<Value>)
    requires HaveTypes(fields, vs)
    ensures MinFields(fields) <= |FlatFields(fields, vs)|
    decreases fields, 1, 0
  {
    if fields != [] {
      MinSizeBounds(fields[0], vs[0]);
      MinFieldsBound(fields[1..], vs[1..]);
    }
  }

  lemma {:induction false} MinItemsBound(item: Schema, vs: seq<Value>)
    requires AllHaveType(item, vs)
    ensures |vs| * MinSize(item) <= |FlatItems(item, vs)|
    decreases |vs|
  {
    hide Flat, MinSize;
    if vs != [] {
      MinSizeBounds(item, vs[0]);
      MinItemsBound(item, vs[1..]);
      assert |vs| * MinSize(item) == MinSize(item) + |vs[1..]| * MinSize(item);
    }
  }

  // ----- The reader -----

  datatype Reader = Reader(remaining: seq<byte>, allocation: nat, depth: nat)

  type Reading<T> = Result<(T, Reader), CodecError>

  function Take(r: Reader, count: nat): Reading<seq<byte>> {
    if count > |r.remaining| then Err(Truncated)
    else Ok((r.remaining[..count], r.(remaining := r.remaining[count..])))
  }

  function FromLe(b: seq<byte>, signed: bool): int {
    if signed && LeValue(b) >= Half(|b|) then LeValue(b) - Pow256(|b|) else LeValue(b)
  }

  function ReadNumber(r: Reader, width: nat, signed: bool): Reading<int> {
    var (bytes, rest) :- Take(r, width);
    Ok((FromLe(bytes, signed), rest))
  }

  /** A declared length, checked against what is left and charged before anything is built. */
  function ReadCount(r: Reader, minSize: nat, itemSize: nat): (res: Reading<nat>)
    ensures res.Ok? ==> res.value.1.depth == r.depth
  {
    var (bytes, rest) :- Take(r, 4);
    var count := LeValue(bytes);
    if minSize == 0 || count > |rest.remaining| / minSize then Err(LengthExceedsPayload)
    else
      var charged := rest.allocation + count * ItemCost(itemSize);
      if charged > MAX_ALLOCATION then Err(AllocationExceeded)
      else Ok((count, rest.(allocation := charged)))
  }

  function Enter(r: Reader): Result<Reader, CodecError> {
    if r.depth + 1 > MAX_DEPTH then Err(NestingExceeded) else Ok(r.(depth := r.depth + 1))
  }

  /** The variant a tag selects: the first match arm that carries it. */
  function Find(arms: seq<Arm>, tag: byte): (i: nat)
    ensures i <= |arms| && (i < |arms| ==> arms[i].tag == tag)
    ensures forall j :: 0 <= j < i ==> arms[j].tag != tag
  {
    if arms == [] || arms[0].tag == tag then 0 else 1 + Find(arms[1..], tag)
  }

  // ----- Validation -----

  function Validate(s: Schema, r: Reader): (res: Result<Reader, CodecError>)
    ensures res.Ok? ==> res.value.depth == r.depth
    decreases s, 0, 0
  {
    match s
    case Number(width, _) =>
      var (_, rest) :- Take(r, width);
      Ok(rest)
    case Marker =>
      var (n, rest) :- ReadNumber(r, 1, false);
      if n != 0 then Err(BadMarker) else Ok(rest)
    case Text(valid) =>
      var (count, rest) :- ReadCount(r, 1, 1);
      var (text, rest) :- Take(rest, count);
      if !valid(text) then Err(BadText) else Ok(rest)
    case List(item, itemSize) =>
      var inner :- Enter(r);
      var (count, rest) :- ReadCount(inner, MinSize(item), itemSize);
      var rest :- ValidateItems(item, count, rest);
      Ok(rest.(depth := rest.depth - 1))
    case Record(fields) => ValidateFields(fields, r)
    case Choice(arms) =>
      var (tag, rest) :- ReadNumber(r, 1, false);
      var i := Find(arms, tag as byte);
      if i == |arms| then Err(UnknownTag) else ValidateFields(arms[i].fields, rest)
  }

  function ValidateItems(item: Schema, count: nat, r: Reader): (res: Result<Reader, CodecError>)
    ensures res.Ok? ==> res.value.depth == r.depth
    decreases item, 1, count
  {
    if count == 0 then Ok(r)
    else
      var rest :- Validate(item, r);
      ValidateItems(item, count - 1, rest)
  }

  function ValidateFields(fields: seq<Schema>, r: Reader): (res: Result<Reader, CodecError>)
    ensures res.Ok? ==> res.value.depth == r.depth
    decreases fields, 1, 0
  {
    if fields == [] then Ok(r)
    else
      var rest :- Validate(fields[0], r);
      ValidateFields(fields[1..], rest)
  }

  // ----- Decoding -----

  function Decode(s: Schema, r: Reader): (res: Reading<Value>)
    ensures res.Ok? ==> res.value.1.depth == r.depth
    decreases s, 0, 0
  {
    match s
    case Number(width, signed) =>
      var (n, rest) :- ReadNumber(r, width, signed);
      Ok((Num(n), rest))
    case Marker =>
      var (n, rest) :- ReadNumber(r, 1, false);
      if n != 0 then Err(BadMarker) else Ok((Nothing, rest))
    case Text(valid) =>
      var (count, rest) :- ReadCount(r, 1, 1);
      var (text, rest) :- Take(rest, count);
      if !valid(text) then Err(BadText) else Ok((Str(text), rest))
    case List(item, itemSize) =>
      var inner :- Enter(r);
      var (count, rest) :- ReadCount(inner, MinSize(item), itemSize);
      var (items, rest) :- DecodeItems(item, count, rest);
      Ok((Items(items), rest.(depth := rest.depth - 1)))
    case Record(fields) =>
      var (parts, rest) :- DecodeFields(fields, r);
      Ok((Parts(parts), rest))
    case Choice(arms) =>
      var (tag, rest) :- ReadNumber(r, 1, false);
      var i := Find(arms, tag as byte);
      if i == |arms| then Err(UnknownTag)
      else
        var (parts, rest) :- DecodeFields(arms[i].fields, rest);
        Ok((Case(i, parts), rest))
  }

  function DecodeItems(item: Schema, count: nat, r: Reader): (res: Reading<seq<Value>>)
    ensures res.Ok? ==> res.value.1.depth == r.depth
    decreases item, 1, count
  {
    if count == 0 then Ok(([], r))
    else
      var (v, rest) :- Decode(item, r);
      var (vs, rest) :- DecodeItems(item, count - 1, rest);
      Ok(([v] + vs, rest))
  }

  function DecodeFields(fields: seq<Schema>, r: Reader): (res: Reading<seq<Value>>)
    ensures res.Ok? ==> res.value.1.depth == r.depth
    decreases fields, 1, 0
  {
    if fields == [] then Ok(([], r))
    else
      var (v, rest) :- Decode(fields[0], r);
      var (vs, rest) :- DecodeFields(fields[1..], rest);
      Ok(([v] + vs, rest))
  }

  // ----- Encoding -----

  function Write(buffer: seq<byte>, bytes: seq<byte>): Result<seq<byte>, CodecError> {
    if |buffer| + |bytes| > MAX_PAYLOAD_BYTES then Err(OverBudget) else Ok(buffer + bytes)
  }

  function WriteCount(buffer: seq<byte>, count: nat): Result<seq<byte>, CodecError> {
    if count > U32_MAX then Err(TooLong) else Write(buffer, LeBytes(count, 4))
  }

  function Encode(s: Schema, v: Value, buffer: seq<byte>): Result<seq<byte>, CodecError>
    requires HasType(s, v)
    decreases s, 0, 0
  {
    match s
    case Number(_, _) => Write(buffer, Flat(s, v))
    case Marker => Write(buffer, [0])
    case Text(_) =>
      var counted :- WriteCount(buffer, |v.text|);
      Write(counted, v.text)
    case List(item, _) =>
      var counted :- WriteCount(buffer, |v.items|);
      EncodeItems(item, v.items, counted)
    case Record(fields) => EncodeFields(fields, v.parts, buffer)
    case Choice(arms) =>
      var tagged :- Write(buffer, [arms[v.arm].tag]);
      EncodeFields(arms[v.arm].fields, v.parts, tagged)
  }

  function EncodeItems(item: Schema, vs: seq<Value>, buffer: seq<byte>): Result<seq<byte>, CodecError>
    requires AllHaveType(item, vs)
    decreases item, 1, |vs|
  {
    if vs == [] then Ok(buffer)
    else
      var first :- Encode(item, vs[0], buffer);
      EncodeItems(item, vs[1..], first)
  }

  function EncodeFields(fields: seq<Schema>, vs: seq<Value>, buffer: seq<byte>): Result<seq<byte>, CodecError>
    requires HaveTypes(fields, vs)
    decreases fields, 1, 0
  {
    if fields == [] then Ok(buffer)
    else
      var first :- Encode(fields[0], vs[0], buffer);
      EncodeFields(fields[1..], vs[1..], first)
  }

  // ----- The three entry points -----

  function ValidatePayload(s: Schema, b: seq<byte>): Result<(), CodecError> {
    if |b| > MAX_PAYLOAD_BYTES then Err(OverBudget)
    else
      var rest :- Validate(s, Reader(b, 0, 0));
      if rest.remaining != [] then Err(TrailingBytes) else Ok(())
  }

  function DecodePayload(s: Schema, b: seq<byte>): Result<Value, CodecError> {
    var _ :- ValidatePayload(s, b);
    var (v, rest) :- Decode(s, Reader(b, 0, 0));
    if rest.remaining != [] then Err(TrailingBytes) else Ok(v)
  }

  function EncodePayload(s: Schema, v: Value): Result<seq<byte>, CodecError>
    requires HasType(s, v)
  {
    var b :- Encode(s, v, []);
    var _ :- ValidatePayload(s, b);
    Ok(b)
  }

  // ----- Admission and execution take the same steps -----

  /** What reading leaves behind, without the value read. */
  function Left<T>(res: Reading<T>): Result<Reader, CodecError> {
    match res
    case Ok(pair) => Ok(pair.1)
    case Err(e) => Err(e)
  }

  /** Validation and decoding agree on every schema and every input: same outcome, same error, same state. */
  lemma {:induction false} ValidateIsDecode(s: Schema, r: Reader)
    ensures Validate(s, r) == Left(Decode(s, r))
    decreases s, 0, 0
  {
    match s
    case List(item, itemSize) =>
      var inner := Enter(r);
      if inner.Ok? {
        var counted := ReadCount(inner.value, MinSize(item), itemSize);
        if counted.Ok? {
          ValidateItemsIsDecode(item, counted.value.0, counted.value.1);
        }
      }
    case Record(fields) => ValidateFieldsIsDecode(fields, r);
    case Choice(arms) =>
      var tag := ReadNumber(r, 1, false);
      if tag.Ok? {
        var i := Find(arms, tag.value.0 as byte);
        if i < |arms| {
          ValidateFieldsIsDecode(arms[i].fields, tag.value.1);
        }
      }
    case _ =>
  }

  lemma {:induction false} ValidateItemsIsDecode(item: Schema, count: nat, r: Reader)
    ensures ValidateItems(item, count, r) == Left(DecodeItems(item, count, r))
    decreases item, 1, count
  {
    hide Validate, Decode;
    if count > 0 {
      ValidateIsDecode(item, r);
      if Validate(item, r).Ok? {
        ValidateItemsIsDecode(item, count - 1, Validate(item, r).value);
      }
    }
  }

  lemma {:induction false} ValidateFieldsIsDecode(fields: seq<Schema>, r: Reader)
    ensures ValidateFields(fields, r) == Left(DecodeFields(fields, r))
    decreases fields, 1, 0
  {
    hide Validate, Decode;
    if fields != [] {
      ValidateIsDecode(fields[0], r);
      if Validate(fields[0], r).Ok? {
        ValidateFieldsIsDecode(fields[1..], Validate(fields[0], r).value);
      }
    }
  }

  /** A payload that passes admission never fails to decode, on any machine. */
  lemma AdmissionImpliesExecution(s: Schema, b: seq<byte>)
    ensures ValidatePayload(s, b).Ok? <==> DecodePayload(s, b).Ok?
  {
    hide Validate, Decode;
    ValidateIsDecode(s, Reader(b, 0, 0));
  }

  // ----- Integers -----

  lemma HalfIsHalf(width: nat)
    requires width > 0
    ensures 2 * Half(width) == Pow256(width)
  {
    Halved(128 * Pow256(width - 1));
  }

  lemma Halved(n: nat)
    ensures (2 * n) / 2 == n
  {
  }

  function ToLe(n: int, width: nat): seq<byte>
    requires -(Pow256(width) as int) <= n
  {
    LeBytes(if n < 0 then n + Pow256(width) else n, width)
  }

  lemma NumberRoundTrip(n: int, width: nat, signed: bool)
    requires width > 0 && Low(width, signed) <= n < High(width, signed)
    ensures FromLe(ToLe(n, width), signed) == n
  {
    HalfIsHalf(width);
    LeValueOfBytes(if n < 0 then n + Pow256(width) else n, width);
  }

  lemma BytesRoundTrip(b: seq<byte>, signed: bool)
    requires b != []
    ensures Low(|b|, signed) <= FromLe(b, signed) < High(|b|, signed)
    ensures ToLe(FromLe(b, signed), |b|) == b
  {
    HalfIsHalf(|b|);
    LeBytesOfValue(b);
  }

  // ----- Encoding writes the flat form, or fails for its length alone -----

  /** Writing `bytes` in any number of steps: they fit, or some step fails. */
  ghost predicate Written(res: Result<seq<byte>, CodecError>, buffer: seq<byte>, bytes: seq<byte>) {
    if |buffer| + |bytes| <= MAX_PAYLOAD_BYTES then res == Ok(buffer + bytes) else res.Err?
  }

  lemma WrittenMore(first: Result<seq<byte>, CodecError>, res: Result<seq<byte>, CodecError>, buffer: seq<byte>,
      x: seq<byte>, y: seq<byte>)
    requires Written(first, buffer, x)
    requires if first.Err? then res == first else Written(res, first.value, y)
    ensures Written(res, buffer, x + y)
  {
    Regroup(buffer, x, y);
  }

  lemma CountWritten(buffer: seq<byte>, count: nat)
    requires count <= U32_MAX
    ensures Written(WriteCount(buffer, count), buffer, LeBytes(count, 4))
  {
  }

  lemma {:induction false} EncodeIsFlat(s: Schema, v: Value, buffer: seq<byte>)
    requires WellFormed(s) && HasType(s, v) && |buffer| <= MAX_PAYLOAD_BYTES
    ensures Written(Encode(s, v, buffer), buffer, Flat(s, v))
    decreases s, 0, 0
  {
    hide LeBytes, WriteCount;
    match s
    case Number(_, _) =>
    case Marker =>
    case Text(_) =>
      if |v.text| > U32_MAX {
        TooLongToCount(buffer, |v.text|);
      } else {
        CountWritten(buffer, |v.text|);
        WrittenMore(WriteCount(buffer, |v.text|), Encode(s, v, buffer), buffer, LeBytes(|v.text|, 4), v.text);
      }
    case List(item, _) =>
      MinSizeIsPositive(item);
      MinItemsBound(item, v.items);
      CountBelowProduct(|v.items|, MinSize(item));
      var counted := WriteCount(buffer, |v.items|);
      if |v.items| > U32_MAX {
        TooLongToCount(buffer, |v.items|);
      } else {
        CountWritten(buffer, |v.items|);
        if counted.Ok? {
          EncodeItemsIsFlat(item, v.items, counted.value);
        }
        WrittenMore(counted, Encode(s, v, buffer), buffer, LeBytes(|v.items|, 4), FlatItems(item, v.items));
      }
    case Record(fields) => EncodeFieldsIsFlat(fields, v.parts, buffer);
    case Choice(arms) =>
      var (tag, fields) := (arms[v.arm].tag, arms[v.arm].fields);
      var tagged := Write(buffer, [tag]);
      if tagged.Ok? {
        EncodeFieldsIsFlat(fields, v.parts, tagged.value);
      }
      WrittenMore(tagged, Encode(s, v, buffer), buffer, [tag], FlatFields(fields, v.parts));
  }

  lemma TooLongToCount(buffer: seq<byte>, count: nat)
    requires count > U32_MAX
    ensures WriteCount(buffer, count) == Err(TooLong) && count > MAX_PAYLOAD_BYTES
  {
  }

  lemma CountBelowProduct(count: nat, size: nat)
    ensures size > 0 ==> count <= count * size
  {
  }

  lemma {:induction false} EncodeItemsIsFlat(item: Schema, vs: seq<Value>, buffer: seq<byte>)
    requires WellFormed(item) && AllHaveType(item, vs) && |buffer| <= MAX_PAYLOAD_BYTES
    ensures Written(EncodeItems(item, vs, buffer), buffer, FlatItems(item, vs))
    decreases item, 1, |vs|
  {
    hide Encode, Flat;
    assert buffer + [] == buffer;
    if vs != [] {
      EncodeIsFlat(item, vs[0], buffer);
      var first := Encode(item, vs[0], buffer);
      if first.Ok? {
        EncodeItemsIsFlat(item, vs[1..], first.value);
      }
      WrittenMore(first, EncodeItems(item, vs, buffer), buffer, Flat(item, vs[0]), FlatItems(item, vs[1..]));
    }
  }

  lemma {:induction false} EncodeFieldsIsFlat(fields: seq<Schema>, vs: seq<Value>, buffer: seq<byte>)
    requires AllWellFormed(fields) && HaveTypes(fields, vs) && |buffer| <= MAX_PAYLOAD_BYTES
    ensures Written(EncodeFields(fields, vs, buffer), buffer, FlatFields(fields, vs))
    decreases fields, 1, 0
  {
    hide Encode, Flat;
    assert buffer + [] == buffer;
    if fields != [] {
      EncodeIsFlat(fields[0], vs[0], buffer);
      var first := Encode(fields[0], vs[0], buffer);
      if first.Ok? {
        EncodeFieldsIsFlat(fields[1..], vs[1..], first.value);
      }
      WrittenMore(first, EncodeFields(fields, vs, buffer), buffer,
        Flat(fields[0], vs[0]), FlatFields(fields[1..], vs[1..]));
    }
  }

  // ----- Decoding an encoding -----

  /** Whether a value is within the budgets of a reader that already charged `a` and stands at depth `d`. */
  predicate Fits(a: nat, d: nat, alloc: nat, nest: nat) {
    a + alloc <= MAX_ALLOCATION && d + nest <= MAX_DEPTH
  }

  /** Reading gives back `v`, charged and with `rest` left, exactly when the budgets allow; otherwise it fails. */
  ghost predicate GivesBack<T>(res: Reading<T>, v: T, rest: seq<byte>, a: nat, d: nat, alloc: nat, nest: nat) {
    if Fits(a, d, alloc, nest) then res == Ok((v, Reader(rest, a + alloc, d))) else res.Err?
  }

  lemma TakeFront(x: seq<byte>, y: seq<byte>, a: nat, d: nat)
    ensures Take(Reader(x + y, a, d), |x|) == Ok((x, Reader(y, a, d)))
  {
    assert (x + y)[..|x|] == x && (x + y)[|x|..] == y;
  }

  lemma CountFront(count: nat, y: seq<byte>, minSize: nat, itemSize: nat, a: nat, d: nat)
    requires count <= U32_MAX && minSize > 0 && count * minSize <= |y|
    ensures var charged := a + count * ItemCost(itemSize);
      ReadCount(Reader(LeBytes(count, 4) + y, a, d), minSize, itemSize)
        == if charged > MAX_ALLOCATION then Err(AllocationExceeded) else Ok((count, Reader(y, charged, d)))
  {
    TakeFront(LeBytes(count, 4), y, a, d);
    Widths();
    LeValueOfBytes(count, 4);
    CountWithinQuotient(count, minSize, |y|);
  }

  lemma CountWithinQuotient(count: nat, size: nat, total: nat)
    requires size > 0
    ensures count * size <= total <==> count <= total / size
  {
    assert total == total / size * size + total % size;
    if count <= total / size {
      assert count * size <= total / size * size by {
        ProductMonotone(count, total / size, size);
      }
    } else {
      ProductMonotone(total / size + 1, count, size);
    }
  }

  lemma {:induction false} DecodeOfFlat(s: Schema, v: Value, rest: seq<byte>, a: nat, d: nat)
    requires WellFormed(s) && HasType(s, v) && |Flat(s, v)| <= MAX_PAYLOAD_BYTES
    requires a <= MAX_ALLOCATION && d <= MAX_DEPTH
    ensures GivesBack(Decode(s, Reader(Flat(s, v) + rest, a, d)), v, rest, a, d, Alloc(s, v), Nest(s, v))
    decreases s, 0, 0
  {
    hide LeBytes, ReadCount, DecodeFields, FlatFields, AllocFields, NestFields;
    match s
    case Number(_, _) => NumberOfFlat(s, v, rest, a, d);
    case Marker => ByteFront(0, rest, a, d);
    case Text(_) => TextOfFlat(s, v, rest, a, d);
    case List(item, itemSize) => ListOfFlat(item, itemSize, v, rest, a, d);
    case Record(fields) => FieldsOfFlat(fields, v.parts, rest, a, d);
    case Choice(arms) =>
      var fields := arms[v.arm].fields;
      Regroup([arms[v.arm].tag], FlatFields(fields, v.parts), rest);
      ByteFront(arms[v.arm].tag, FlatFields(fields, v.parts) + rest, a, d);
      FindsArm(arms, v.arm);
      FieldsOfFlat(fields, v.parts, rest, a, d);
  }

  lemma NumberOfFlat(s: Schema, v: Value, rest: seq<byte>, a: nat, d: nat)
    requires s.Number? && s.width > 0 && HasType(s, v)
    ensures Decode(s, Reader(Flat(s, v) + rest, a, d)) == Ok((v, Reader(rest, a, d)))
  {
    hide LeBytes;
    HalfIsHalf(s.width);
    TakeFront(Flat(s, v), rest, a, d);
    NumberRoundTrip(v.n, s.width, s.signed);
  }

  lemma TextOfFlat(s: Schema, v: Value, rest: seq<byte>, a: nat, d: nat)
    requires s.Text? && HasType(s, v) && |v.text| <= MAX_PAYLOAD_BYTES && d <= MAX_DEPTH
    ensures GivesBack(Decode(s, Reader(Flat(s, v) + rest, a, d)), v, rest, a, d, |v.text|, 0)
  {
    hide LeBytes, ReadCount;
    Regroup(LeBytes(|v.text|, 4), v.text, rest);
    CountFront(|v.text|, v.text + rest, 1, 1, a, d);
    TakeFront(v.text, rest, a + |v.text|, d);
  }

  lemma ByteFront(b: byte, rest: seq<byte>, a: nat, d: nat)
    ensures ReadNumber(Reader([b] + rest, a, d), 1, false) == Ok((b as int, Reader(rest, a, d)))
  {
    TakeFront([b], rest, a, d);
    assert [b][1..] == [];
  }

  lemma FindsArm(arms: seq<Arm>, i: nat)
    requires i < |arms| && DistinctTags(arms)
    ensures Find(arms, arms[i].tag) == i
  {
    var j := Find(arms, arms[i].tag);
    assert j <= i;
  }

  lemma {:induction false} ListOfFlat(item: Schema, itemSize: nat, v: Value, rest: seq<byte>, a: nat, d: nat)
    requires WellFormed(item) && v.Items? && AllHaveType(item, v.items)
    requires 4 + |FlatItems(item, v.items)| <= MAX_PAYLOAD_BYTES
    requires a <= MAX_ALLOCATION && d <= MAX_DEPTH
    ensures var s := List(item, itemSize);
      GivesBack(Decode(s, Reader(Flat(s, v) + rest, a, d)), v, rest, a, d, Alloc(s, v), Nest(s, v))
    decreases item, 2, 0
  {
    hide LeBytes, FlatItems, AllocItems, NestItems, DecodeItems, ReadCount;
    var (s, items, bytes) := (List(item, itemSize), v.items, FlatItems(item, v.items));
    MinSizeIsPositive(item);
    MinItemsBound(item, items);
    CountBelowProduct(|items|, MinSize(item));
    Regroup(LeBytes(|items|, 4), bytes, rest);
    if d < MAX_DEPTH {
      CountFront(|items|, bytes + rest, MinSize(item), itemSize, a, d + 1);
      var charged := a + |items| * ItemCost(itemSize);
      if charged <= MAX_ALLOCATION {
        ItemsOfFlat(item, items, rest, charged, d + 1);
      }
    }
  }

  lemma {:induction false} ItemsOfFlat(item: Schema, vs: seq<Value>, rest: seq<byte>, a: nat, d: nat)
    requires WellFormed(item) && AllHaveType(item, vs) && |FlatItems(item, vs)| <= MAX_PAYLOAD_BYTES
    requires a <= MAX_ALLOCATION && d <= MAX_DEPTH
    ensures GivesBack(DecodeItems(item, |vs|, Reader(FlatItems(item, vs) + rest, a, d)), vs, rest, a, d,
              AllocItems(item, vs), NestItems(item, vs))
    decreases item, 1, |vs|
  {
    hide Flat, Alloc, Nest, Decode;
    if vs == [] {
      assert [] + rest == rest;
    } else {
      Regroup(Flat(item, vs[0]), FlatItems(item, vs[1..]), rest);
      DecodeOfFlat(item, vs[0], FlatItems(item, vs[1..]) + rest, a, d);
      if Fits(a, d, Alloc(item, vs[0]), Nest(item, vs[0])) {
        ItemsOfFlat(item, vs[1..], rest, a + Alloc(item, vs[0]), d);
      }
      assert vs == [vs[0]] + vs[1..];
    }
  }

  lemma {:induction false} FieldsOfFlat(fields: seq<Schema>, vs: seq<Value>, rest: seq<byte>, a: nat, d: nat)
    requires AllWellFormed(fields) && HaveTypes(fields, vs) && |FlatFields(fields, vs)| <= MAX_PAYLOAD_BYTES
    requires a <= MAX_ALLOCATION && d <= MAX_DEPTH
    ensures GivesBack(DecodeFields(fields, Reader(FlatFields(fields, vs) + rest, a, d)), vs, rest, a, d,
              AllocFields(fields, vs), NestFields(fields, vs))
    decreases fields, 1, 0
  {
    hide Flat, Alloc, Nest, Decode;
    if fields == [] {
      assert [] + rest == rest;
    } else {
      Regroup(Flat(fields[0], vs[0]), FlatFields(fields[1..], vs[1..]), rest);
      DecodeOfFlat(fields[0], vs[0], FlatFields(fields[1..], vs[1..]) + rest, a, d);
      if Fits(a, d, Alloc(fields[0], vs[0]), Nest(fields[0], vs[0])) {
        FieldsOfFlat(fields[1..], vs[1..], rest, a + Alloc(fields[0], vs[0]), d);
      }
      assert vs == [vs[0]] + vs[1..];
    }
  }

  // ----- Whatever decodes is an encoding -----

  /** A successful read took exactly the value's flat form, within every budget. */
  ghost predicate Taken(r: Reader, after: Reader, flat: seq<byte>, alloc: nat, nest: nat) {
    && r.remaining == flat + after.remaining
    && after.allocation == r.allocation + alloc <= MAX_ALLOCATION
    && after.depth == r.depth && r.depth + nest <= MAX_DEPTH
  }

  ghost predicate InBudget(r: Reader) { r.allocation <= MAX_ALLOCATION && r.depth <= MAX_DEPTH }

  lemma NumberTaken(r: Reader, width: nat, signed: bool)
    requires width > 0 && InBudget(r) && ReadNumber(r, width, signed).Ok?
    ensures var (n, after) := ReadNumber(r, width, signed).value;
      && Low(width, signed) <= n < High(width, signed)
      && -(Pow256(width) as int) <= n && Taken(r, after, ToLe(n, width), 0, 0)
  {
    hide LeBytes, LeValue, Pow256;
    HalfIsHalf(width);
    BytesRoundTrip(r.remaining[..width], signed);
    assert r.remaining == r.remaining[..width] + r.remaining[width..];
  }

  lemma ByteTaken(r: Reader)
    requires InBudget(r) && ReadNumber(r, 1, false).Ok?
    ensures var (n, after) := ReadNumber(r, 1, false).value;
      0 <= n < 256 && Taken(r, after, [n as byte], 0, 0)
  {
    NumberTaken(r, 1, false);
    Widths();
    assert LeBytes(ReadNumber(r, 1, false).value.0, 1) == [ReadNumber(r, 1, false).value.0 as byte];
  }

  lemma CountTaken(r: Reader, minSize: nat, itemSize: nat)
    requires InBudget(r) && ReadCount(r, minSize, itemSize).Ok?
    ensures var (count, after) := ReadCount(r, minSize, itemSize).value;
      && count <= U32_MAX && Taken(r, after, LeBytes(count, 4), count * ItemCost(itemSize), 0)
  {
    Widths();
    LeBytesOfValue(r.remaining[..4]);
  }

  lemma TakenThen(r: Reader, mid: Reader, after: Reader, x: seq<byte>, y: seq<byte>, m: nat, n: nat, p: nat, q: nat)
    requires Taken(r, mid, x, m, p) && Taken(mid, after, y, n, q)
    ensures Taken(r, after, x + y, m + n, Max(p, q))
  {
    Regroup(x, y, after.remaining);
  }

  lemma {:induction false} DecodeTakesFlat(s: Schema, r: Reader)
    requires WellFormed(s) && InBudget(r) && Decode(s, r).Ok?
    ensures var (v, after) := Decode(s, r).value;
      HasType(s, v) && Taken(r, after, Flat(s, v), Alloc(s, v), Nest(s, v))
    decreases s, 0, 0
  {
    hide LeBytes, ReadNumber, ReadCount, Taken, DecodeFields, FlatFields, AllocFields, NestFields, HaveTypes;
    match s
    case Number(width, signed) => NumberTaken(r, width, signed);
    case Marker => ByteTaken(r);
    case Text(_) => TextTaken(s, r);
    case List(item, itemSize) => ListTaken(item, itemSize, r);
    case Record(fields) => FieldsTaken(fields, r);
    case Choice(arms) =>
      ByteTaken(r);
      var (tag, mid) := ReadNumber(r, 1, false).value;
      var i := Find(arms, tag as byte);
      assert InBudget(mid) by {
        StaysInBudget(r, mid, [tag as byte], 0, 0);
      }
      FieldsTaken(arms[i].fields, mid);
      var (parts, after) := DecodeFields(arms[i].fields, mid).value;
      TakenThen(r, mid, after, [tag as byte], FlatFields(arms[i].fields, parts), 0, AllocFields(arms[i].fields, parts),
        0, NestFields(arms[i].fields, parts));
  }

  lemma StaysInBudget(r: Reader, after: Reader, flat: seq<byte>, alloc: nat, nest: nat)
    requires Taken(r, after, flat, alloc, nest)
    ensures InBudget(after)
  {
  }

  lemma TextTaken(s: Schema, r: Reader)
    requires s.Text? && InBudget(r) && Decode(s, r).Ok?
    ensures var (v, after) := Decode(s, r).value;
      HasType(s, v) && Taken(r, after, Flat(s, v), Alloc(s, v), Nest(s, v))
  {
    hide LeBytes, ReadCount;
    CountTaken(r, 1, 1);
    var (count, mid) := ReadCount(r, 1, 1).value;
    var (text, after) := Take(mid, count).value;
    assert Taken(mid, after, text, 0, 0);
    TakenThen(r, mid, after, LeBytes(count, 4), text, count, 0, 0, 0);
  }

  lemma {:induction false} ListTaken(item: Schema, itemSize: nat, r: Reader)
    requires WellFormed(item) && InBudget(r) && Decode(List(item, itemSize), r).Ok?
    ensures var s := List(item, itemSize);
      var (v, after) := Decode(s, r).value;
      HasType(s, v) && Taken(r, after, Flat(s, v), Alloc(s, v), Nest(s, v))
    decreases item, 2, 0
  {
    hide LeBytes, ReadCount, DecodeItems, FlatItems, AllocItems, NestItems, AllHaveType;
    var inner := Enter(r).value;
    CountTaken(inner, MinSize(item), itemSize);
    var (count, mid) := ReadCount(inner, MinSize(item), itemSize).value;
    ItemsTaken(item, count, mid);
    var (items, last) := DecodeItems(item, count, mid).value;
    TakenThen(inner, mid, last, LeBytes(count, 4), FlatItems(item, items), count * ItemCost(itemSize),
        AllocItems(item, items),
      0, NestItems(item, items));
  }

  lemma {:induction false} ItemsTaken(item: Schema, count: nat, r: Reader)
    requires WellFormed(item) && InBudget(r) && DecodeItems(item, count, r).Ok?
    ensures var (vs, after) := DecodeItems(item, count, r).value;
      && |vs| == count && AllHaveType(item, vs)
      && Taken(r, after, FlatItems(item, vs), AllocItems(item, vs), NestItems(item, vs))
    decreases item, 1, count
  {
    hide Decode, Flat, Alloc, Nest, HasType;
    if count == 0 {
      assert [] + r.remaining == r.remaining;
    } else {
      DecodeTakesFlat(item, r);
      var (v, mid) := Decode(item, r).value;
      ItemsTaken(item, count - 1, mid);
      var (vs, after) := DecodeItems(item, count - 1, mid).value;
      assert ([v] + vs)[1..] == vs;
      TakenThen(r, mid, after, Flat(item, v), FlatItems(item, vs), Alloc(item, v), AllocItems(item, vs),
        Nest(item, v), NestItems(item, vs));
    }
  }

  lemma {:induction false} FieldsTaken(fields: seq<Schema>, r: Reader)
    requires AllWellFormed(fields) && InBudget(r) && DecodeFields(fields, r).Ok?
    ensures var (vs, after) := DecodeFields(fields, r).value;
      && HaveTypes(fields, vs)
      && Taken(r, after, FlatFields(fields, vs), AllocFields(fields, vs), NestFields(fields, vs))
    decreases fields, 1, 0
  {
    hide Decode, Flat, Alloc, Nest, HasType;
    if fields == [] {
      assert [] + r.remaining == r.remaining;
    } else {
      DecodeTakesFlat(fields[0], r);
      var (v, mid) := Decode(fields[0], r).value;
      FieldsTaken(fields[1..], mid);
      var (vs, after) := DecodeFields(fields[1..], mid).value;
      assert ([v] + vs)[1..] == vs;
      TakenThen(r, mid, after, Flat(fields[0], v), FlatFields(fields[1..], vs), Alloc(fields[0], v),
          AllocFields(fields[1..], vs),
        Nest(fields[0], v), NestFields(fields[1..], vs));
    }
  }

  // ----- The bijection -----

  /** Exactly the values that can be sent. */
  ghost predicate Sendable(s: Schema, v: Value) {
    && HasType(s, v)
    && |Flat(s, v)| <= MAX_PAYLOAD_BYTES && Alloc(s, v) <= MAX_ALLOCATION && Nest(s, v) <= MAX_DEPTH
  }

  lemma PayloadOfFlat(s: Schema, v: Value, extra: seq<byte>)
    requires WellFormed(s) && HasType(s, v) && |Flat(s, v) + extra| <= MAX_PAYLOAD_BYTES
    ensures var b := Flat(s, v) + extra;
      && (Sendable(s, v) && extra == [] ==> DecodePayload(s, b) == Ok(v))
      && (DecodePayload(s, b).Ok? ==> Sendable(s, v) && extra == [])
  {
    hide Flat, Alloc, Nest, Decode, Validate, HasType;
    DecodeOfFlat(s, v, extra, 0, 0);
    ValidateIsDecode(s, Reader(Flat(s, v) + extra, 0, 0));
  }

  /** A value encodes exactly when it is within the three budgets, and then its flat form decodes to it. */
  lemma EncodesExactly(s: Schema, v: Value)
    requires WellFormed(s) && HasType(s, v)
    ensures EncodePayload(s, v).Ok? <==> Sendable(s, v)
    ensures EncodePayload(s, v).Ok? ==>
      EncodePayload(s, v).value == Flat(s, v) && DecodePayload(s, Flat(s, v)) == Ok(v)
  {
    hide Flat, Alloc, Nest, Encode, Decode, Validate, HasType;
    EncodeIsFlat(s, v, []);
    assert [] + Flat(s, v) == Flat(s, v) + [] == Flat(s, v);
    if |Flat(s, v)| <= MAX_PAYLOAD_BYTES {
      PayloadOfFlat(s, v, []);
      AdmissionImpliesExecution(s, Flat(s, v));
    }
  }

  /** Bytes decode exactly when they are some value's encoding, and re-encode to themselves. */
  lemma DecodesExactly(s: Schema, b: seq<byte>)
    requires WellFormed(s)
    ensures DecodePayload(s, b).Ok? ==>
      var v := DecodePayload(s, b).value;
      HasType(s, v) && EncodePayload(s, v) == Ok(b)
    ensures DecodePayload(s, b).Ok? <==> exists v :: HasType(s, v) && EncodePayload(s, v) == Ok(b)
  {
    hide Flat, Alloc, Nest, Encode, Decode, Validate, HasType;
    if DecodePayload(s, b).Ok? {
      var r := Reader(b, 0, 0);
      DecodeTakesFlat(s, r);
      var (v, after) := Decode(s, r).value;
      assert Flat(s, v) + [] == Flat(s, v);
      EncodesExactly(s, v);
    }
    forall v | HasType(s, v) && EncodePayload(s, v) == Ok(b)
      ensures DecodePayload(s, b).Ok?
    {
      EncodesExactly(s, v);
    }
  }

  /** No accepted payload is a proper prefix of another. */
  lemma PayloadsArePrefixFree(s: Schema, b: seq<byte>, extra: seq<byte>)
    requires WellFormed(s) && DecodePayload(s, b).Ok? && DecodePayload(s, b + extra).Ok?
    ensures extra == []
  {
    hide Flat, Alloc, Nest, Encode, Decode, Validate, HasType;
    DecodesExactly(s, b);
    var v := DecodePayload(s, b).value;
    EncodesExactly(s, v);
    PayloadOfFlat(s, v, extra);
  }

  // ----- What the budgets mean in bytes -----

  /** The bytes a value's texts hold, and its lists' items take in memory. */
  function Footprint(s: Schema, v: Value): nat
    requires HasType(s, v)
    decreases s, 0, 0
  {
    match s
    case Text(_) => |v.text|
    case List(item, itemSize) => |v.items| * itemSize + FootprintOfItems(item, v.items)
    case Record(fields) => FootprintOfFields(fields, v.parts)
    case Choice(arms) => FootprintOfFields(arms[v.arm].fields, v.parts)
    case _ => 0
  }

  function FootprintOfItems(item: Schema, vs: seq<Value>): nat
    requires AllHaveType(item, vs)
    decreases item, 1, |vs|
  {
    if vs == [] then 0 else Footprint(item, vs[0]) + FootprintOfItems(item, vs[1..])
  }

  function FootprintOfFields(fields: seq<Schema>, vs: seq<Value>): nat
    requires HaveTypes(fields, vs)
    decreases fields, 1, 0
  {
    if fields == [] then 0 else Footprint(fields[0], vs[0]) + FootprintOfFields(fields[1..], vs[1..])
  }

  /** How many list items a value holds that take no memory. */
  function Weightless(s: Schema, v: Value): nat
    requires HasType(s, v)
    decreases s, 0, 0
  {
    match s
    case List(item, itemSize) => (if itemSize == 0 then |v.items| else 0) + WeightlessItems(item, v.items)
    case Record(fields) => WeightlessFields(fields, v.parts)
    case Choice(arms) => WeightlessFields(arms[v.arm].fields, v.parts)
    case _ => 0
  }

  function WeightlessItems(item: Schema, vs: seq<Value>): nat
    requires AllHaveType(item, vs)
    decreases item, 1, |vs|
  {
    if vs == [] then 0 else Weightless(item, vs[0]) + WeightlessItems(item, vs[1..])
  }

  function WeightlessFields(fields: seq<Schema>, vs: seq<Value>): nat
    requires HaveTypes(fields, vs)
    decreases fields, 1, 0
  {
    if fields == [] then 0 else Weightless(fields[0], vs[0]) + WeightlessFields(fields[1..], vs[1..])
  }

  /** The budget counts every byte of memory, and one for each item that takes none. */
  lemma {:induction false} AllocIs(s: Schema, v: Value)
    requires HasType(s, v)
    ensures Alloc(s, v) == Footprint(s, v) + Weightless(s, v)
    decreases s, 0, 0
  {
    match s
    case List(item, itemSize) => AllocOfItems(item, v.items);
    case Record(fields) => AllocOfFields(fields, v.parts);
    case Choice(arms) => AllocOfFields(arms[v.arm].fields, v.parts);
    case _ =>
  }

  lemma {:induction false} AllocOfItems(item: Schema, vs: seq<Value>)
    requires AllHaveType(item, vs)
    ensures AllocItems(item, vs) == FootprintOfItems(item, vs) + WeightlessItems(item, vs)
    decreases item, 1, |vs|
  {
    if vs != [] {
      AllocIs(item, vs[0]);
      AllocOfItems(item, vs[1..]);
    }
  }

  lemma {:induction false} AllocOfFields(fields: seq<Schema>, vs: seq<Value>)
    requires HaveTypes(fields, vs)
    ensures AllocFields(fields, vs) == FootprintOfFields(fields, vs) + WeightlessFields(fields, vs)
    decreases fields, 1, 0
  {
    if fields != [] {
      AllocIs(fields[0], vs[0]);
      AllocOfFields(fields[1..], vs[1..]);
    }
  }

  /**
    What a payload can make of itself, in bytes of memory: anything that validates decodes to a value
    whose texts and list items take at most 4 MiB, items without a size counted as one byte each; and
    a value can be sent exactly when it keeps to this, to 64 KiB on the wire, and to 32 nested lists.
  */
  lemma MemoryIsBounded(s: Schema, b: seq<byte>)
    requires WellFormed(s)
    ensures ValidatePayload(s, b).Ok? ==>
      var decoded := DecodePayload(s, b);
      && decoded.Ok? && HasType(s, decoded.value)
      && Footprint(s, decoded.value) + Weightless(s, decoded.value) <= 0x40_0000
      && |b| <= 0x1_0000 && Nest(s, decoded.value) <= 32
  {
    hide Flat, Alloc, Nest, Footprint, Weightless, Encode, Decode, Validate, HasType;
    AdmissionImpliesExecution(s, b);
    DecodesExactly(s, b);
    if DecodePayload(s, b).Ok? {
      var v := DecodePayload(s, b).value;
      EncodesExactly(s, v);
      AllocIs(s, v);
    }
  }

  lemma SendableExactly(s: Schema, v: Value)
    requires WellFormed(s) && HasType(s, v)
    ensures EncodePayload(s, v).Ok? <==>
      && |Flat(s, v)| <= 0x1_0000 && Nest(s, v) <= 32
      && Footprint(s, v) + Weightless(s, v) <= 0x40_0000
  {
    hide Flat, Alloc, Nest, Footprint, Weightless, Encode, Decode, Validate, HasType;
    EncodesExactly(s, v);
    AllocIs(s, v);
  }

  // ----- Fixtures -----

  /** The bytes the format fixes for a command with tag 7 and one `u32` field. */
  lemma CommandFixture()
    ensures var s := Choice([Arm(0, []), Arm(7, [Number(4, false)])]);
      HasType(s, Case(1, [Num(1)])) && Flat(s, Case(1, [Num(1)])) == [7, 1, 0, 0, 0]
  {
    Widths();
    assert LeBytes(1, 4) == [1, 0, 0, 0];
    var fields := [Number(4, false)];
    assert fields[1..] == [] && [Num(1)][1..] == [];
    assert HaveTypes(fields, [Num(1)]) && FlatFields(fields, [Num(1)]) == [1, 0, 0, 0];
  }

  /** The bytes the format fixes for a list of two one-byte numbers. */
  lemma ListFixture()
    ensures var s := List(Number(1, false), 1);
      HasType(s, Items([Num(17), Num(4)])) && Flat(s, Items([Num(17), Num(4)])) == [2, 0, 0, 0, 17, 4]
  {
    Widths();
    assert LeBytes(2, 4) == [2, 0, 0, 0] && LeBytes(17, 1) == [17] && LeBytes(4, 1) == [4];
    var item := Number(1, false);
    assert [Num(4)][1..] == [] && [Num(17), Num(4)][1..] == [Num(4)];
    assert AllHaveType(item, [Num(4)]) && FlatItems(item, [Num(4)]) == [4];
  }

  // ----- Minimum sizes are attained -----

  /** Every text in it may be empty, as UTF-8 text may. */
  ghost predicate TakesEmptyText(s: Schema)
    decreases s
  {
    match s
    case Text(valid) => valid([])
    case Record(fields) => forall i :: 0 <= i < |fields| ==> TakesEmptyText(fields[i])
    case Choice(arms) =>
      forall i, j :: 0 <= i < |arms| && 0 <= j < |arms[i].fields| ==> TakesEmptyText(arms[i].fields[j])
    case _ => true
  }

  /** The declared minimum is the length of some value's encoding, so no longer one would be a minimum. */
  lemma {:induction false} MinSizeIsAttained(s: Schema) returns (v: Value)
    requires WellFormed(s) && TakesEmptyText(s)
    ensures HasType(s, v) && |Flat(s, v)| == MinSize(s)
    decreases s, 0, 0
  {
    match s
    case Number(width, signed) =>
      HalfIsHalf(width);
      v := Num(0);
    case Marker => v := Nothing;
    case Text(_) => v := Str([]);
    case List(_, _) => v := Items([]);
    case Record(fields) =>
      var parts := MinFieldsAttained(fields);
      v := Parts(parts);
    case Choice(arms) =>
      var i := LeastArm(arms);
      var parts := MinFieldsAttained(arms[i].fields);
      v := Case(i, parts);
  }

  lemma {:induction false} MinFieldsAttained(fields: seq<Schema>) returns (vs: seq<Value>)
    requires AllWellFormed(fields) && forall i :: 0 <= i < |fields| ==> TakesEmptyText(fields[i])
    ensures HaveTypes(fields, vs) && |FlatFields(fields, vs)| == MinFields(fields)
    decreases fields, 1, 0
  {
    if fields == [] {
      vs := [];
    } else {
      var first := MinSizeIsAttained(fields[0]);
      var others := MinFieldsAttained(fields[1..]);
      vs := [first] + others;
      assert vs[1..] == others;
    }
  }

  lemma {:induction false} LeastArm(arms: seq<Arm>) returns (i: nat)
    requires arms != []
    ensures i < |arms| && MinArms(arms) == 1 + MinFields(arms[i].fields)
    decreases |arms|
  {
    var first := 1 + MinFields(arms[0].fields);
    if |arms| == 1 || first < MinArms(arms[1..]) {
      i := 0;
    } else {
      var later := LeastArm(arms[1..]);
      i := later + 1;
    }
  }

  // ----- The step-by-step reader and writer -----

  lemma DecodeItemsUnfolds(vs: seq<Value>, item: Schema, count: nat, r: Reader)
    ensures Prepend([], DecodeItems(item, count, r)) == DecodeItems(item, count, r)
    ensures count == 0 ==> Prepend(vs, DecodeItems(item, count, r)) == Ok((vs, r))
    ensures count > 0 ==>
      Prepend(vs, DecodeItems(item, count, r))
        == match Decode(item, r)
           case Ok((v, after)) => Prepend(vs + [v], DecodeItems(item, count - 1, after))
           case Err(e) => Err(e)
  {
    hide Decode;
    assert vs + [] == vs;
    var all := DecodeItems(item, count, r);
    if all.Ok? {
      assert [] + all.value.0 == all.value.0;
      if count > 0 {
        var (v, after) := Decode(item, r).value;
        Regroup(vs, [v], DecodeItems(item, count - 1, after).value.0);
      }
    }
  }

  lemma DecodeFieldsUnfolds(vs: seq<Value>, fields: seq<Schema>, r: Reader)
    ensures Prepend([], DecodeFields(fields, r)) == DecodeFields(fields, r)
    ensures fields == [] ==> Prepend(vs, DecodeFields(fields, r)) == Ok((vs, r))
    ensures fields != [] ==>
      Prepend(vs, DecodeFields(fields, r))
        == match Decode(fields[0], r)
           case Ok((v, after)) => Prepend(vs + [v], DecodeFields(fields[1..], after))
           case Err(e) => Err(e)
  {
    hide Decode;
    assert vs + [] == vs;
    var all := DecodeFields(fields, r);
    if all.Ok? {
      assert [] + all.value.0 == all.value.0;
      if fields != [] {
        var (v, after) := Decode(fields[0], r).value;
        Regroup(vs, [v], DecodeFields(fields[1..], after).value.0);
      }
    }
  }

  class Decoder {
    var remaining: seq<byte>
    var allocation: nat
    var depth: nat

    constructor (bytes: seq<byte>)
      ensures AsReader() == Reader(bytes, 0, 0)
    {
      remaining, allocation, depth := bytes, 0, 0;
    }

    function AsReader(): Reader
      reads this
    {
      Reader(remaining, allocation, depth)
    }

    method TakeBytes(count: nat) returns (res: Result<seq<byte>, CodecError>)
      modifies this
      ensures Follows(res, AsReader(), Take(old(AsReader()), count))
    {
      if count > |remaining| {
        return Err(Truncated);
      }
      res := Ok(remaining[..count]);
      remaining := remaining[count..];
    }

    method DecodeNumber(width: nat, signed: bool) returns (res: Result<int, CodecError>)
      modifies this
      ensures Follows(res, AsReader(), ReadNumber(old(AsReader()), width, signed))
    {
      var bytes := TakeBytes(width);
      res := if bytes.Err? then Err(bytes.error) else Ok(FromLe(bytes.value, signed));
    }

    method CountItems(minSize: nat, itemSize: nat) returns (res: Result<nat, CodecError>)
      modifies this
      ensures Follows(res, AsReader(), ReadCount(old(AsReader()), minSize, itemSize))
    {
      var bytes := TakeBytes(4);
      if bytes.Err? {
        return Err(bytes.error);
      }
      var count := LeValue(bytes.value);
      if minSize == 0 || count > |remaining| / minSize {
        return Err(LengthExceedsPayload);
      }
      allocation := allocation + count * ItemCost(itemSize);
      res := if allocation > MAX_ALLOCATION then Err(AllocationExceeded) else Ok(count);
    }

    method EnterList() returns (error: Option<CodecError>)
      modifies `depth
      ensures match Enter(old(AsReader()))
              case Ok(inner) => error == None && AsReader() == inner
              case Err(e) => error == Some(e)
    {
      depth := depth + 1;
      error := if depth > MAX_DEPTH then Some(NestingExceeded) else None;
    }

    /** The traversal that builds nothing. */
    method ValidateValue(s: Schema) returns (error: Option<CodecError>)
      modifies this
      ensures match Validate(s, old(AsReader()))
              case Ok(after) => error == None && AsReader() == after
              case Err(e) => error == Some(e)
      decreases s, 0
    {
      hide ReadCount;
      error := None;
      match s {
        case Number(width, _) =>
          var bytes := TakeBytes(width);
          error := if bytes.Err? then Some(bytes.error) else None;
        case Marker =>
          var n := DecodeNumber(1, false);
          error := if n.Err? then Some(n.error) else if n.value != 0 then Some(BadMarker) else None;
        case Text(valid) =>
          var count := CountItems(1, 1);
          if count.Err? {
            return Some(count.error);
          }
          var text := TakeBytes(count.value);
          error := if text.Err? then Some(text.error) else if !valid(text.value) then Some(BadText) else None;
        case List(item, itemSize) =>
          error := EnterList();
          if error.Some? {
            return;
          }
          var count := CountItems(MinSize(item), itemSize);
          if count.Err? {
            return Some(count.error);
          }
          ghost var spec := ValidateItems(item, count.value, AsReader());
          var i := 0;
          while i < count.value
            invariant i <= count.value && error == None && spec == ValidateItems(item, count.value - i, AsReader())
          {
            error := ValidateValue(item);
            if error.Some? {
              return;
            }
            i := i + 1;
          }
          depth := depth - 1;
        case Record(fields) =>
          error := ValidateEach(fields);
        case Choice(arms) =>
          var tag := DecodeNumber(1, false);
          if tag.Err? {
            return Some(tag.error);
          }
          var i := Find(arms, tag.value as byte);
          if i == |arms| {
            return Some(UnknownTag);
          }
          error := ValidateEach(arms[i].fields);
      }
    }

    method ValidateEach(fields: seq<Schema>) returns (error: Option<CodecError>)
      modifies this
      ensures match ValidateFields(fields, old(AsReader()))
              case Ok(after) => error == None && AsReader() == after
              case Err(e) => error == Some(e)
      decreases fields, 1
    {
      hide Validate;
      ghost var spec := ValidateFields(fields, AsReader());
      error := None;
      var i := 0;
      assert fields[0..] == fields;
      while i < |fields|
        invariant i <= |fields| && error == None && spec == ValidateFields(fields[i..], AsReader())
      {
        assert fields[i..][0] == fields[i] && fields[i..][1..] == fields[i + 1..];
        error := ValidateValue(fields[i]);
        if error.Some? {
          return;
        }
        i := i + 1;
      }
    }

    /** The traversal that builds the value. */
    method DecodeValue(s: Schema) returns (res: Result<Value, CodecError>)
      modifies this
      ensures Follows(res, AsReader(), Decode(s, old(AsReader())))
      decreases s, 0
    {
      hide ReadCount;
      match s {
        case Number(width, signed) =>
          var n := DecodeNumber(width, signed);
          res := if n.Err? then Err(n.error) else Ok(Num(n.value));
        case Marker =>
          var n := DecodeNumber(1, false);
          res := if n.Err? then Err(n.error) else if n.value != 0 then Err(BadMarker) else Ok(Nothing);
        case Text(valid) =>
          var count := CountItems(1, 1);
          if count.Err? {
            return Err(count.error);
          }
          var text := TakeBytes(count.value);
          res :=
            if text.Err? then Err(text.error) else if !valid(text.value) then Err(BadText) else Ok(Str(text.value));
        case List(item, itemSize) =>
          var refused := EnterList();
          if refused.Some? {
            return Err(refused.value);
          }
          var count := CountItems(MinSize(item), itemSize);
          if count.Err? {
            return Err(count.error);
          }
          var values := DecodeMany(item, count.value);
          if values.Err? {
            return Err(values.error);
          }
          depth := depth - 1;
          res := Ok(Items(values.value));
        case Record(fields) =>
          var parts := DecodeEach(fields);
          res := if parts.Err? then Err(parts.error) else Ok(Parts(parts.value));
        case Choice(arms) =>
          var tag := DecodeNumber(1, false);
          if tag.Err? {
            return Err(tag.error);
          }
          var i := Find(arms, tag.value as byte);
          if i == |arms| {
            return Err(UnknownTag);
          }
          var parts := DecodeEach(arms[i].fields);
          res := if parts.Err? then Err(parts.error) else Ok(Case(i, parts.value));
      }
    }

    method DecodeMany(item: Schema, count: nat) returns (res: Result<seq<Value>, CodecError>)
      modifies this
      ensures Follows(res, AsReader(), DecodeItems(item, count, old(AsReader())))
      decreases item, 1
    {
      hide Decode, DecodeItems;
      ghost var spec := DecodeItems(item, count, AsReader());
      var values: seq<Value> := [];
      var i := 0;
      DecodeItemsUnfolds([], item, count, AsReader());
      while i < count
        invariant i <= count && spec == Prepend(values, DecodeItems(item, count - i, AsReader()))
      {
        DecodeItemsUnfolds(values, item, count - i, AsReader());
        var v := DecodeValue(item);
        if v.Err? {
          return Err(v.error);
        }
        values := values + [v.value];
        i := i + 1;
      }
      DecodeItemsUnfolds(values, item, 0, AsReader());
      res := Ok(values);
    }

    method DecodeEach(fields: seq<Schema>) returns (res: Result<seq<Value>, CodecError>)
      modifies this
      ensures Follows(res, AsReader(), DecodeFields(fields, old(AsReader())))
      decreases fields, 1
    {
      hide Decode, DecodeFields;
      ghost var spec := DecodeFields(fields, AsReader());
      var values: seq<Value> := [];
      var i := 0;
      assert fields[0..] == fields;
      DecodeFieldsUnfolds([], fields, AsReader());
      while i < |fields|
        invariant i <= |fields| && spec == Prepend(values, DecodeFields(fields[i..], AsReader()))
      {
        assert fields[i..][0] == fields[i] && fields[i..][1..] == fields[i + 1..];
        DecodeFieldsUnfolds(values, fields[i..], AsReader());
        var v := DecodeValue(fields[i]);
        if v.Err? {
          return Err(v.error);
        }
        values := values + [v.value];
        i := i + 1;
      }
      assert fields[i..] == [];
      DecodeFieldsUnfolds(values, [], AsReader());
      res := Ok(values);
    }
  }

  class Encoder {
    var buffer: seq<byte>

    constructor ()
      ensures buffer == []
    {
      buffer := [];
    }

    /** The outcome of writing: the extended buffer, or the error. */
    ghost predicate Wrote(error: Option<CodecError>, spec: Result<seq<byte>, CodecError>)
      reads this
    {
      match spec
      case Ok(b) => error == None && buffer == b
      case Err(e) => error == Some(e)
    }

    method WriteBytes(bytes: seq<byte>) returns (error: Option<CodecError>)
      modifies this
      ensures Wrote(error, Write(old(buffer), bytes))
    {
      if |buffer| + |bytes| > MAX_PAYLOAD_BYTES {
        return Some(OverBudget);
      }
      buffer := buffer + bytes;
      error := None;
    }

    method WriteLength(count: nat) returns (error: Option<CodecError>)
      modifies this
      ensures Wrote(error, WriteCount(old(buffer), count))
    {
      if count > U32_MAX {
        return Some(TooLong);
      }
      error := WriteBytes(LeBytes(count, 4));
    }

    method EncodeValue(s: Schema, v: Value) returns (error: Option<CodecError>)
      requires HasType(s, v)
      modifies this
      ensures Wrote(error, Encode(s, v, old(buffer)))
      decreases s, 0
    {
      hide Write, WriteCount;
      match s {
        case Number(width, _) =>
          error := WriteBytes(LeBytes(if v.n < 0 then v.n + Pow256(width) else v.n, width));
        case Marker =>
          error := WriteBytes([0]);
        case Text(_) =>
          error := WriteLength(|v.text|);
          if error.None? {
            error := WriteBytes(v.text);
          }
        case List(item, _) =>
          error := WriteLength(|v.items|);
          if error.None? {
            error := EncodeMany(item, v.items);
          }
        case Record(fields) =>
          error := EncodeEach(fields, v.parts);
        case Choice(arms) =>
          error := WriteBytes([arms[v.arm].tag]);
          if error.None? {
            error := EncodeEach(arms[v.arm].fields, v.parts);
          }
      }
    }

    method EncodeMany(item: Schema, vs: seq<Value>) returns (error: Option<CodecError>)
      requires AllHaveType(item, vs)
      modifies this
      ensures Wrote(error, EncodeItems(item, vs, old(buffer)))
      decreases item, 1
    {
      hide Encode, HasType;
      error := None;
      var i := 0;
      assert vs[0..] == vs;
      while i < |vs|
        invariant i <= |vs| && error == None && AllHaveType(item, vs[i..])
        invariant EncodeItems(item, vs, old(buffer)) == EncodeItems(item, vs[i..], buffer)
      {
        assert vs[i..][0] == vs[i] && vs[i..][1..] == vs[i + 1..];
        error := EncodeValue(item, vs[i]);
        if error.Some? {
          return;
        }
        i := i + 1;
      }
    }

    method EncodeEach(fields: seq<Schema>, vs: seq<Value>) returns (error: Option<CodecError>)
      requires HaveTypes(fields, vs)
      modifies this
      ensures Wrote(error, EncodeFields(fields, vs, old(buffer)))
      decreases fields, 1
    {
      hide Encode, HasType;
      error := None;
      SameLength(fields, vs);
      var i := 0;
      assert fields[0..] == fields && vs[0..] == vs;
      while i < |fields|
        invariant i <= |fields| && error == None && HaveTypes(fields[i..], vs[i..])
        invariant EncodeFields(fields, vs, old(buffer)) == EncodeFields(fields[i..], vs[i..], buffer)
      {
        assert fields[i..][0] == fields[i] && fields[i..][1..] == fields[i + 1..];
        assert vs[i..][0] == vs[i] && vs[i..][1..] == vs[i + 1..];
        error := EncodeValue(fields[i], vs[i]);
        if error.Some? {
          return;
        }
        i := i + 1;
      }
    }
  }

  lemma {:induction false} SameLength(fields: seq<Schema>, vs: seq<Value>)
    requires HaveTypes(fields, vs)
    ensures |fields| == |vs|
  {
    hide HasType;
    if fields != [] {
      SameLength(fields[1..], vs[1..]);
    }
  }

  /** `codec::decode`: nothing is built before the whole payload was validated. */
  method DecodeBytes(s: Schema, bytes: seq<byte>) returns (res: Result<Value, CodecError>)
    ensures res == DecodePayload(s, bytes)
  {
    hide Validate, Decode;
    if |bytes| > MAX_PAYLOAD_BYTES {
      return Err(OverBudget);
    }
    var validator := new Decoder(bytes);
    var error := validator.ValidateValue(s);
    if error.Some? {
      return Err(error.value);
    }
    if validator.remaining != [] {
      return Err(TrailingBytes);
    }
    var decoder := new Decoder(bytes);
    res := decoder.DecodeValue(s);
    if res.Ok? && decoder.remaining != [] {
      res := Err(TrailingBytes);
    }
  }

  /** `codec::encode`. */
  method EncodeBytes(s: Schema, v: Value) returns (res: Result<seq<byte>, CodecError>)
    requires HasType(s, v)
    ensures res == EncodePayload(s, v)
  {
    hide Validate, Encode;
    var encoder := new Encoder();
    var error := encoder.EncodeValue(s, v);
    if error.Some? {
      return Err(error.value);
    }
    if |encoder.buffer| > MAX_PAYLOAD_BYTES {
      return Err(OverBudget);
    }
    var validator := new Decoder(encoder.buffer);
    error := validator.ValidateValue(s);
    if error.Some? {
      return Err(error.value);
    }
    res := if validator.remaining != [] then Err(TrailingBytes) else Ok(encoder.buffer);
  }
}

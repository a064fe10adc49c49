/**
 Messages on the wire (Protocol Buffers Encoding, "Message Structure"): what a
 list of fields is written as, what a walk over any bytes finds, and that the
 walk over a written list finds exactly its fields.
 */
module Wire {
  import opened Options
  import opened Bytes
  import opened Varint

  type uint32 = v: int | 0 <= v < 0x1_0000_0000
  type int32 = v: int | -0x8000_0000 <= v < 0x8000_0000
  type int64 = v: int | -0x8000_0000_0000_0000 <= v < 0x8000_0000_0000_0000

  /** What is left of a number in 32 bits. */
  function Wrap32(x: nat): uint32 { x % 0x1_0000_0000 }

  const FIELD_LIMIT: nat := 0x2000_0000           // 2^29
  const INT_LIMIT: nat := 0x8000_0000_0000_0000   // one more than the largest Go int

  /** The four wire types that are written. Floats and doubles are their bits. */
  datatype Payload =
    | VarintOf(v: uint64)
    | Fixed64(bits64: uint64)
    | Bytes(bytes: seq<byte>)
    | Fixed32(bits32: uint32)

  datatype Field = Field(num: uint32, payload: Payload)

  function WireType(p: Payload): nat {
    match p
    case VarintOf(_) => 0
    case Fixed64(_) => 1
    case Bytes(_) => 2
    case Fixed32(_) => 5
  }

  function LittleEndian(v: nat, n: nat): (bs: seq<byte>)
    ensures |bs| == n
  {
    if n == 0 then [] else [v % 256] + LittleEndian(v / 256, n - 1)
  }

  function FromLittleEndian(bs: seq<byte>): nat {
    if bs == [] then 0 else bs[0] + 256 * FromLittleEndian(bs[1..])
  }

  /** field<<3|wireType, in uint32. */
  function TagValue(num: uint32, wire: nat): nat { Or(Wrap32(num * 8), wire) }

  function EncodeTag(num: uint32, wire: nat): seq<byte> { Encode(TagValue(num, wire)) }

  function EncodePayload(p: Payload): seq<byte> {
    match p
    case VarintOf(v) => Encode(v)
    case Fixed64(bits) => LittleEndian(bits, 8)
    case Bytes(bytes) => Encode(|bytes|) + bytes
    case Fixed32(bits) => LittleEndian(bits, 4)
  }

  function EncodeField(f: Field): seq<byte> { EncodeTag(f.num, WireType(f.payload)) + EncodePayload(f.payload) }

  function EncodeAll(fs: seq<Field>): seq<byte> {
    if fs == [] then [] else EncodeField(fs[0]) + EncodeAll(fs[1..])
  }

  /** A list that the writers can write: field numbers below 2^29. */
  predicate Writable(fs: seq<Field>) { forall f :: f in fs ==> f.num < FIELD_LIMIT }

  /** The payload of the first field numbered num. */
  function First(fs: seq<Field>, num: uint32): Option<Payload> {
    if fs == [] then None else if fs[0].num == num then Some(fs[0].payload) else First(fs[1..], num)
  }

  // ----- the walk over any bytes ----------------------------------------------------------

  /** next(): the field number and wire type of the tag at pos. */
  function FieldAt(data: seq<byte>, pos: nat): uint32
    requires pos < |data|
  {
    Wrap32(At(data, pos) / 8)
  }

  function WireAt(data: seq<byte>, pos: nat): nat
    requires pos < |data|
  {
    At(data, pos) % 8
  }

  /** The length at pos is a non-negative Go int, and so is the position after that many bytes. */
  predicate LengthFits(data: seq<byte>, pos: nat) { pos <= |data| && End(data, pos) + At(data, pos) < INT_LIMIT }

  function Min(a: nat, b: nat): nat { if a < b then a else b }

  /** Where skip(wire) leads from pos. */
  function SkipTo(data: seq<byte>, pos: nat, wire: nat): (next: nat)
    requires pos <= |data|
    ensures pos <= next <= |data|
  {
    match wire
    case 0 => End(data, pos)
    case 1 => Min(pos + 8, |data|)
    case 2 => Min(End(data, pos) + At(data, pos), |data|)
    case 5 => Min(pos + 4, |data|)
    case _ => pos
  }

  /** Every length that the walk from pos meets fits. */
  predicate Walkable(data: seq<byte>, pos: nat)
    decreases |data| - pos
  {
    pos <= |data| &&
    (pos < |data| ==>
       && (WireAt(data, pos) == 2 ==> LengthFits(data, End(data, pos)))
       && Walkable(data, SkipTo(data, End(data, pos), WireAt(data, pos))))
  }

  /** A field found: its wire type, and where its payload begins. */
  datatype Hit = Hit(wire: nat, at: nat)

  /** The first field numbered num on the walk from pos. */
  function Find(data: seq<byte>, pos: nat, num: uint32): (hit: Option<Hit>)
    requires pos <= |data|
    ensures hit.Some? ==> pos < hit.value.at <= |data|
    decreases |data| - pos
  {
    if pos == |data| then None
    else if FieldAt(data, pos) == num then Some(Hit(WireAt(data, pos), End(data, pos)))
    else Find(data, SkipTo(data, End(data, pos), WireAt(data, pos)), num)
  }

  /** The bytes that a length at pos announces, as far as the data goes. */
  function BytesAt(data: seq<byte>, pos: nat): seq<byte>
    requires pos <= |data|
  {
    data[End(data, pos)..Min(End(data, pos) + At(data, pos), |data|)]
  }

  /** p is what stands at pos. */
  predicate PayloadAt(data: seq<byte>, pos: nat, p: Payload) {
    pos + |EncodePayload(p)| <= |data| && data[pos..pos + |EncodePayload(p)|] == EncodePayload(p)
  }

  // ----- the walk over a written list -----------------------------------------------------------

  lemma SplitTwo(data: seq<byte>, pos: nat, a: seq<byte>, b: seq<byte>)
    requires pos + |a| + |b| <= |data| && data[pos..pos + |a| + |b|] == a + b
    ensures data[pos..pos + |a|] == a && data[pos + |a|..pos + |a| + |b|] == b
  {
    assert data[pos..pos + |a|] == (a + b)[..|a|];
    assert data[pos + |a|..pos + |a| + |b|] == (a + b)[|a|..];
  }

  /** A varint that stands at pos is read back, and ended right after. */
  lemma VarintRead(data: seq<byte>, pos: nat, v: uint64)
    requires pos + |Encode(v)| <= |data| && data[pos..pos + |Encode(v)|] == Encode(v)
    ensures At(data, pos) == v && End(data, pos) == pos + |Encode(v)|
  {
    ReadBack(data, pos, v);
  }

  /** Or-ing in the wire type adds it. */
  lemma TagBits(high: nat, wire: nat)
    requires wire < 8
    ensures Or(high * 8, wire) == high * 8 + wire
  {
    assert Pow2(3) == 8;
    OrDisjoint(wire, high, 3);
    OrCommutes(wire, high * 8);
  }

  /** Below 2^29 no bit of the field number is lost. */
  lemma TagParts(num: uint32, wire: nat)
    requires num < FIELD_LIMIT && wire < 8
    ensures TagValue(num, wire) == num * 8 + wire < 0x1_0000_0000
    ensures Wrap32((num * 8 + wire) / 8) == num && (num * 8 + wire) % 8 == wire
  {
    assert Wrap32(num * 8) == num * 8;
    TagBits(num, wire);
    DivUnique(num * 8 + wire, 8, num, wire);
  }

  /** next() on a written tag. */
  lemma TagRead(data: seq<byte>, pos: nat, num: uint32, wire: nat)
    requires num < FIELD_LIMIT && wire < 8 && pos + |EncodeTag(num, wire)| <= |data|
    requires data[pos..pos + |EncodeTag(num, wire)|] == EncodeTag(num, wire)
    ensures FieldAt(data, pos) == num && WireAt(data, pos) == wire && End(data, pos) == pos + |EncodeTag(num, wire)|
  {
    TagParts(num, wire);
    VarintRead(data, pos, num * 8 + wire);
  }

  /** skip() on a written payload ends exactly at the next field. */
  lemma PayloadSkipped(data: seq<byte>, pos: nat, p: Payload)
    requires |data| < INT_LIMIT && PayloadAt(data, pos, p)
    ensures SkipTo(data, pos, WireType(p)) == pos + |EncodePayload(p)|
    ensures p.Bytes? ==> LengthFits(data, pos) && BytesAt(data, pos) == p.bytes
  {
    match p
    case VarintOf(v) => VarintRead(data, pos, v);
    case Bytes(bytes) =>
      SplitTwo(data, pos, Encode(|bytes|), bytes);
      VarintRead(data, pos, |bytes|);
    case _ =>
  }

  /** The tag of a written field, and where its payload begins. */
  lemma FieldTagRead(data: seq<byte>, pos: nat, f: Field) returns (at: nat)
    requires f.num < FIELD_LIMIT && |data| < INT_LIMIT
    requires pos + |EncodeField(f)| <= |data| && data[pos..pos + |EncodeField(f)|] == EncodeField(f)
    ensures FieldAt(data, pos) == f.num && WireAt(data, pos) == WireType(f.payload) && End(data, pos) == at
    ensures at + |EncodePayload(f.payload)| == pos + |EncodeField(f)| && PayloadAt(data, at, f.payload)
  {
    var tag, body := EncodeTag(f.num, WireType(f.payload)), EncodePayload(f.payload);
    SplitTwo(data, pos, tag, body);
    TagRead(data, pos, f.num, WireType(f.payload));
    at := pos + |tag|;
  }

  /** One step of the walk, over a written field. */
  lemma FieldRead(data: seq<byte>, pos: nat, f: Field)
    requires f.num < FIELD_LIMIT && |data| < INT_LIMIT
    requires pos + |EncodeField(f)| <= |data| && data[pos..pos + |EncodeField(f)|] == EncodeField(f)
    ensures FieldAt(data, pos) == f.num && WireAt(data, pos) == WireType(f.payload)
    ensures PayloadAt(data, End(data, pos), f.payload)
    ensures f.payload.Bytes? ==> LengthFits(data, End(data, pos))
    ensures SkipTo(data, End(data, pos), WireType(f.payload)) == pos + |EncodeField(f)|
  {
    var at := FieldTagRead(data, pos, f);
    PayloadSkipped(data, at, f.payload);
  }

  /** What the walk should find for the payload p, or for no payload. */
  predicate Finds(data: seq<byte>, pos: nat, num: uint32, first: Option<Payload>)
    requires pos <= |data|
  {
    var hit := Find(data, pos, num);
    match first
    case None => hit.None?
    case Some(p) => hit.Some? && hit.value.wire == WireType(p) && PayloadAt(data, hit.value.at, p)
  }

  /** The walk over one field, and then on from next. */
  lemma FindOn(data: seq<byte>, pos: nat, at: nat, p: Payload, num: uint32, next: nat, rest: Option<Payload>)
    requires pos < |data| && at == End(data, pos) && WireAt(data, pos) == WireType(p)
        && next == SkipTo(data, at, WireType(p))
    requires PayloadAt(data, at, p) && (p.Bytes? ==> LengthFits(data, at))
    requires Walkable(data, next) && Finds(data, next, num, rest)
    ensures Walkable(data, pos) && Finds(data, pos, num, if FieldAt(data, pos) == num then Some(p) else rest)
  {}

  lemma FieldStep(data: seq<byte>, pos: nat, f: Field, num: uint32, next: nat, rest: Option<Payload>)
    requires f.num < FIELD_LIMIT && |data| < INT_LIMIT && pos + |EncodeField(f)| == next <= |data|
    requires data[pos..next] == EncodeField(f)
    requires Walkable(data, next) && Finds(data, next, num, rest)
    ensures Walkable(data, pos) && Finds(data, pos, num, if f.num == num then Some(f.payload) else rest)
  {
    FieldRead(data, pos, f);
    FindOn(data, pos, End(data, pos), f.payload, num, next, rest);
  }

  lemma EncodeAllStep(data: seq<byte>, pos: nat, fs: seq<Field>) returns (next: nat)
    requires fs != [] && pos <= |data| && data[pos..] == EncodeAll(fs)
    ensures pos + |EncodeField(fs[0])| == next <= |data|
    ensures data[pos..next] == EncodeField(fs[0]) && data[next..] == EncodeAll(fs[1..])
  {
    next := pos + |EncodeField(fs[0])|;
    assert data[pos..next] == data[pos..][..|EncodeField(fs[0])|];
    assert data[next..] == data[pos..][|EncodeField(fs[0])|..];
  }

  lemma NothingFound(data: seq<byte>, num: uint32)
    ensures Walkable(data, |data|) && Finds(data, |data|, num, None)
  {}

  /** The walk from a field's boundary of a written list on. */
  lemma {:induction false} FindFrom(data: seq<byte>, pos: nat, fs: seq<Field>, num: uint32)
    requires Writable(fs) && |data| < INT_LIMIT && pos <= |data| && data[pos..] == EncodeAll(fs)
    ensures Walkable(data, pos) && Finds(data, pos, num, First(fs, num))
    decreases |fs|
  {
    if fs == [] {
      NothingFound(data, num);
    } else {
      var next := EncodeAllStep(data, pos, fs);
      FindFrom(data, next, fs[1..], num);
      FieldStep(data, pos, fs[0], num, next, First(fs[1..], num));
    }
  }

  /** The walk over a written list finds the first field of every number, with its
      payload, and no field that was not written. */
  lemma FindWritten(fs: seq<Field>, num: uint32)
    requires Writable(fs) && |EncodeAll(fs)| < INT_LIMIT
    ensures Walkable(EncodeAll(fs), 0) && Finds(EncodeAll(fs), 0, num, First(fs, num))
  {
    assert EncodeAll(fs)[0..] == EncodeAll(fs);
    FindFrom(EncodeAll(fs), 0, fs, num);
  }

  /** One stop of the walk: a field's number and wire type, and where its payload begins. */
  datatype Stop = Stop(num: uint32, wire: nat, at: nat)

  /** Every stop of the walk from pos to the end of the data. */
  function Stops(data: seq<byte>, pos: nat): seq<Stop>
    requires pos <= |data|
    decreases |data| - pos
  {
    if pos == |data| then []
    else
      [Stop(FieldAt(data, pos), WireAt(data, pos), End(data, pos))]
      + Stops(data, SkipTo(data, End(data, pos), WireAt(data, pos)))
  }

  /** A field written at pos. */
  function StopOf(f: Field, pos: nat): Stop {
    Stop(f.num, WireType(f.payload), pos + |EncodeTag(f.num, WireType(f.payload))|)
  }

  /** The fields of a list written from pos on. */
  function Boundaries(fs: seq<Field>, pos: nat): seq<Stop> {
    if fs == [] then [] else [StopOf(fs[0], pos)] + Boundaries(fs[1..], pos + |EncodeField(fs[0])|)
  }

  lemma BoundariesStep(fs: seq<Field>, pos: nat, next: nat)
    requires fs != [] && next == pos + |EncodeField(fs[0])|
    ensures Boundaries(fs, pos) == [StopOf(fs[0], pos)] + Boundaries(fs[1..], next)
  {}

  lemma StopsUnfold(data: seq<byte>, pos: nat, num: uint32, wire: nat, at: nat, next: nat)
    requires pos < |data| && FieldAt(data, pos) == num && WireAt(data, pos) == wire && End(data, pos) == at
    requires SkipTo(data, at, wire) == next
    ensures Stops(data, pos) == [Stop(num, wire, at)] + Stops(data, next)
  {}

  lemma StopRead(data: seq<byte>, pos: nat, f: Field, next: nat)
    requires f.num < FIELD_LIMIT && |data| < INT_LIMIT && pos + |EncodeField(f)| == next <= |data|
    requires data[pos..next] == EncodeField(f)
    ensures Stops(data, pos) == [StopOf(f, pos)] + Stops(data, next)
  {
    var at := FieldTagRead(data, pos, f);
    PayloadSkipped(data, at, f.payload);
    StopsUnfold(data, pos, f.num, WireType(f.payload), at, next);
  }

  lemma {:induction false} StopsFrom(data: seq<byte>, pos: nat, fs: seq<Field>)
    requires Writable(fs) && |data| < INT_LIMIT && pos <= |data| && data[pos..] == EncodeAll(fs)
    ensures Stops(data, pos) == Boundaries(fs, pos)
    decreases |fs|
  {
    if fs == [] {
      assert pos == |data|;
    } else {
      var next := EncodeAllStep(data, pos, fs);
      StopsFrom(data, next, fs[1..]);
      StopRead(data, pos, fs[0], next);
      BoundariesStep(fs, pos, next);
    }
  }

  /** The walk over a written list stops at each of its fields, in order, and nowhere else. */
  lemma StopsAreTheFields(fs: seq<Field>)
    requires Writable(fs) && |EncodeAll(fs)| < INT_LIMIT
    ensures Stops(EncodeAll(fs), 0) == Boundaries(fs, 0)
  {
    assert EncodeAll(fs)[0..] == EncodeAll(fs);
    StopsFrom(EncodeAll(fs), 0, fs);
  }

  // ----- values ---------------------------------------------------------------------------------

  /** Go's int32(u) and int64(u) of a uint64. */
  function ToInt32(u: uint64): int32 { var low := Wrap32(u); if low < 0x8000_0000 then low else low - 0x1_0000_0000 }

  function ToInt64(u: uint64): int64 { if u < INT_LIMIT then u else u - 0x1_0000_0000_0000_0000 }

  /** Go's uint64(i): a negative number is sign-extended. */
  function FromInt(i: int64): uint64 { if i < 0 then i + 0x1_0000_0000_0000_0000 else i }

  lemma SignExtension(i: int64)
    ensures ToInt64(FromInt(i)) == i
    ensures -0x8000_0000 <= i < 0x8000_0000 ==> ToInt32(FromInt(i)) == i
  {
    if -0x8000_0000 <= i < 0 {
      DivUnique(FromInt(i), 0x1_0000_0000, 0xFFFF_FFFF, i + 0x1_0000_0000);
    }
  }

  lemma DivLess(v: nat, m: nat)
    requires v < 256 * m
    ensures v / 256 < m && v == v % 256 + 256 * (v / 256)
  {}

  lemma Pow2Step(n: nat)
    requires n > 0
    ensures Pow2(8 * n) == 256 * Pow2(8 * (n - 1))
  {
    assert Pow2(8) == 256;
    Pow2Add(8, 8 * (n - 1));
  }

  lemma {:induction false} FromLittleEndianOf(v: nat, n: nat)
    requires v < Pow2(8 * n)
    ensures FromLittleEndian(LittleEndian(v, n)) == v
  {
    if n > 0 {
      Pow2Step(n);
      DivLess(v, Pow2(8 * (n - 1)));
      FromLittleEndianOf(v / 256, n - 1);
    }
  }

  /** The read closures of readScalarAtField. */
  datatype Kind = AsBool | AsInt32 | AsInt64 | AsUint32 | AsUint64 | AsFloat | AsDouble | AsBytes

  datatype Scalar = B(b: bool) | I(i: int) | U(u: uint64) | F32(bits32: uint32) | F64(bits64: uint64) | S(s: seq<byte>)

  /** The zero value of the kind. */
  function Zero(kind: Kind): Scalar {
    match kind
    case AsBool => B(false)
    case AsInt32 => I(0)
    case AsInt64 => I(0)
    case AsUint32 => U(0)
    case AsUint64 => U(0)
    case AsFloat => F32(0)
    case AsDouble => F64(0)
    case AsBytes => S([])
  }

  lemma {:induction false} LittleEndianBound(bs: seq<byte>)
    ensures FromLittleEndian(bs) < Pow2(8 * |bs|)
  {
    if bs != [] {
      LittleEndianBound(bs[1..]);
      Pow2Step(|bs|);
    }
  }

  lemma FixedFits(bs: seq<byte>)
    ensures |bs| == 4 ==> FromLittleEndian(bs) < 0x1_0000_0000
    ensures |bs| == 8 ==> FromLittleEndian(bs) < 0x1_0000_0000_0000_0000
  {
    LittleEndianBound(bs);
    Pow2Of64();
    assert Pow2(16) == 65536;
    Pow2Add(16, 16);
  }

  /** Four, or eight, bytes as a number; 0 when there are not as many. */
  function Fixed32At(data: seq<byte>, pos: nat): uint32
    requires pos <= |data|
  {
    if pos + 4 > |data| then 0
    else
      FixedFits(data[pos..pos + 4]);
      FromLittleEndian(data[pos..pos + 4])
  }

  function Fixed64At(data: seq<byte>, pos: nat): uint64
    requires pos <= |data|
  {
    if pos + 8 > |data| then 0
    else
      FixedFits(data[pos..pos + 8]);
      FromLittleEndian(data[pos..pos + 8])
  }

  /** A varint as a value of the kind. */
  function FromVarint(kind: Kind, v: uint64): Scalar {
    match kind
    case AsBool => B(v != 0)
    case AsInt32 => I(ToInt32(v))
    case AsInt64 => I(ToInt64(v))
    case AsUint32 => U(Wrap32(v))
    case _ => U(v)
  }

  /** What the closure of the kind reads at pos. */
  function ReadAt(kind: Kind, data: seq<byte>, pos: nat): Scalar
    requires pos <= |data|
  {
    match kind
    case AsFloat => F32(Fixed32At(data, pos))
    case AsDouble => F64(Fixed64At(data, pos))
    case AsBytes => S(BytesAt(data, pos))
    case _ => FromVarint(kind, At(data, pos))
  }

  /** A value, written the way its kind is. */
  function Written(kind: Kind, x: Scalar): Option<Payload> {
    match (kind, x)
    case (AsBool, B(b)) => Some(VarintOf(if b then 1 else 0))
    case (AsInt32, I(i)) => if -0x8000_0000 <= i < 0x8000_0000 then Some(VarintOf(FromInt(i))) else None
    case (AsInt64, I(i)) => if -0x8000_0000_0000_0000 <= i < INT_LIMIT then Some(VarintOf(FromInt(i))) else None
    case (AsUint32, U(u)) => if u < 0x1_0000_0000 then Some(VarintOf(u)) else None
    case (AsUint64, U(u)) => Some(VarintOf(u))
    case (AsFloat, F32(bits)) => Some(Fixed32(bits))
    case (AsDouble, F64(bits)) => Some(Fixed64(bits))
    case (AsBytes, S(bytes)) => Some(Bytes(bytes))
    case _ => None
  }

  lemma FixedRead(data: seq<byte>, pos: nat, p: Payload)
    requires |data| < INT_LIMIT && PayloadAt(data, pos, p) && (p.Fixed32? || p.Fixed64?)
    ensures p.Fixed32? ==> Fixed32At(data, pos) == p.bits32
    ensures p.Fixed64? ==> Fixed64At(data, pos) == p.bits64
  {
    Pow2Of64();
    assert Pow2(16) == 65536;
    Pow2Add(16, 16);
    if p.Fixed32? {
      FromLittleEndianOf(p.bits32, 4);
    } else {
      FromLittleEndianOf(p.bits64, 8);
    }
  }

  lemma FromVarintOf(kind: Kind, x: Scalar, v: uint64)
    requires Written(kind, x) == Some(VarintOf(v))
    ensures FromVarint(kind, v) == x
  {
    if x.I? { SignExtension(x.i); }
  }

  /** Every value of every kind is read back from where it was written. */
  lemma ValueRead(kind: Kind, x: Scalar, data: seq<byte>, pos: nat)
    requires |data| < INT_LIMIT && Written(kind, x).Some? && PayloadAt(data, pos, Written(kind, x).value)
    ensures ReadAt(kind, data, pos) == x && (kind.AsBytes? ==> LengthFits(data, pos))
  {
    var p := Written(kind, x).value;
    match p
    case VarintOf(v) =>
      VarintRead(data, pos, v);
      FromVarintOf(kind, x, v);
    case Bytes(_) => PayloadSkipped(data, pos, p);
    case _ => FixedRead(data, pos, p);
  }

  // ----- what a reply is scanned for ----------------------------------------------------------------

  /** readScalarAtField. */
  function ScalarAt(data: seq<byte>, num: uint32, kind: Kind): Scalar {
    var hit := Find(data, 0, num);
    if hit.None? then Zero(kind) else ReadAt(kind, data, hit.value.at)
  }

  /** readScalarAtField gives the value of the first field of that number, and zero when none was written. */
  lemma ScalarOfWritten(fs: seq<Field>, num: uint32, kind: Kind, x: Scalar)
    requires Writable(fs) && |EncodeAll(fs)| < INT_LIMIT
    ensures First(fs, num).None? ==> ScalarAt(EncodeAll(fs), num, kind) == Zero(kind)
    ensures First(fs, num).Some? && Written(kind, x) == First(fs, num) ==> ScalarAt(EncodeAll(fs), num, kind) == x
  {
    FindWritten(fs, num);
    if First(fs, num).Some? && Written(kind, x) == First(fs, num) {
      ValueRead(kind, x, EncodeAll(fs), Find(EncodeAll(fs), 0, num).value.at);
    }
  }

  const ERROR_FIELD: uint32 := 15

  /** pbExtractError: the error string, if there is one. */
  function ErrorIn(data: seq<byte>): Option<seq<byte>> {
    var hit := Find(data, 0, ERROR_FIELD);
    if hit.None? then None else Some(BytesAt(data, hit.value.at))
  }

  lemma {:induction false} FirstIffWritten(fs: seq<Field>, num: uint32)
    ensures First(fs, num).Some? <==> exists f :: f in fs && f.num == num
  {
    if fs != [] {
      FirstIffWritten(fs[1..], num);
      assert forall f :: f in fs <==> f == fs[0] || f in fs[1..];
    }
  }

  /** An error is reported exactly when a field 15 was written, whatever the bytes of the
      other fields; its text is that of the first one. */
  lemma ErrorIffWritten(fs: seq<Field>)
    requires Writable(fs) && |EncodeAll(fs)| < INT_LIMIT
    ensures ErrorIn(EncodeAll(fs)).Some? <==> exists f :: f in fs && f.num == ERROR_FIELD
    ensures Walkable(EncodeAll(fs), 0)
    ensures First(fs, ERROR_FIELD).Some? && First(fs, ERROR_FIELD).value.Bytes? ==>
              && ErrorIn(EncodeAll(fs)) == Some(First(fs, ERROR_FIELD).value.bytes)
              && LengthFits(EncodeAll(fs), Find(EncodeAll(fs), 0, ERROR_FIELD).value.at)
  {
    FindWritten(fs, ERROR_FIELD);
    FirstIffWritten(fs, ERROR_FIELD);
    if First(fs, ERROR_FIELD).Some? {
      PayloadSkipped(EncodeAll(fs), Find(EncodeAll(fs), 0, ERROR_FIELD).value.at, First(fs, ERROR_FIELD).value);
    }
  }

  // ----- handles --------------------------------------------------------------------------------------

  /** A handle is a submessage with the pointer as its field 1. */
  function Handle(ptr: uint64): Payload { Bytes(EncodeField(Field(1, VarintOf(ptr)))) }

  /** The loop of readHandlePtr over a submessage. */
  function SubPtr(data: seq<byte>, pos: nat): uint64
    requires pos <= |data|
    decreases |data| - pos
  {
    if pos == |data| then 0
    else if FieldAt(data, pos) == 1 && WireAt(data, pos) == 0 then At(data, End(data, pos))
    else SubPtr(data, SkipTo(data, End(data, pos), WireAt(data, pos)))
  }

  /** readHandlePtr. */
  function HandlePtr(data: seq<byte>): uint64 {
    match Find(data, 0, 1)
    case None => 0
    case Some(hit) =>
      if hit.wire == 0 then At(data, hit.at) else if hit.wire == 2 then SubPtr(BytesAt(data, hit.at), 0) else 0
  }

  /** readPtrAtField. */
  function PtrAtField(data: seq<byte>, num: uint32): uint64 {
    if num == 1 then HandlePtr(data)
    else
      match Find(data, 0, num)
      case None => 0
      case Some(hit) => if hit.wire == 2 then HandlePtr(BytesAt(data, hit.at)) else 0
  }

  /** The submessages that readHandlePtr goes into can be walked. */
  predicate HandleWalkable(data: seq<byte>) {
    && Walkable(data, 0)
    && var hit := Find(data, 0, 1);
       hit.Some? && hit.value.wire == 2 ==> LengthFits(data, hit.value.at) && Walkable(BytesAt(data, hit.value.at), 0)
  }

  predicate PtrWalkable(resp: seq<byte>, num: uint32) {
    if num == 1 then HandleWalkable(resp)
    else
      && Walkable(resp, 0)
      && var hit := Find(resp, 0, num);
         hit.Some? && hit.value.wire == 2 ==> LengthFits(resp, hit.value.at) && HandleWalkable(BytesAt(resp, hit.value.at))
  }

  /** What stands alone in a handle's bytes. */
  lemma HandleRead(ptr: uint64)
    ensures var sub := EncodeField(Field(1, VarintOf(ptr)));
            |sub| <= 11 && HandleWalkable(sub) && SubPtr(sub, 0) == ptr && HandlePtr(sub) == ptr
  {
    var f := Field(1, VarintOf(ptr));
    var sub := EncodeField(f);
    assert EncodeAll([f]) == sub;
    AtMostTenBytes(ptr);
    TagParts(1, 0);
    assert |EncodeTag(1, 0)| == 1;
    FindWritten([f], 1);
    assert sub[0..] == sub && sub[0..|sub|] == sub;
    FieldRead(sub, 0, f);
    VarintRead(sub, End(sub, 0), ptr);
  }

  /** readPtrAtField recovers the pointer from a handle, at any field number. */
  lemma PtrOfHandle(fs: seq<Field>, num: uint32, ptr: uint64)
    requires Writable(fs) && |EncodeAll(fs)| < INT_LIMIT && First(fs, num) == Some(Handle(ptr))
    ensures PtrWalkable(EncodeAll(fs), num) && PtrAtField(EncodeAll(fs), num) == ptr
  {
    FindWritten(fs, num);
    HandleRead(ptr);
    PayloadSkipped(EncodeAll(fs), Find(EncodeAll(fs), 0, num).value.at, Handle(ptr));
  }

  /** It recovers the pointer from a varint written directly at field 1, and takes none
      from one at another field. */
  lemma PtrOfVarint(fs: seq<Field>, num: uint32, ptr: uint64)
    requires Writable(fs) && |EncodeAll(fs)| < INT_LIMIT && First(fs, num) == Some(VarintOf(ptr))
    ensures PtrWalkable(EncodeAll(fs), num) && PtrAtField(EncodeAll(fs), num) == if num == 1 then ptr else 0
  {
    FindWritten(fs, num);
    VarintRead(EncodeAll(fs), Find(EncodeAll(fs), 0, num).value.at, ptr);
  }

  /** It gives 0 for a field that was not written. */
  lemma PtrOfAbsent(fs: seq<Field>, num: uint32)
    requires Writable(fs) && |EncodeAll(fs)| < INT_LIMIT && First(fs, num).None?
    ensures PtrWalkable(EncodeAll(fs), num) && PtrAtField(EncodeAll(fs), num) == 0
  {
    FindWritten(fs, num);
  }
}

/**
 The writers and the cursor-moving reader of internal/llama.go, each against its
 meaning in `Wire`.
 */
module WireCode {
  import opened Options
  import opened Bytes
  import opened Varint
  import opened Wire

  // ----- writers ---------------------------------------------------------------------------

  lemma TagBound(field: uint32, wire: nat)
    requires wire < 8
    ensures TagValue(field, wire) < 0x1_0000_0000
  {
    var low := field % 0x2000_0000;
    DivUnique(field * 8, 0x1_0000_0000, field / 0x2000_0000, low * 8);
    TagBits(low, wire);
  }

  method AppendTag(buf: seq<byte>, field: uint32, wireType: nat) returns (out: seq<byte>)
    requires wireType < 8
    ensures out == buf + EncodeTag(field, wireType)
  {
    TagBound(field, wireType);
    out := Varint.Append(buf, Or(Wrap32(field * 8), wireType));
  }

  method AppendUint64(buf: seq<byte>, field: uint32, v: uint64) returns (out: seq<byte>)
    ensures out == buf + EncodeField(Field(field, VarintOf(v)))
  {
    out := AppendTag(buf, field, 0);
    out := Varint.Append(out, v);
  }

  /** pbAppendInt32 and pbAppendInt64: a negative number is sign-extended to 64 bits. */
  method AppendInt(buf: seq<byte>, field: uint32, v: int64) returns (out: seq<byte>)
    ensures out == buf + EncodeField(Field(field, VarintOf(FromInt(v))))
  {
    out := AppendTag(buf, field, 0);
    out := Varint.Append(out, FromInt(v));
  }

  method AppendBool(buf: seq<byte>, field: uint32, v: bool) returns (out: seq<byte>)
    ensures out == buf + EncodeField(Field(field, VarintOf(if v then 1 else 0)))
  {
    out := AppendTag(buf, field, 0);
    if v {
      out := out + [1];
    } else {
      out := out + [0];
    }
  }

  /** pbAppendString, pbAppendBytes and pbAppendSubmessage. */
  method AppendBytes(buf: seq<byte>, field: uint32, bytes: seq<byte>) returns (out: seq<byte>)
    requires |bytes| < INT_LIMIT
    ensures out == buf + EncodeField(Field(field, Bytes(bytes)))
  {
    out := AppendTag(buf, field, 2);
    out := Varint.Append(out, |bytes|);
    out := out + bytes;
  }

  method AppendFloat(buf: seq<byte>, field: uint32, bits: uint32) returns (out: seq<byte>)
    ensures out == buf + EncodeField(Field(field, Fixed32(bits)))
  {
    out := AppendTag(buf, field, 5);
    out := out + LittleEndian(bits, 4);
  }

  method AppendDouble(buf: seq<byte>, field: uint32, bits: uint64) returns (out: seq<byte>)
    ensures out == buf + EncodeField(Field(field, Fixed64(bits)))
  {
    out := AppendTag(buf, field, 1);
    out := out + LittleEndian(bits, 8);
  }

  /** Tag and varint of a handle's one field. */
  lemma HandleBytes(ptr: uint64)
    ensures EncodeField(Field(1, VarintOf(ptr))) == [0x08] + Encode(ptr) && |Encode(ptr)| <= 10
  {
    AtMostTenBytes(ptr);
    TagParts(1, 0);
    assert EncodeTag(1, 0) == [0x08];
  }

  /** pbAppendHandle writes the submessage in place, its length computed beforehand; what
      comes out is what pbAppendSubmessage makes of the one-varint message. */
  method AppendHandle(buf: seq<byte>, field: uint32, ptr: uint64) returns (out: seq<byte>)
    ensures out == buf + EncodeField(Field(field, Handle(ptr)))
  {
    var n := Varint.Len(ptr);
    HandleBytes(ptr);
    out := AppendTag(buf, field, 2);
    out := Varint.Append(out, 1 + n);
    out := out + [0x08];
    out := Varint.Append(out, ptr);
  }

  // ----- the reader ------------------------------------------------------------------------------

  /** What k bytes and one more, b, stand for. */
  function OneMore(acc: nat, b: byte, k: nat): nat { acc + b % 128 * Pow2(7 * k) }

  lemma NextPower(k: nat)
    ensures Pow2(7 * (k + 1)) == 128 * Pow2(7 * k)
  {
    Pow2Of64();
    Pow2Add(7, 7 * k);
  }

  lemma OneMoreFits(acc: nat, b: byte, k: nat)
    requires acc < Pow2(7 * k)
    ensures OneMore(acc, b, k) < Pow2(7 * (k + 1))
  {
    NextPower(k);
    Separate(b % 128, 128, Pow2(7 * k), acc);
  }

  lemma Regroup(acc: nat, x: nat, rest: nat, p: nat)
    ensures acc + (x + 128 * rest) * p == acc + x * p + rest * (128 * p)
  {
    MulDistributes(x, 128 * rest, p);
    MulAssociates(rest, 128, p);
  }

  /** The varint at pos, read above acc. */
  lemma OneMoreSum(data: seq<byte>, pos: nat, acc: nat, k: nat)
    requires pos < |data|
    ensures acc + Sum(data, pos) * Pow2(7 * k) ==
            if data[pos] < 128 then OneMore(acc, data[pos], k)
            else OneMore(acc, data[pos], k) + Sum(data, pos + 1) * Pow2(7 * (k + 1))
  {
    NextPower(k);
    if data[pos] >= 128 {
      Regroup(acc, data[pos] % 128, Sum(data, pos + 1), Pow2(7 * k));
      MulEqual(Sum(data, pos + 1), 128 * Pow2(7 * k), Pow2(7 * (k + 1)));
    }
  }

  class Reader {
    const data: seq<byte>
    var pos: nat

    ghost predicate Valid()
      reads this
    {
      pos <= |data|
    }

    constructor (bytes: seq<byte>)
      ensures Valid() && data == bytes && pos == 0
    {
      data := bytes;
      pos := 0;
    }

    method ReadVarint() returns (v: uint64)
      requires Valid()
      modifies this`pos
      ensures Valid() && v == At(data, old(pos)) && pos == End(data, old(pos))
    {
      v := 0;
      var shift := 0;
      ghost var from, acc: nat, k: nat := pos, 0, 0;
      while pos < |data|
        invariant from <= pos <= |data| && shift == 7 * k
        invariant acc < Pow2(7 * k) && v == Wrap64(acc) && Sum(data, from) == acc + Sum(data, pos) * Pow2(7 * k)
        invariant End(data, from) == End(data, pos)
      {
        var b := data[pos];
        NextBits(acc, b % 128, shift);
        OneMoreFits(acc, b, k);
        OneMoreSum(data, pos, acc, k);
        acc, k := OneMore(acc, b, k), k + 1;
        pos := pos + 1;
        v := Or64(v, Shl(b % 128, shift));
        if b < 0x80 {
          return;
        }
        shift := shift + 7;
      }
    }

    /** Where there is nothing left, ok is false and nothing moves. */
    method Next() returns (field: uint32, wireType: nat, ok: bool)
      requires Valid()
      modifies this`pos
      ensures Valid() && ok == (old(pos) < |data|)
      ensures ok ==> field == FieldAt(data, old(pos)) && wireType == WireAt(data, old(pos)) && pos == End(data, old(pos))
      ensures !ok ==> field == 0 && wireType == 0 && pos == old(pos)
    {
      if pos >= |data| {
        return 0, 0, false;
      }
      var tag := ReadVarint();
      return Wrap32(tag / 8), tag % 8, true;
    }

    /** readBytes, readString and readSubmessage's data: no more than there is. */
    method ReadBytes() returns (bytes: seq<byte>)
      requires Valid() && LengthFits(data, pos)
      modifies this`pos
      ensures Valid() && bytes == BytesAt(data, old(pos)) && pos == SkipTo(data, old(pos), 2)
    {
      var v := ReadVarint();
      var n: int := v;
      if pos + n > |data| {
        n := |data| - pos;
      }
      bytes := data[pos..pos + n];
      pos := pos + n;
    }

    method ReadSubmessage() returns (sub: Reader)
      requires Valid() && LengthFits(data, pos)
      modifies this`pos
      ensures Valid() && pos == SkipTo(data, old(pos), 2)
      ensures fresh(sub) && sub.Valid() && sub.data == BytesAt(data, old(pos)) && sub.pos == 0
    {
      var bytes := ReadBytes();
      sub := new Reader(bytes);
    }

    method ReadFloat() returns (bits: uint32)
      requires Valid()
      modifies this`pos
      ensures Valid() && bits == Fixed32At(data, old(pos)) && pos == SkipTo(data, old(pos), 5)
    {
      if pos + 4 > |data| {
        pos := |data|;
        return 0;
      }
      FixedFits(data[pos..pos + 4]);
      bits := FromLittleEndian(data[pos..pos + 4]);
      pos := pos + 4;
    }

    method ReadDouble() returns (bits: uint64)
      requires Valid()
      modifies this`pos
      ensures Valid() && bits == Fixed64At(data, old(pos)) && pos == SkipTo(data, old(pos), 1)
    {
      if pos + 8 > |data| {
        pos := |data|;
        return 0;
      }
      FixedFits(data[pos..pos + 8]);
      bits := FromLittleEndian(data[pos..pos + 8]);
      pos := pos + 8;
    }

    /** One of the read closures. */
    method Read(kind: Kind) returns (x: Scalar)
      requires Valid() && (kind.AsBytes? ==> LengthFits(data, pos))
      modifies this`pos
      ensures Valid() && x == ReadAt(kind, data, old(pos))
    {
      if kind.AsFloat? {
        var bits := ReadFloat();
        x := F32(bits);
      } else if kind.AsDouble? {
        var bits := ReadDouble();
        x := F64(bits);
      } else if kind.AsBytes? {
        var bytes := ReadBytes();
        x := S(bytes);
      } else {
        var v := ReadVarint();
        x := FromVarint(kind, v);
      }
    }

    method Skip(wireType: nat)
      requires Valid() && (wireType == 2 ==> LengthFits(data, pos))
      modifies this`pos
      ensures Valid() && pos == SkipTo(data, old(pos), wireType)
    {
      if wireType == 0 {
        var _ := ReadVarint();
      } else if wireType == 1 {
        pos := pos + 8;
      } else if wireType == 2 {
        var n := ReadVarint();
        pos := pos + n;
      } else if wireType == 5 {
        pos := pos + 4;
      }
      if pos > |data| {
        pos := |data|;
      }
    }
  }

  // ----- the scans of a reply ----------------------------------------------------------------------

  /** pbExtractError. */
  method ExtractError(resp: seq<byte>) returns (err: Option<seq<byte>>)
    requires Walkable(resp, 0)
    requires Find(resp, 0, ERROR_FIELD).Some? ==> LengthFits(resp, Find(resp, 0, ERROR_FIELD).value.at)
    ensures err == ErrorIn(resp)
  {
    var r := new Reader(resp);
    while true
      invariant r.Valid() && r.data == resp && Walkable(resp, r.pos)
      invariant Find(resp, r.pos, ERROR_FIELD) == Find(resp, 0, ERROR_FIELD)
      decreases |resp| - r.pos
    {
      var f, w, ok := r.Next();
      if !ok {
        return None;
      }
      if f == ERROR_FIELD {
        var text := r.ReadBytes();
        return Some(text);
      }
      r.Skip(w);
    }
  }

  method ReadScalarAtField(resp: seq<byte>, num: uint32, kind: Kind) returns (x: Scalar)
    requires Walkable(resp, 0)
    requires kind.AsBytes? && Find(resp, 0, num).Some? ==> LengthFits(resp, Find(resp, 0, num).value.at)
    ensures x == ScalarAt(resp, num, kind)
  {
    var r := new Reader(resp);
    while true
      invariant r.Valid() && r.data == resp && Walkable(resp, r.pos)
      invariant Find(resp, r.pos, num) == Find(resp, 0, num)
      decreases |resp| - r.pos
    {
      var f, w, ok := r.Next();
      if !ok {
        return Zero(kind);
      }
      if f == num {
        x := r.Read(kind);
        return;
      }
      r.Skip(w);
    }
  }

  method ReadSubPtr(sub: Reader) returns (ptr: uint64)
    requires sub.Valid() && Walkable(sub.data, sub.pos)
    modifies sub
    ensures ptr == SubPtr(sub.data, old(sub.pos))
  {
    while true
      invariant sub.Valid() && Walkable(sub.data, sub.pos)
      invariant SubPtr(sub.data, sub.pos) == SubPtr(sub.data, old(sub.pos))
      decreases |sub.data| - sub.pos
    {
      var f, w, ok := sub.Next();
      if !ok {
        return 0;
      }
      if f == 1 && w == 0 {
        ptr := sub.ReadVarint();
        return;
      }
      sub.Skip(w);
    }
  }

  method ReadHandlePtr(data: seq<byte>) returns (ptr: uint64)
    requires HandleWalkable(data)
    ensures ptr == HandlePtr(data)
  {
    var r := new Reader(data);
    while true
      invariant r.Valid() && r.data == data && Walkable(data, r.pos)
      invariant Find(data, r.pos, 1) == Find(data, 0, 1)
      decreases |data| - r.pos
    {
      var f, w, ok := r.Next();
      if !ok {
        return 0;
      }
      if f == 1 {
        if w == 0 {
          ptr := r.ReadVarint();
          return;
        }
        if w == 2 {
          var sub := r.ReadSubmessage();
          ptr := ReadSubPtr(sub);
          return;
        }
        return 0;
      }
      r.Skip(w);
    }
  }

  method ReadPtrAtField(resp: seq<byte>, num: uint32) returns (ptr: uint64)
    requires PtrWalkable(resp, num)
    ensures ptr == PtrAtField(resp, num)
  {
    if num == 1 {
      ptr := ReadHandlePtr(resp);
      return;
    }
    var r := new Reader(resp);
    while true
      invariant r.Valid() && r.data == resp && Walkable(resp, r.pos)
      invariant Find(resp, r.pos, num) == Find(resp, 0, num)
      decreases |resp| - r.pos
    {
      var f, w, ok := r.Next();
      if !ok {
        return 0;
      }
      if f == num {
        if w == 2 {
          var sub := r.ReadSubmessage();
          ptr := ReadHandlePtr(sub.data);
          return;
        }
        return 0;
      }
      r.Skip(w);
    }
  }
}

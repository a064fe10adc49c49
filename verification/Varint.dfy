/**
 Base 128 varints (Protocol Buffers Encoding, "Base 128 Varints"): what a varint
 is, and the two loops of internal/llama.go that write one and measure one, in
 Go's 64-bit arithmetic. The loop that reads one is in `WireCode`.
 */
module Varint {
  import opened Bytes

  type uint64 = v: int | 0 <= v < 0x1_0000_0000_0000_0000

  /** What is left of a number in 64 bits. */
  function Wrap64(x: nat): uint64 { x % 0x1_0000_0000_0000_0000 }

  // ----- what a varint is ---------------------------------------------------------------

  /** The shortest varint of v: seven bits a byte, the low ones first, and the top bit
      set in every byte but the last. */
  function Encode(v: nat): (bs: seq<byte>)
    ensures bs != []
  {
    if v < 128 then [v] else [v % 128 + 128] + Encode(v / 128)
  }

  /** Where the varint at pos ends: after the first byte with a clear top bit, or at the end of the data. */
  function End(data: seq<byte>, pos: nat): (end: nat)
    requires pos <= |data|
    ensures pos <= end <= |data| && (pos < |data| ==> pos < end)
    decreases |data| - pos
  {
    if pos == |data| then pos else if data[pos] < 128 then pos + 1 else End(data, pos + 1)
  }

  /** The number that the varint at pos stands for. */
  function Sum(data: seq<byte>, pos: nat): nat
    requires pos <= |data|
    decreases |data| - pos
  {
    if pos == |data| then 0 else if data[pos] < 128 then data[pos] else data[pos] % 128 + 128 * Sum(data, pos + 1)
  }

  /** What a reader makes of it: its low 64 bits. */
  function At(data: seq<byte>, pos: nat): uint64
    requires pos <= |data|
  {
    Wrap64(Sum(data, pos))
  }

  // ----- Go's shifts and its or ------------------------------------------------------------

  function Pow2(n: nat): nat { if n == 0 then 1 else 2 * Pow2(n - 1) }

  /** x << shift on uint64. */
  function Shl(x: nat, shift: nat): uint64 { if shift >= 64 then 0 else Wrap64(x * Pow2(shift)) }

  /** Bitwise or. */
  function Or(a: nat, b: nat): nat {
    if a == 0 then b else if b == 0 then a else (if a % 2 == 1 || b % 2 == 1 then 1 else 0) + 2 * Or(a / 2, b / 2)
  }

  lemma {:induction false} Pow2Add(m: nat, n: nat)
    ensures Pow2(m + n) == Pow2(m) * Pow2(n)
  {
    if m > 0 {
      Pow2Add(m - 1, n);
      assert Pow2(m + n) == 2 * Pow2(m - 1 + n);
      assert Pow2(m) * Pow2(n) == 2 * (Pow2(m - 1) * Pow2(n));
    }
  }

  lemma {:induction false} Pow2Positive(n: nat)
    ensures Pow2(n) > 0
  {
    if n > 0 { Pow2Positive(n - 1); }
  }

  lemma Pow2Of64()
    ensures Pow2(7) == 128 && Pow2(64) == 0x1_0000_0000_0000_0000
  {
    assert Pow2(4) == 16;
    assert Pow2(7) == 128;
    Pow2Add(4, 4);
    Pow2Add(8, 8);
    Pow2Add(16, 16);
    Pow2Add(32, 32);
  }

  /** Numbers without a common bit: the high one is a multiple of a power of two above the low one. */
  lemma {:induction false} OrDisjoint(a: nat, q: nat, k: nat)
    requires a < Pow2(k)
    ensures Or(a, q * Pow2(k)) == a + q * Pow2(k)
    decreases k
  {
    if k > 0 && a > 0 {
      var b := q * Pow2(k);
      assert b == 2 * (q * Pow2(k - 1));
      OrDisjoint(a / 2, q, k - 1);
    } else if k == 0 {
      assert a == 0;
    }
  }

  lemma {:induction false} OrCommutes(a: nat, b: nat)
    ensures Or(a, b) == Or(b, a)
  {
    if a > 0 && b > 0 {
      OrCommutes(a / 2, b / 2);
    }
  }

  /** Or sets no bit that neither number has. */
  lemma {:induction false} OrBound(a: nat, b: nat, k: nat)
    requires a < Pow2(k) && b < Pow2(k)
    ensures Or(a, b) < Pow2(k)
  {
    if a > 0 && b > 0 {
      OrBound(a / 2, b / 2, k - 1);
    }
  }

  function Or64(a: uint64, b: uint64): uint64 {
    Pow2Of64();
    OrBound(a, b, 64);
    Or(a, b)
  }

  lemma MulLess(a: nat, b: nat, m: nat)
    requires a <= b
    ensures a * m <= b * m
  {}

  lemma MulAssociates(x: nat, a: nat, b: nat)
    ensures x * (a * b) == x * a * b
  {}

  lemma MulDistributes(a: nat, b: nat, m: nat)
    ensures (a + b) * m == a * m + b * m
  {}

  lemma Separate(a: nat, b: nat, m: nat, r: nat)
    requires a < b && r < m
    ensures a * m + r < b * m
  {
    MulDistributes(a, b - a, m);
    MulLess(1, b - a, m);
  }

  lemma DivUnique(x: nat, m: nat, q: nat, r: nat)
    requires m > 0 && x == q * m + r && r < m
    ensures x / m == q && x % m == r
  {
    var q', r' := x / m, x % m;
    assert x == q' * m + r' by { assert q' * m == m * q'; }
    if q < q' {
      Separate(q, q', m, r);
    } else if q' < q {
      Separate(q', q, m, r');
    }
  }

  lemma WrapUnique(x: nat, q: nat, r: nat)
    requires x == q * 0x1_0000_0000_0000_0000 + r && r < 0x1_0000_0000_0000_0000
    ensures Wrap64(x) == r
  {
    DivUnique(x, 0x1_0000_0000_0000_0000, q, r);
  }

  /** x * p split at 64 bits, when p * r is one more than the largest uint64. */
  lemma SplitProduct(x: nat, p: nat, r: nat) returns (q: nat, low: nat)
    requires r > 0 && p * r == 0x1_0000_0000_0000_0000
    ensures low < r && x * p == q * 0x1_0000_0000_0000_0000 + low * p
  {
    q, low := x / r, x % r;
    assert x == q * r + low by { assert q * r == r * q; }
    MulDistributes(q * r, low, p);
    MulAssociates(q, r, p);
    assert r * p == p * r;
  }

  lemma MulEqual(x: nat, a: nat, b: nat)
    requires a == b
    ensures x * a == x * b
  {}

  lemma Pow2Scale(n: nat)
    ensures Pow2(n + 64) == Pow2(n) * 0x1_0000_0000_0000_0000
  {
    Pow2Of64();
    Pow2Add(n, 64);
  }

  lemma ModPlusMultiple(a: nat, y: nat, q: nat)
    requires y == q * 0x1_0000_0000_0000_0000
    ensures Wrap64(a + y) == Wrap64(a)
  {
    WrapUnique(a + y, q + a / 0x1_0000_0000_0000_0000, Wrap64(a));
  }

  /** Bits shifted beyond the 64th are lost. */
  lemma HighBitsLost(sum: nat, x: nat, shift: nat)
    requires shift >= 64
    ensures Wrap64(sum + x * Pow2(shift)) == Wrap64(sum)
  {
    var p := Pow2(shift - 64);
    Pow2Scale(shift - 64);
    MulEqual(x, Pow2(shift), p * 0x1_0000_0000_0000_0000);
    MulAssociates(x, p, 0x1_0000_0000_0000_0000);
    ModPlusMultiple(sum, x * Pow2(shift), x * p);
  }

  lemma Complement(shift: nat) returns (r: nat)
    requires shift < 64
    ensures r > 0 && Pow2(shift) * r == 0x1_0000_0000_0000_0000
  {
    r := Pow2(64 - shift);
    Pow2Of64();
    Pow2Add(shift, 64 - shift);
    Pow2Positive(64 - shift);
  }

  /** Bits shifted above those of sum, as far as they fit, are added to it. */
  lemma LowBitsAdd(sum: nat, x: nat, shift: nat)
    requires shift < 64 && sum < Pow2(shift)
    ensures Or(Wrap64(sum), Shl(x, shift)) == Wrap64(sum + x * Pow2(shift))
  {
    var r := Complement(shift);
    var q, low := SplitProduct(x, Pow2(shift), r);
    Separate(low, r, Pow2(shift), sum);
    assert r * Pow2(shift) == Pow2(shift) * r;
    WrapUnique(x * Pow2(shift), q, low * Pow2(shift));
    WrapUnique(sum + x * Pow2(shift), q, sum + low * Pow2(shift));
    WrapUnique(sum, 0, sum);
    OrDisjoint(sum, low, shift);
  }

  /** Or-ing in the next bits is adding them, and drops what does not fit 64 bits. */
  lemma NextBits(sum: nat, x: nat, shift: nat)
    requires sum < Pow2(shift)
    ensures Or64(Wrap64(sum), Shl(x, shift)) == Wrap64(sum + x * Pow2(shift))
  {
    if shift >= 64 {
      HighBitsLost(sum, x, shift);
    } else {
      LowBitsAdd(sum, x, shift);
    }
  }

  // ----- what encoding promises ----------------------------------------------------------------

  /** A varint that stands at pos is read back, and ends where it was written to end. */
  lemma {:induction false} ReadBack(data: seq<byte>, pos: nat, v: nat)
    requires pos + |Encode(v)| <= |data| && data[pos..pos + |Encode(v)|] == Encode(v)
    ensures Sum(data, pos) == v && End(data, pos) == pos + |Encode(v)|
    decreases v
  {
    assert data[pos] == Encode(v)[0];
    if v >= 128 {
      assert data[pos + 1..pos + |Encode(v)|] == Encode(v)[1..] == Encode(v / 128);
      ReadBack(data, pos + 1, v / 128);
    }
  }

  /** Reading back a written uint64 gives it, and stops right after it, whatever precedes and follows. */
  lemma RoundTrip(pre: seq<byte>, v: uint64, post: seq<byte>)
    ensures End(pre + Encode(v) + post, |pre|) == |pre| + |Encode(v)|
    ensures At(pre + Encode(v) + post, |pre|) == v
  {
    var data := pre + Encode(v) + post;
    assert data[|pre|..|pre| + |Encode(v)|] == Encode(v);
    ReadBack(data, |pre|, v);
  }

  /** n bytes hold seven times n bits. */
  lemma {:induction false} EncodeLength(v: nat, n: nat)
    requires n > 0
    ensures |Encode(v)| <= n <==> v < Pow2(7 * n)
  {
    Pow2Of64();
    Pow2Positive(7 * (n - 1));
    Pow2Add(7, 7 * (n - 1));
    if v >= 128 && n > 1 {
      EncodeLength(v / 128, n - 1);
    }
  }

  /** A uint64 takes one to ten bytes. */
  lemma AtMostTenBytes(v: uint64)
    ensures 1 <= |Encode(v)| <= 10
  {
    Pow2Of64();
    Pow2Add(64, 6);
    EncodeLength(v, 10);
    assert Pow2(6) == 64;
  }

  /** No two numbers share an encoding, and none is the beginning of another's. */
  lemma PrefixFree(v: uint64, w: uint64, rest: seq<byte>)
    requires Encode(v) == Encode(w) + rest
    ensures v == w && rest == []
  {
    var data := Encode(v);
    assert data[0..0 + |Encode(w)|] == Encode(w) && data[0..0 + |Encode(v)|] == Encode(v);
    ReadBack(data, 0, v);
    ReadBack(data, 0, w);
  }

  // ----- the loops that measure and write --------------------------------------------------------

  /** byte(v) | 0x80. */
  function WithHighBit(v: uint64): byte {
    assert Pow2(8) == 256;
    OrBound(v % 256, 128, 8);
    Or(v % 256, 128)
  }

  lemma LowBits(v: nat)
    ensures v % 256 == v % 128 || v % 256 == v % 128 + 128
  {
    var q, r := v / 256, v % 256;
    if r < 128 {
      DivUnique(v, 128, 2 * q, r);
    } else {
      DivUnique(v, 128, 2 * q + 1, r - 128);
    }
  }

  /** Or-ing in a bit that is there already. */
  lemma {:induction false} OrTop(a: nat, k: nat)
    requires a < Pow2(k)
    ensures Or(a + Pow2(k), Pow2(k)) == a + Pow2(k)
  {
    Pow2Positive(k);
    if k > 0 {
      OrTop(a / 2, k - 1);
      assert (a + Pow2(k)) / 2 == a / 2 + Pow2(k - 1);
    } else {
      assert Or(1, 1) == 1 + 2 * Or(0, 0);
    }
  }

  lemma HighBit(v: uint64)
    ensures WithHighBit(v) == v % 128 + 128
  {
    LowBits(v);
    Pow2Of64();
    if v % 256 == v % 128 {
      OrDisjoint(v % 128, 1, 7);
    } else {
      OrTop(v % 128, 7);
    }
  }

  /** pbVarintLen. */
  method Len(v0: uint64) returns (n: nat)
    ensures n == |Encode(v0)|
  {
    var v := v0;
    n := 1;
    while v >= 0x80
      invariant n - 1 + |Encode(v)| == |Encode(v0)|
      decreases v
    {
      v := v / 128;
      n := n + 1;
    }
  }

  /** pbAppendVarint. */
  method Append(buf: seq<byte>, v0: uint64) returns (out: seq<byte>)
    ensures out == buf + Encode(v0)
  {
    var v := v0;
    out := buf;
    while v >= 0x80
      invariant out + Encode(v) == buf + Encode(v0)
      decreases v
    {
      HighBit(v);
      out := out + [WithHighBit(v)];
      v := v / 128;
    }
    out := out + [v % 256];
  }
}

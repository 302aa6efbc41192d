/** One byte as eight booleans, and what the source's mask expressions do to them. */
module ByteBits {

  /** The `n` leading bits of a byte, most significant first. */
  function Leading(b: bv8, n: nat): (bits: seq<bool>)
    ensures |bits| == n
    decreases n, b
  {
    if n == 0 then [] else [b & 0x80 != 0] + Leading(b << 1, n - 1)
  }

  function Unpack(b: bv8): (bits: seq<bool>)
    ensures |bits| == 8
  {
    Leading(b, 8)
  }

  /** `1 << (7 - k)`. */
  function Mask(k: nat): bv8
    requires k < 8
  {
    (1 as bv8) << (7 - k)
  }

  predicate Top(b: bv8, k: nat)
    requires k < 8
  {
    (b << k) & 0x80 != 0
  }

  lemma TopShifted(b: bv8, k: nat)
    requires 0 < k < 8
    ensures Top(b << 1, k - 1) == Top(b, k)
  {
  }

  lemma {:induction false} LeadingIsTop(b: bv8, n: nat, k: nat)
    requires k < 8 && k < n
    ensures Leading(b, n)[k] == Top(b, k)
    decreases k
  {
    if k > 0 {
      LeadingIsTop(b << 1, n - 1, k - 1);
      TopShifted(b, k);
    }
  }

  lemma TestedTop(b: bv8, k: nat)
    requires k < 8
    ensures (b & Mask(k) != 0) == Top(b, k)
  {
  }

  lemma MaskTop(i: nat, k: nat)
    requires i < 8 && k < 8
    ensures Top(Mask(i), k) == (i == k)
  {
  }

  lemma OrTop(a: bv8, b: bv8, k: nat)
    requires k < 8
    ensures Top(a | b, k) == (Top(a, k) || Top(b, k))
  {
  }

  lemma SetTop(b: bv8, i: nat, k: nat)
    requires i < 8 && k < 8
    ensures Top(b | Mask(i), k) == (i == k || Top(b, k))
  {
    hide Top, Mask;
    OrTop(b, Mask(i), k);
    MaskTop(i, k);
  }

  lemma ClearedTop(b: bv8, i: nat, k: nat)
    requires i < 8 && k < 8
    ensures Top(b & !Mask(i), k) == (i != k && Top(b, k))
  {
  }

  lemma AndTop(a: bv8, b: bv8, k: nat)
    requires k < 8
    ensures Top(a & b, k) == (Top(a, k) && Top(b, k))
  {
  }

  lemma PaddedTop(a: bv8, n: nat, k: nat)
    requires 0 < n < 8 && k < 8
    ensures Top(a & ((0xFF as bv8) << (8 - n)), k) == (k < n && Top(a, k))
  {
  }

  lemma UnpackedBit(b: bv8, k: nat)
    requires k < 8
    ensures Unpack(b)[k] == (b & Mask(k) != 0)
  {
    hide Leading, Mask, Top;
    LeadingIsTop(b, 8, k);
    TestedTop(b, k);
  }

  lemma OneBitMasked(k: nat)
    requires k < 8
    ensures (0x80 as bv8) & Mask(k) != 0 <==> k == 0
    ensures (0x01 as bv8) & Mask(k) != 0 <==> k == 7
  {
  }

  /** `has` tests the mask. */
  method TestBit(b: bv8, k: nat) returns (r: bool)
    requires k < 8
    ensures r == Unpack(b)[k]
  {
    LeadingIsTop(b, 8, k);
    TestedTop(b, k);
    r := b & Mask(k) != 0;
  }

  /** `set` or-s the mask in, or and-s its complement. */
  method WriteBit(b: bv8, i: nat, val: bool) returns (r: bv8)
    requires i < 8
    ensures Unpack(r) == Unpack(b)[i := val]
  {
    r := if val then b | Mask(i) else b & !Mask(i);
    forall k: nat | k < 8 ensures Unpack(r)[k] == Unpack(b)[i := val][k] {
      LeadingIsTop(b, 8, k);
      LeadingIsTop(r, 8, k);
      SetTop(b, i, k);
      ClearedTop(b, i, k);
    }
  }

  lemma AndUnpack(a: bv8, b: bv8)
    ensures forall k: nat | k < 8 :: Unpack(a & b)[k] == (Unpack(a)[k] && Unpack(b)[k])
  {
    forall k: nat | k < 8 ensures Unpack(a & b)[k] == (Unpack(a)[k] && Unpack(b)[k]) {
      LeadingIsTop(a, 8, k);
      LeadingIsTop(b, 8, k);
      LeadingIsTop(a & b, 8, k);
      AndTop(a, b, k);
    }
  }

  ghost predicate KeptLeading(a: bv8, r: bv8, n: nat) {
    forall k: nat | k < 8 :: Unpack(r)[k] == (k < n && Unpack(a)[k])
  }

  /** The constructor's padding mask `0xFF << (8 - n)` keeps exactly the first `n` bits. */
  method KeepLeading(a: bv8, n: nat) returns (r: bv8)
    requires 0 < n < 8
    ensures KeptLeading(a, r, n)
  {
    r := a & ((0xFF as bv8) << (8 - n));
    forall k: nat | k < 8 ensures Unpack(r)[k] == (k < n && Unpack(a)[k]) {
      LeadingIsTop(a, 8, k);
      LeadingIsTop(r, 8, k);
      PaddedTop(a, n, k);
    }
  }

  function Trues(bits: seq<bool>): nat {
    if bits == [] then 0 else Trues(bits[..|bits| - 1]) + if bits[|bits| - 1] then 1 else 0
  }

  lemma {:induction false} TruesPadded(bits: seq<bool>)
    ensures Trues([false] + bits) == Trues(bits)
  {
    if bits != [] {
      TruesPadded(bits[..|bits| - 1]);
      assert ([false] + bits)[..|bits|] == [false] + bits[..|bits| - 1];
    } else {
      assert ([false] + bits)[..0] == [];
    }
  }

  lemma ShiftedRight(b: bv8, k: nat)
    requires k < 8
    ensures Top(b >> 1, k) == (k > 0 && Top(b, k - 1))
    ensures (b & 1 != 0) == Top(b, 7)
  {
  }

  lemma {:induction false} NoTrues(bits: seq<bool>)
    requires forall k | 0 <= k < |bits| :: !bits[k]
    ensures Trues(bits) == 0
  {
    if bits != [] {
      NoTrues(bits[..|bits| - 1]);
    }
  }

  lemma UnpackShifted(b: bv8)
    ensures Unpack(b >> 1) == [false] + Unpack(b)[..7]
    ensures Unpack(b)[7] == (b & 1 != 0)
  {
    forall k: nat | k < 8 ensures Unpack(b >> 1)[k] == ([false] + Unpack(b)[..7])[k] {
      ShiftedRight(b, k);
      LeadingIsTop(b >> 1, 8, k);
      if k > 0 {
        LeadingIsTop(b, 8, k - 1);
      }
    }
    ShiftedRight(b, 7);
    LeadingIsTop(b, 8, 7);
  }

  /** The set bits of a byte, counted by shifting it out to the right. */
  function CountRight(b: bv8): nat
    decreases b as int
  {
    if b == 0 then 0 else ShiftShrinks(b); (if b & 1 != 0 then 1 else 0) + CountRight(b >> 1)
  }

  lemma ShiftShrinks(b: bv8)
    requires b != 0
    ensures (b >> 1) as int < b as int
  {
  }

  lemma {:induction false} CountRightIsTrues(b: bv8)
    ensures CountRight(b) == Trues(Unpack(b))
    decreases b as int
  {
    UnpackShifted(b);
    TruesPadded(Unpack(b)[..7]);
    if b != 0 {
      ShiftShrinks(b);
      CountRightIsTrues(b >> 1);
    } else {
      forall k: nat | k < 8 ensures !Unpack(b)[k] {
        LeadingIsTop(b, 8, k);
      }
      NoTrues(Unpack(b));
    }
  }

  /** The inner loop of `count`: shift the byte out, adding its low bit each time. */
  method CountOnes(byteValue: bv8) returns (total: nat)
    ensures total == CountRight(byteValue)
  {
    total := 0;
    var b := byteValue;
    while b != 0
      invariant total + CountRight(b) == CountRight(byteValue)
      decreases b as int
    {
      ShiftShrinks(b);
      total := total + if b & 1 != 0 then 1 else 0;
      b := b >> 1;
    }
  }

  lemma SameByte(a: bv8, b: bv8)
    requires Unpack(a) == Unpack(b)
    ensures a == b
  {
    SameTop(a, b, 0);
    SameTop(a, b, 1);
    SameTop(a, b, 2);
    SameTop(a, b, 3);
    SameTop(a, b, 4);
    SameTop(a, b, 5);
    SameTop(a, b, 6);
    SameTop(a, b, 7);
  }

  lemma SameTop(a: bv8, b: bv8, k: nat)
    requires k < 8 && Unpack(a) == Unpack(b)
    ensures Top(a, k) == Top(b, k)
  {
    LeadingIsTop(a, 8, k);
    LeadingIsTop(b, 8, k);
  }
}

/**
 The packed piece bitfield (bitfield.cpp): padding bits zero, `Members` the set of indices it stands
 for. The class changes its bytes in place; what it does is stated on the set of indices.
 */
module Bitfields {
  import opened Bytes
  import opened ByteBits

  /** All bits of a buffer in order. */
  function Flat(bytes: seq<bv8>): (bits: seq<bool>)
    ensures |bits| == 8 * |bytes|
  {
    if bytes == [] then [] else Flat(bytes[..|bytes| - 1]) + Unpack(bytes[|bytes| - 1])
  }

  function ByteCount(numBits: nat): nat {
    (numBits + 7) / 8
  }

  datatype RawBits = RawBits(numBits: nat, bytes: seq<bv8>) {
    /** The buffer has the right size and no bit at or past `numBits` is set. */
    predicate Clean() {
      && |bytes| == ByteCount(numBits)
      && forall i: nat | numBits <= i < 8 * |bytes| :: !Flat(bytes)[i]
    }
  }

  type Bits = b: RawBits | b.Clean() witness RawBits(0, [])

  /** The positions below `n` at which `bits` is true. */
  ghost function Indices(bits: seq<bool>, n: nat): set<nat>
    requires n <= |bits|
  {
    if n == 0 then {} else Indices(bits, n - 1) + if bits[n - 1] then {n - 1} else {}
  }

  ghost function Members(b: Bits): set<nat> {
    Indices(Flat(b.bytes), b.numBits)
  }

  /** The wire form of a bitfield, read as a set of piece indices below `n`. */
  ghost function Announced(raw: seq<byte>, n: nat): set<nat> {
    set i: nat | i < n && i < 8 * |raw| && Flat(FromWire(raw))[i]
  }

  lemma AnnouncedInRange(raw: seq<byte>, n: nat)
    ensures forall i | i in Announced(raw, n) :: i < n
  {
  }

  function FromWire(raw: seq<byte>): (bytes: seq<bv8>)
    ensures |bytes| == |raw|
  {
    seq(|raw|, m requires 0 <= m < |raw| => raw[m] as bv8)
  }

  lemma {:induction false} InIndices(bits: seq<bool>, n: nat)
    requires n <= |bits|
    ensures forall i: nat :: i in Indices(bits, n) <==> i < n && bits[i]
  {
    if n > 0 {
      InIndices(bits, n - 1);
    }
  }

  /** Membership is the bit test, for every index. */
  lemma InMembers(b: Bits)
    ensures forall i: nat :: i in Members(b) <==> i < b.numBits && Flat(b.bytes)[i]
  {
    InIndices(Flat(b.bytes), b.numBits);
  }

  lemma {:induction false} FlatAt(bytes: seq<bv8>, m: nat, k: nat)
    requires m < |bytes| && k < 8
    ensures Flat(bytes)[8 * m + k] == Unpack(bytes[m])[k]
  {
    if m < |bytes| - 1 {
      FlatAt(bytes[..|bytes| - 1], m, k);
    }
  }

  lemma FlatIndex(bytes: seq<bv8>, i: nat)
    requires i < 8 * |bytes|
    ensures Flat(bytes)[i] == Unpack(bytes[i / 8])[i % 8]
  {
    FlatAt(bytes, i / 8, i % 8);
  }

  /** Index `i` is announced by the bit of weight `2^(7 - i % 8)` in byte `i / 8`. */
  lemma AnnouncedBit(raw: seq<byte>, n: nat, i: nat)
    ensures i in Announced(raw, n) <==> i < n && i / 8 < |raw| && (raw[i / 8] as bv8) & Mask(i % 8) != 0
  {
    hide Flat, Leading, Unpack, Mask;
    if i / 8 < |raw| {
      FlatIndex(FromWire(raw), i);
      UnpackedBit(raw[i / 8] as bv8, i % 8);
    }
  }

  /** The highest bit of the first byte is piece 0, the lowest piece 7. */
  lemma HighestBitFirst(i: nat)
    ensures i in Announced([0x80], 8) <==> i == 0
    ensures i in Announced([0x01], 8) <==> i == 7
  {
    hide Announced, Mask;
    AnnouncedBit([0x80], 8, i);
    AnnouncedBit([0x01], 8, i);
    if i < 8 {
      OneBitMasked(i);
    }
  }

  lemma {:induction false} FlatInjective(a: seq<bv8>, b: seq<bv8>)
    requires Flat(a) == Flat(b)
    ensures a == b
  {
    assert |a| == |b|;
    if a != [] {
      var n := |a| - 1;
      assert Flat(a)[..8 * n] == Flat(a[..n]) && Flat(a)[8 * n..] == Unpack(a[n]);
      assert Flat(b)[..8 * n] == Flat(b[..n]) && Flat(b)[8 * n..] == Unpack(b[n]);
      FlatInjective(a[..n], b[..n]);
      SameByte(a[n], b[n]);
      assert a == a[..n] + [a[n]];
      assert b == b[..n] + [b[n]];
    }
  }

  /** Two bitfields of one size are equal as buffers exactly when they hold the same pieces. */
  lemma EqualBytesIffEqualMembers(a: Bits, b: Bits)
    requires a.numBits == b.numBits
    ensures a == b <==> Members(a) == Members(b)
  {
    if Members(a) == Members(b) {
      InMembers(a);
      InMembers(b);
      assert forall i: nat | i < a.numBits :: Flat(a.bytes)[i] == (i in Members(a)) == Flat(b.bytes)[i];
      assert Flat(a.bytes) == Flat(b.bytes);
      FlatInjective(a.bytes, b.bytes);
    }
  }

  lemma OneBitWritten(before: Bits, index: nat, b: bv8, val: bool)
    requires index < before.numBits
    requires Unpack(b) == Unpack(before.bytes[index / 8])[index % 8 := val]
    ensures RawBits(before.numBits, before.bytes[index / 8 := b]).Clean()
    ensures Members(RawBits(before.numBits, before.bytes[index / 8 := b]))
         == if val then Members(before) + {index} else Members(before) - {index}
  {
    var after := RawBits(before.numBits, before.bytes[index / 8 := b]);
    forall i: nat | i < 8 * |before.bytes|
      ensures Flat(after.bytes)[i] == if i == index then val else Flat(before.bytes)[i]
    {
      FlatIndex(before.bytes, i);
      FlatIndex(after.bytes, i);
    }
    InMembers(before);
    InMembers(after);
  }

  lemma FlatAnd(a: seq<bv8>, b: seq<bv8>, c: seq<bv8>, i: nat)
    requires |c| <= |a| && |c| <= |b| && i < 8 * |c|
    requires forall m | 0 <= m < |c| :: c[m] == a[m] & b[m]
    ensures Flat(c)[i] == (Flat(a)[i] && Flat(b)[i])
  {
    hide Flat, Unpack;
    FlatIndex(a, i);
    FlatIndex(b, i);
    FlatIndex(c, i);
    AndUnpack(a[i / 8], b[i / 8]);
  }

  lemma Intersection(a: Bits, b: Bits, c: RawBits)
    requires c.numBits == Min(a.numBits, b.numBits) && |c.bytes| == ByteCount(c.numBits)
    requires forall m | 0 <= m < |c.bytes| :: c.bytes[m] == a.bytes[m] & b.bytes[m]
    ensures c.Clean() && Members(c) == Members(a) * Members(b)
  {
    forall i: nat | i < 8 * |c.bytes|
      ensures Flat(c.bytes)[i] == (Flat(a.bytes)[i] && Flat(b.bytes)[i])
    {
      FlatAnd(a.bytes, b.bytes, c.bytes, i);
    }
    InMembers(a);
    InMembers(b);
    InMembers(c);
  }

  lemma {:induction false} FlatPrefix(a: seq<bv8>, b: seq<bv8>, i: nat)
    requires i < 8 * |a| && i < 8 * |b| && a[i / 8] == b[i / 8]
    ensures Flat(a)[i] == Flat(b)[i]
  {
    FlatIndex(a, i);
    FlatIndex(b, i);
  }

  lemma OneMoreIndex(bits: seq<bool>, n: nat)
    requires n < |bits|
    ensures |Indices(bits, n + 1)| == |Indices(bits, n)| + if bits[n] then 1 else 0
  {
    InIndices(bits, n);
  }

  lemma {:induction false} CountSlice(bits: seq<bool>, part: seq<bool>, at: nat)
    requires at + |part| <= |bits|
    requires forall k | 0 <= k < |part| :: bits[at + k] == part[k]
    ensures |Indices(bits, at + |part|)| == |Indices(bits, at)| + Trues(part)
  {
    hide Indices;
    if part != [] {
      var n := |part| - 1;
      CountSlice(bits, part[..n], at);
      OneMoreIndex(bits, at + n);
    }
  }

  lemma CountByte(bytes: seq<bv8>, bits: seq<bool>, byteBits: seq<bool>, m: nat)
    requires m < |bytes| && bits == Flat(bytes) && byteBits == Unpack(bytes[m])
    ensures |Indices(bits, 8 * m + 8)| == |Indices(bits, 8 * m)| + Trues(byteBits)
  {
    forall k | 0 <= k < 8 ensures bits[8 * m + k] == byteBits[k] {
      FlatAt(bytes, m, k);
    }
    CountSlice(bits, byteBits, 8 * m);
  }

  lemma {:induction false} NoPaddingCounted(b: Bits, n: nat)
    requires b.numBits <= n <= 8 * |b.bytes|
    ensures Indices(Flat(b.bytes), n) == Members(b)
  {
    if n > b.numBits {
      NoPaddingCounted(b, n - 1);
    }
  }

  lemma {:induction false} FlatZero(bytes: seq<bv8>, i: nat)
    requires i < 8 * |bytes| && bytes[i / 8] == 0
    ensures !Flat(bytes)[i]
  {
    FlatIndex(bytes, i);
    LeadingIsTop(0, 8, i % 8);
  }

  ghost predicate Padded(before: seq<bv8>, after: seq<bv8>, numBits: nat)
    requires |before| == |after|
  {
    if numBits % 8 == 0 || before == [] then after == before
    else
      && (forall m | 0 <= m < |before| - 1 :: after[m] == before[m])
      && KeptLeading(before[|before| - 1], after[|before| - 1], numBits % 8)
  }

  lemma PaddedAt(before: seq<bv8>, after: seq<bv8>, numBits: nat, i: nat)
    requires |before| == |after| == ByteCount(numBits) && Padded(before, after, numBits)
    requires i < 8 * |before|
    ensures Flat(after)[i] == (i < numBits && Flat(before)[i])
  {
    hide Flat, Unpack;
    FlatIndex(after, i);
    FlatIndex(before, i);
    var last := |before| - 1;
    if numBits % 8 != 0 && i / 8 == last {
      LastByte(numBits, i);
    } else {
      EarlierByte(numBits, i);
    }
  }

  lemma LastByte(numBits: nat, i: nat)
    requires numBits % 8 != 0 && i / 8 == ByteCount(numBits) - 1
    ensures i < numBits <==> i % 8 < numBits % 8
  {
  }

  lemma EarlierByte(numBits: nat, i: nat)
    requires i < 8 * ByteCount(numBits) && (numBits % 8 == 0 || i / 8 < ByteCount(numBits) - 1)
    ensures i < numBits
  {
  }

  lemma PaddedCopy(raw: seq<bv8>, before: seq<bv8>, after: seq<bv8>, numBits: nat)
    requires |before| == |after| == ByteCount(numBits) && Padded(before, after, numBits)
    requires forall m | 0 <= m < |before| :: before[m] == if m < |raw| then raw[m] else 0
    ensures RawBits(numBits, after).Clean()
    ensures Members(RawBits(numBits, after)) == set i: nat | i < numBits && i < 8 * |raw| && Flat(raw)[i]
  {
    forall i: nat | i < 8 * |before|
      ensures Flat(after)[i] == (i < numBits && i < 8 * |raw| && Flat(raw)[i])
    {
      PaddedAt(before, after, numBits, i);
      if i < 8 * |raw| {
        FlatPrefix(before, raw, i);
      } else {
        FlatZero(before, i);
      }
    }
    InMembers(RawBits(numBits, after));
  }

  class Bitfield {
    const numBits: nat
    const bytes: array<bv8>

    ghost predicate Valid()
      reads bytes
    {
      RawBits(numBits, bytes[..]).Clean()
    }

    function Value(): (b: Bits)
      requires Valid()
      reads bytes
    {
      RawBits(numBits, bytes[..])
    }

    constructor (numBits: nat)
      ensures Valid() && fresh(bytes)
      ensures this.numBits == numBits && Members(Value()) == {}
    {
      this.numBits := numBits;
      bytes := new bv8[ByteCount(numBits)](_ => 0);
      new;
      forall i: nat | i < 8 * bytes.Length ensures !Flat(bytes[..])[i] {
        FlatZero(bytes[..], i);
      }
      InMembers(Value());
    }

    /** Copy construction. */
    constructor Copy(b: Bits)
      ensures Valid() && fresh(bytes)
      ensures numBits == b.numBits && Value() == b
    {
      numBits := b.numBits;
      bytes := new bv8[|b.bytes|](m requires 0 <= m < |b.bytes| => b.bytes[m]);
      new;
      assert bytes[..] == b.bytes;
    }

    /** From wire bytes of any length: short buffers are zero-extended, long ones cut, padding cleared. */
    constructor FromBytes(wire: seq<byte>, numBits: nat)
      ensures Valid() && fresh(bytes)
      ensures this.numBits == numBits
      ensures Members(Value()) == Announced(wire, numBits)
    {
      this.numBits := numBits;
      var raw := FromWire(wire);
      var size := ByteCount(numBits);
      bytes := new bv8[size](m requires 0 <= m < size => if m < |raw| then raw[m] else 0);
      new;
      ghost var before := bytes[..];
      if numBits % 8 != 0 && bytes.Length != 0 {
        var last := KeepLeading(bytes[size - 1], numBits % 8);
        bytes[size - 1] := last;
      }
      PaddedCopy(raw, before, bytes[..], numBits);
    }

    method Has(index: nat) returns (r: bool)
      requires Valid()
      ensures r <==> index in Members(Value())
    {
      InMembers(Value());
      if index >= numBits {
        return false;
      }
      FlatIndex(bytes[..], index);
      r := TestBit(bytes[index / 8], index % 8);
    }

    method Set(index: nat, val: bool)
      requires Valid()
      modifies bytes
      ensures Valid()
      ensures Members(Value()) ==
              if index >= numBits then old(Members(Value()))
              else if val then old(Members(Value())) + {index}
              else old(Members(Value())) - {index}
    {
      if index >= numBits {
        return;
      }
      var b := WriteBit(bytes[index / 8], index % 8, val);
      OneBitWritten(Value(), index, b, val);
      ghost var after := bytes[..][index / 8 := b];
      bytes[index / 8] := b;
      assert bytes[..] == after;
    }

    method Count() returns (total: nat)
      requires Valid()
      ensures total == |Members(Value())|
    {
      total := 0;
      ghost var bits := Flat(bytes[..]);
      for m := 0 to bytes.Length
        invariant total == |Indices(bits, 8 * m)|
      {
        var ones := CountOnes(bytes[m]);
        total := total + ones;
        CountRightIsTrues(bytes[m]);
        CountByte(bytes[..], bits, Unpack(bytes[m]), m);
      }
      NoPaddingCounted(Value(), 8 * bytes.Length);
    }

    /** `operator&`, also for operands of different sizes. */
    method Intersect(other: Bitfield) returns (result: Bitfield)
      requires Valid() && other.Valid()
      ensures fresh(result) && fresh(result.bytes) && result.Valid()
      ensures result.numBits == Min(numBits, other.numBits)
      ensures Members(result.Value()) == Members(Value()) * Members(other.Value())
    {
      result := new Bitfield(Min(numBits, other.numBits));
      for m := 0 to result.bytes.Length
        invariant fresh(result.bytes)
        invariant forall j | 0 <= j < m :: result.bytes[j] == bytes[j] & other.bytes[j]
      {
        result.bytes[m] := bytes[m] & other.bytes[m];
      }
      Intersection(Value(), other.Value(), RawBits(result.numBits, result.bytes[..]));
    }
  }
}

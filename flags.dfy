/**
 * KerberosFlags (section 5.2.8 of RFC 4120): a BIT STRING whose bit 0 is the
 * most significant bit of the first octet, together with the two builders of
 * the repository:
 *  - `RawFlagsBuilder` (messages/src/basic/mod.rs) owns a heap buffer of at
 *    least four octets that `len` reallocates and `set` updates in place;
 *  - `FlagsBuilder` (messages/src/basic/kerberos_flags.rs) owns a growable
 *    vector that `set` resizes when the position is 32 or more.
 */
module Flags {
  import opened Wrappers
  import TagLength

  /** The raw octets of the BIT STRING (no unused trailing bits). */
  datatype KerberosFlags = KerberosFlags(bytes: seq<bv8>)

  /**
   * The DER encoding of a KerberosFlags value, a BIT STRING as section 8.6
   * of X.690 frames it: identifier 0x03, the definite length of the
   * contents, then contents made of an initial octet counting the unused
   * bits of the last octet (none here) and the flag octets.
   */
  function FlagsDer(f: KerberosFlags): (d: seq<bv8>)
    requires |f.bytes| < 0xFFFF_FFFF
    ensures |d| > |f.bytes| + 1 && d[0] == 0x03
    ensures TagLength.ParseHeader(d) == Some(TagLength.Header(|f.bytes| + 1, d[..|d| - |f.bytes| - 1]))
    ensures d[|d| - |f.bytes| - 1] == 0 && d[|d| - |f.bytes|..] == f.bytes
  {
    var d := [0x03] + TagLength.LengthOctets(|f.bytes| + 1) + [0] + f.bytes;
    TagLength.HeaderOfEncodedLength(0x03, |f.bytes| + 1, [0] + f.bytes);
    assert d == [0x03] + TagLength.LengthOctets(|f.bytes| + 1) + ([0] + f.bytes);
    assert d[..|d| - |f.bytes| - 1] == [0x03] + TagLength.LengthOctets(|f.bytes| + 1);
    d
  }

  /** The mask of position `pos` inside its octet: bit `7 - pos % 8`. */
  function Mask(pos: nat): (m: bv8)
    ensures m != 0
  {
    (1 as bv8) << (7 - pos % 8) as bv8
  }

  /** Bit `pos` of a raw buffer; positions past its end read as clear. */
  predicate BitSet(bytes: seq<bv8>, pos: nat) {
    pos / 8 < |bytes| && bytes[pos / 8] & Mask(pos) != 0
  }

  /** `KerberosFlags::is_set`. */
  function IsSet(f: KerberosFlags, pos: nat): (b: bool)
    ensures pos / 8 >= |f.bytes| ==> !b
    ensures b <==> BitSet(f.bytes, pos)
  {
    var idx := pos / 8;
    if idx < |f.bytes| then f.bytes[idx] & Mask(pos) != 0 else false
  }

  // ------------------------------------------------------- bit-level facts

  /** Two positions in the same octet share a mask only when they are equal. */
  lemma MaskInjective(p: nat, q: nat)
    requires p / 8 == q / 8 && p != q
    ensures Mask(p) != Mask(q)
  {
    assert p % 8 != q % 8;
    var a, b := p % 8, q % 8;
    assert 0 <= a < 8 && 0 <= b < 8;
  }

  /** OR-ing one mask into an octet sets that bit and keeps every other bit. */
  lemma OrMaskBits(x: bv8, p: nat, q: nat)
    requires p / 8 == q / 8
    ensures (x | Mask(p)) & Mask(q) != 0 <==> p == q || x & Mask(q) != 0
  {
    var a, b := p % 8, q % 8;
    assert Mask(p) == (1 as bv8) << (7 - a) as bv8;
    assert Mask(q) == (1 as bv8) << (7 - b) as bv8;
    if p != q { assert a != b; }
  }

  /** The buffer with exactly bit `pos` OR-ed in (`inner[pos / 8] |= 1 << shift`). */
  function OrBit(bytes: seq<bv8>, pos: nat): (r: seq<bv8>)
    requires pos / 8 < |bytes|
    ensures |r| == |bytes|
  {
    bytes[pos / 8 := bytes[pos / 8] | Mask(pos)]
  }

  /** After OR-ing in `pos`, bit `q` is set iff it is `pos` or was set before. */
  lemma OrBitSets(bytes: seq<bv8>, pos: nat, q: nat)
    requires pos / 8 < |bytes|
    ensures BitSet(OrBit(bytes, pos), q) <==> q == pos || BitSet(bytes, q)
  {
    if q / 8 == pos / 8 {
      OrMaskBits(bytes[pos / 8], pos, q);
    }
  }

  /** A buffer of zero octets has no bit set. */
  lemma ZerosClear(n: nat, q: nat)
    ensures !BitSet(seq(n, _ => 0 as bv8), q)
  {
  }

  /** `resize(n, 0)`, and the copy of `len`: the old prefix, cut or zero-extended to length `n`. */
  function Resized(bytes: seq<bv8>, n: nat): (r: seq<bv8>)
    ensures |r| == n
    ensures forall i :: 0 <= i < n ==> r[i] == if i < |bytes| then bytes[i] else 0
  {
    if n <= |bytes| then bytes[..n] else bytes + seq(n - |bytes|, _ => 0 as bv8)
  }

  /** Resizing keeps every bit of the common prefix and clears the rest. */
  lemma ResizedBits(bytes: seq<bv8>, n: nat, q: nat)
    ensures BitSet(Resized(bytes, n), q) <==> q / 8 < n && BitSet(bytes, q)
  {
  }

  // --------------------------------------- builder of messages/src/basic/mod.rs

  /** The four zero octets every builder starts from. */
  const DefaultFlagBytes: seq<bv8> := [0, 0, 0, 0]

  /** A fresh builder's flags report no bit set. */
  lemma DefaultFlagsClear(q: nat)
    ensures !IsSet(KerberosFlags(DefaultFlagBytes), q)
  {
    ZerosClear(4, q);
    assert DefaultFlagBytes == seq(4, _ => 0 as bv8);
  }

  /** The effect of `set(pos)` on the raw builder: nothing when out of range, else `OrBit`. */
  function RawSet(bytes: seq<bv8>, pos: nat): (r: seq<bv8>)
    ensures |r| == |bytes|
  {
    if pos >= |bytes| * 8 then bytes else OrBit(bytes, pos)
  }

  /** `set(pos)` on the raw builder sets exactly `pos` when it is in range and changes nothing otherwise. */
  lemma RawSetBits(bytes: seq<bv8>, pos: nat, q: nat)
    ensures pos >= |bytes| * 8 ==> RawSet(bytes, pos) == bytes
    ensures BitSet(RawSet(bytes, pos), q) <==> (q == pos && pos < |bytes| * 8) || BitSet(bytes, q)
  {
    if pos < |bytes| * 8 {
      OrBitSets(bytes, pos, q);
    }
  }

  /** `KerberosFlagsBuilder` of messages/src/basic/mod.rs: a heap buffer of at least four octets. */
  class RawFlagsBuilder {
    var inner: array<bv8>

    ghost predicate Valid()
      reads this
    {
      inner.Length >= 4
    }

    /** The current octets. */
    function Bytes(): (s: seq<bv8>)
      reads this, inner
      ensures |s| == inner.Length
    {
      inner[..]
    }

    /** `KerberosFlagsBuilder::new`: four zero octets. */
    constructor New()
      ensures Valid() && fresh(inner)
      ensures Bytes() == DefaultFlagBytes
    {
      var a := new bv8[4];
      a[0], a[1], a[2], a[3] := 0, 0, 0, 0;
      inner := a;
    }

    /**
     * `len(n)`: fewer than four octets is an error; otherwise the buffer is
     * reallocated to `n` octets holding the old prefix (cut or zero-extended).
     */
    method Len(n: nat) returns (r: Result<(), string>)
      requires Valid()
      modifies this
      ensures Valid()
      ensures r.Err? <==> n < 4
      ensures r.Err? ==> Bytes() == old(Bytes()) && inner == old(inner)
      ensures r.Ok? ==> Bytes() == Resized(old(Bytes()), n)
    {
      if n < 4 {
        return Err("Length must be at least 4 bytes");
      }
      if n == inner.Length {
        assert Bytes() == Resized(Bytes(), n);
        return Ok(());
      }
      var prev := inner;
      var buffer := new bv8[n];
      var copied := if prev.Length > n then n else prev.Length;
      var i := 0;
      while i < n
        invariant 0 <= i <= n
        invariant forall k :: 0 <= k < i ==> buffer[k] == if k < prev.Length then prev[k] else 0
      {
        buffer[i] := if i < copied then prev[i] else 0;
        i := i + 1;
      }
      inner := buffer;
      r := Ok(());
    }

    /** `set(pos)`: OR the bit into the buffer in place, ignoring a position past its end. */
    method Set(pos: nat)
      requires Valid()
      modifies inner
      ensures Valid()
      ensures Bytes() == RawSet(old(Bytes()), pos)
    {
      if pos >= inner.Length * 8 {
        return;
      }
      var bytePos := pos / 8;
      inner[bytePos] := inner[bytePos] | Mask(pos);
    }

    /** `build()`: the flags over the current octets. */
    method Build() returns (f: KerberosFlags)
      requires Valid()
      ensures f.bytes == Bytes()
      ensures |f.bytes| >= 4
    {
      f := KerberosFlags(inner[..]);
    }
  }

  // ----------------------------------- builder of messages/src/basic/kerberos_flags.rs

  /** The effect of `set(pos)` on the vector builder: resize when `pos >= 32`, then OR the bit in. */
  function VecSet(bytes: seq<bv8>, pos: nat): (r: seq<bv8>)
    requires |bytes| >= 4
    ensures |r| >= 4
    ensures pos >= 32 ==> |r| == pos / 8 + 1
    ensures pos < 32 ==> |r| == |bytes|
  {
    var b := if pos >= 32 then Resized(bytes, pos / 8 + 1) else bytes;
    OrBit(b, pos)
  }

  /** After `set(pos)` the built flags report `pos` as set. */
  lemma VecSetThenIsSet(bytes: seq<bv8>, pos: nat)
    requires |bytes| >= 4
    ensures IsSet(KerberosFlags(VecSet(bytes, pos)), pos)
  {
    var b := if pos >= 32 then Resized(bytes, pos / 8 + 1) else bytes;
    OrBitSets(b, pos, pos);
  }

  /** Below 32, `set(pos)` changes bit `pos` only. */
  lemma VecSetLowOnlyThatBit(bytes: seq<bv8>, pos: nat, q: nat)
    requires |bytes| >= 4 && pos < 32
    ensures BitSet(VecSet(bytes, pos), q) <==> q == pos || BitSet(bytes, q)
  {
    OrBitSets(bytes, pos, q);
  }

  /**
   * At 32 or more, `set(pos)` first resizes the buffer to exactly `pos / 8 + 1`
   * octets: bits in later octets are dropped even if an earlier `set` raised them.
   */
  lemma VecSetHighResizes(bytes: seq<bv8>, pos: nat, q: nat)
    requires |bytes| >= 4 && pos >= 32
    ensures BitSet(VecSet(bytes, pos), q) <==>
              q == pos || (q / 8 <= pos / 8 && BitSet(bytes, q))
  {
    var b := Resized(bytes, pos / 8 + 1);
    OrBitSets(b, pos, q);
    ResizedBits(bytes, pos / 8 + 1, q);
  }

  /** `KerberosFlagsBuilder` of messages/src/basic/kerberos_flags.rs: a vector of at least four octets. */
  class FlagsBuilder {
    var inner: seq<bv8>

    ghost predicate Valid()
      reads this
    {
      |inner| >= 4
    }

    /** `KerberosFlagsBuilder::new`: four zero octets. */
    constructor New()
      ensures Valid() && inner == DefaultFlagBytes
    {
      inner := DefaultFlagBytes;
    }

    /** `set(pos)`: resize when `pos >= 32`, then OR the bit in place; the index is always in range. */
    method Set(pos: nat)
      requires Valid()
      modifies this
      ensures Valid()
      ensures inner == VecSet(old(inner), pos)
    {
      if pos >= 32 {
        inner := Resized(inner, pos / 8 + 1);
      }
      var idx := pos / 8;
      inner := inner[idx := inner[idx] | Mask(pos)];
    }

    /** `build()`: the flags over a copy of the vector. */
    method Build() returns (f: KerberosFlags)
      requires Valid()
      ensures f.bytes == inner
      ensures |f.bytes| >= 4
    {
      f := KerberosFlags(inner);
    }
  }
}

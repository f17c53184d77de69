/** Fixed-width values, their big-endian encoding, and the iteration order of an ordered map. */
module Bytes {

  type byte = x: int | 0 <= x < 256
  type u32 = x: int | 0 <= x <= U32_MAX
  type u64 = x: int | 0 <= x <= U64_MAX

  /** A UUID and a SHA-256 digest are held as the big-endian value of their bytes; BigEndianOrder shows that UUIDs then
      compare as their bytes do. */
  type Uuid = x: int | 0 <= x <= U128_MAX
  type Digest = x: int | 0 <= x <= U256_MAX

  const U32_MAX: int := 0xFFFF_FFFF
  const U64_MAX: int := 0xFFFF_FFFF_FFFF_FFFF
  const U128_MAX: int := 0xFFFF_FFFF_FFFF_FFFF_FFFF_FFFF_FFFF_FFFF
  const U256_MAX: int := 0xFFFF_FFFF_FFFF_FFFF_FFFF_FFFF_FFFF_FFFF_FFFF_FFFF_FFFF_FFFF_FFFF_FFFF_FFFF_FFFF

  // ----- big-endian integers

  function Pow256(n: nat): nat {
    if n == 0 then 1 else 256 * Pow256(n - 1)
  }

  lemma Widths()
    ensures Pow256(1) == 256
    ensures Pow256(4) == U32_MAX + 1
    ensures Pow256(8) == U64_MAX + 1
    ensures Pow256(16) == U128_MAX + 1
    ensures Pow256(32) == U256_MAX + 1
  {
    assert Pow256(2) == 0x1_0000;
    assert Pow256(4) == 0x1_0000_0000;
    assert Pow256(6) == 0x1_0000_0000_0000;
    assert Pow256(8) == 0x1_0000_0000_0000_0000;
    assert Pow256(10) == 0x1_0000_0000_0000_0000_0000;
    assert Pow256(12) == 0x1_0000_0000_0000_0000_0000_0000;
    assert Pow256(14) == 0x1_0000_0000_0000_0000_0000_0000_0000;
    assert Pow256(16) == 0x1_0000_0000_0000_0000_0000_0000_0000_0000;
    assert Pow256(18) == 0x1_0000_0000_0000_0000_0000_0000_0000_0000_0000;
    assert Pow256(20) == 0x1_0000_0000_0000_0000_0000_0000_0000_0000_0000_0000;
    assert Pow256(22) == 0x1_0000_0000_0000_0000_0000_0000_0000_0000_0000_0000_0000;
    assert Pow256(24) == 0x1_0000_0000_0000_0000_0000_0000_0000_0000_0000_0000_0000_0000;
    assert Pow256(26) == 0x1_0000_0000_0000_0000_0000_0000_0000_0000_0000_0000_0000_0000_0000;
    assert Pow256(28) == 0x1_0000_0000_0000_0000_0000_0000_0000_0000_0000_0000_0000_0000_0000_0000;
    assert Pow256(30) == 0x1_0000_0000_0000_0000_0000_0000_0000_0000_0000_0000_0000_0000_0000_0000_0000;
  }

  function BigEndian(v: nat, width: nat): (r: seq<byte>)
    requires v < Pow256(width)
    ensures |r| == width
    ensures FromBigEndian(r) == v
  {
    if width == 0 then [] else BigEndian(v / 256, width - 1) + [v % 256]
  }

  function FromBigEndian(b: seq<byte>): (v: nat)
    ensures v < Pow256(|b|)
  {
    if b == [] then 0 else 256 * FromBigEndian(b[..|b| - 1]) + b[|b| - 1]
  }

  lemma {:induction false} BigEndianInverse(b: seq<byte>)
    ensures BigEndian(FromBigEndian(b), |b|) == b
  {
    if b != [] {
      var hi, lo := FromBigEndian(b[..|b| - 1]), b[|b| - 1];
      assert (256 * hi + lo) / 256 == hi && (256 * hi + lo) % 256 == lo;
      BigEndianInverse(b[..|b| - 1]);
      assert b == b[..|b| - 1] + [b[|b| - 1]];
    }
  }

  predicate Less(a: seq<byte>, b: seq<byte>) {
    b != [] && (a == [] || a[0] < b[0] || (a[0] == b[0] && Less(a[1..], b[1..])))
  }

  /** A shared or smaller prefix decides the comparison before the last byte does. */
  lemma {:induction false} LessOnLast(a: seq<byte>, x: byte, b: seq<byte>, y: byte)
    requires |a| == |b|
    ensures Less(a + [x], b + [y]) <==> Less(a, b) || (a == b && x < y)
  {
    if a != [] {
      assert (a + [x])[1..] == a[1..] + [x] && (b + [y])[1..] == b[1..] + [y];
      assert a == [a[0]] + a[1..] && b == [b[0]] + b[1..];
      LessOnLast(a[1..], x, b[1..], y);
    }
  }

  /** Numeric order is the byte order of the fixed-width encodings. */
  lemma {:induction false} BigEndianOrder(v: nat, w: nat, width: nat)
    requires v < Pow256(width) && w < Pow256(width)
    ensures v < w <==> Less(BigEndian(v, width), BigEndian(w, width))
  {
    if width > 0 {
      var v1, w1 := v / 256, w / 256;
      var a, b := BigEndian(v1, width - 1), BigEndian(w1, width - 1);
      BigEndianOrder(v1, w1, width - 1);
      LessOnLast(a, v % 256, b, w % 256);
      assert a == b <==> v1 == w1 by { assert FromBigEndian(a) == v1 && FromBigEndian(b) == w1; }
      assert v < w <==> v1 < w1 || (v1 == w1 && v % 256 < w % 256);
    }
  }

  function U32Bytes(v: u32): (r: seq<byte>)
    ensures |r| == 4 && FromBigEndian(r) == v
  {
    Widths();
    BigEndian(v, 4)
  }

  function U64Bytes(v: u64): (r: seq<byte>)
    ensures |r| == 8 && FromBigEndian(r) == v
  {
    Widths();
    BigEndian(v, 8)
  }

  function UuidBytes(v: Uuid): (r: seq<byte>)
    ensures |r| == 16 && FromBigEndian(r) == v
  {
    Widths();
    BigEndian(v, 16)
  }

  function DigestBytes(v: Digest): (r: seq<byte>)
    ensures |r| == 32 && FromBigEndian(r) == v
  {
    Widths();
    BigEndian(v, 32)
  }

  // ----- the iteration order of an ordered map

  predicate Ascending(ks: seq<Uuid>) {
    forall i, j :: 0 <= i < j < |ks| ==> ks[i] < ks[j]
  }

  predicate IsLeast(s: set<Uuid>, m: Uuid) {
    m in s && forall x: Uuid | x in s :: m <= x
  }

  lemma {:induction false} LeastExists(s: set<Uuid>)
    requires s != {}
    ensures exists m: Uuid :: IsLeast(s, m)
    decreases |s|
  {
    var x: Uuid :| x in s;
    var rest := s - {x};
    assert s == rest + {x};
    if rest == {} {
      assert IsLeast(s, x);
    } else {
      LeastExists(rest);
      var m: Uuid :| IsLeast(rest, m);
      assert IsLeast(s, if x < m then x else m);
    }
  }

  function Least(s: set<Uuid>): (m: Uuid)
    requires s != {}
    ensures IsLeast(s, m)
  {
    LeastExists(s);
    var m: Uuid :| m in s && IsLeast(s, m);
    m
  }

  /** The keys of an ordered map in the order it is iterated. */
  function SortedKeys(s: set<Uuid>): (ks: seq<Uuid>)
    ensures Ascending(ks)
    ensures |ks| == |s|
    ensures forall k: Uuid :: k in ks <==> k in s
    decreases |s|
  {
    if s == {} then [] else
      var m := Least(s);
      [m] + SortedKeys(s - {m})
  }

  /** An ascending listing is determined by the set of keys it lists. */
  lemma {:induction false} AscendingUnique(a: seq<Uuid>, b: seq<Uuid>)
    requires Ascending(a) && Ascending(b)
    requires forall k: Uuid :: k in a <==> k in b
    ensures a == b
  {
    assert b == [] || b[0] in b;
    if a != [] {
      assert a[0] in a && a[0] in b;
      assert b[0] in b && b[0] in a;
      assert a[0] == b[0];
      forall k: Uuid ensures k in a[1..] <==> k in b[1..] {
        assert k in a <==> k == a[0] || k in a[1..];
        assert k in b <==> k == b[0] || k in b[1..];
      }
      AscendingUnique(a[1..], b[1..]);
      assert a == [a[0]] + a[1..] && b == [b[0]] + b[1..];
    }
  }
}

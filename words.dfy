/** Machine integers shared by the memory model and the interpreter: bytes, the
    unsigned and signed 64-bit integers of Go and Rust, and the 256-bit EVM word,
    together with the big-endian conversion between words and byte strings. */
module Words {

  const TWO_63: nat := 0x8000_0000_0000_0000
  const TWO_64: nat := 0x1_0000_0000_0000_0000
  const MAX_U64: nat := 0xFFFF_FFFF_FFFF_FFFF
  const TWO_255: nat := 0x8000_0000_0000_0000_0000_0000_0000_0000_0000_0000_0000_0000_0000_0000_0000_0000
  const TWO_256: nat := 0x1_0000_0000_0000_0000_0000_0000_0000_0000_0000_0000_0000_0000_0000_0000_0000_0000

  type Byte = x: int | 0 <= x < 0x100
  type U64 = x: int | 0 <= x < 0x1_0000_0000_0000_0000
  type I64 = x: int | -0x8000_0000_0000_0000 <= x < 0x8000_0000_0000_0000
  type Word = x: int | 0 <= x < 0x1_0000_0000_0000_0000_0000_0000_0000_0000_0000_0000_0000_0000_0000_0000_0000_0000

  datatype Option<T> = None | Some(value: T)

  /** Reduction modulo 2^64: what a Go `uint64` sum or product, or a Rust `as u64`
      cast from a wider or signed integer, keeps of an exact integer. */
  function Wrap64(x: int): (r: U64)
    ensures 0 <= x < TWO_64 ==> r == x
  {
    x % TWO_64
  }

  /** Rust's `i64 as u64`: two's complement reinterpretation. */
  function I64AsU64(x: I64): (r: U64)
    ensures x >= 0 ==> r == x
    ensures x < 0 ==> r == x + TWO_64
  {
    if x >= 0 then x else x + TWO_64
  }

  /** Rust's `u64 as i64`: two's complement reinterpretation. */
  function U64AsI64(x: U64): (r: I64)
    ensures I64AsU64(r) == x
  {
    if x < TWO_63 then x else x - TWO_64
  }

  /** `i64 as u64` followed by `u64 as i64` gives back the i64. */
  lemma I64AsU64Inverse(x: I64)
    ensures U64AsI64(I64AsU64(x)) == x
  {
  }

  function Pow256(k: nat): (r: nat)
    ensures r > 0
  {
    if k == 0 then 1 else 256 * Pow256(k - 1)
  }

  lemma {:induction false} Pow256Add(a: nat, b: nat)
    ensures Pow256(a + b) == Pow256(a) * Pow256(b)
  {
    if a > 0 {
      Pow256Add(a - 1, b);
      assert Pow256(a + b) == 256 * Pow256(a - 1 + b);
    }
  }

  lemma Pow256Is2To256()
    ensures Pow256(32) == TWO_256
  {
    assert Pow256(4) == 0x1_0000_0000;
    Pow256Add(4, 4);
    Pow256Add(8, 8);
    Pow256Add(16, 16);
  }

  lemma {:induction false} Pow256Monotone(a: nat, b: nat)
    requires a <= b
    ensures Pow256(a) <= Pow256(b)
  {
    if a < b {
      Pow256Monotone(a, b - 1);
    }
  }

  /** The unsigned integer whose big-endian base-256 digits are `bs`. */
  function FromBytes(bs: seq<Byte>): nat
  {
    if bs == [] then 0 else bs[0] * Pow256(|bs| - 1) + FromBytes(bs[1..])
  }

  /** `k` big-endian bytes holding `w` modulo 256^k. */
  function ToBytes(w: nat, k: nat): (bs: seq<Byte>)
    ensures |bs| == k
  {
    if k == 0 then [] else [(w / Pow256(k - 1)) % 256] + ToBytes(w, k - 1)
  }

  /** An integer of `|bs|` big-endian bytes is below 256^|bs|. */
  lemma {:induction false} FromBytesBound(bs: seq<Byte>)
    ensures FromBytes(bs) < Pow256(|bs|)
  {
    if bs != [] {
      var p := Pow256(|bs| - 1);
      FromBytesBound(bs[1..]);
      MulMonotone(bs[0], 255, p);
      assert FromBytes(bs) < 255 * p + p;
    }
  }

  /** A non-zero leading byte puts the value at or above 256^(|bs|-1). */
  lemma FromBytesLeadingNonZero(bs: seq<Byte>)
    requires bs != [] && bs[0] != 0
    ensures FromBytes(bs) >= Pow256(|bs| - 1)
  {
    MulMonotone(1, bs[0], Pow256(|bs| - 1));
  }

  /** Leading zero bytes do not change the value. */
  lemma {:induction false} FromBytesDropZeros(bs: seq<Byte>, z: nat)
    requires z <= |bs|
    requires forall i :: 0 <= i < z ==> bs[i] == 0
    ensures FromBytes(bs) == FromBytes(bs[z..])
  {
    if z > 0 {
      assert bs[1..][z - 1..] == bs[z..];
      FromBytesDropZeros(bs[1..], z - 1);
    }
  }

  /** Division with remainder has a unique result. */
  lemma DivModUnique(a: int, m: int, q: int, r: int)
    requires m > 0 && 0 <= r < m && a == m * q + r
    ensures a / m == q && a % m == r
  {
    var q', r' := a / m, a % m;
    assert a == m * q' + r';
    assert m * (q - q') == r' - r;
    if q > q' {
      MulMonotone(1, q - q', m);
    } else if q < q' {
      MulMonotone(1, q' - q, m);
    }
  }

  lemma MulMonotone(a: nat, b: nat, p: nat)
    requires a <= b
    ensures a * p <= b * p
  {
  }

  /** Taking the `k - 1` low digits of `w` after its digit k - 1 is taking the `k` low digits. */
  lemma SplitLowDigits(w: nat, p: nat)
    requires p > 0
    ensures ((w / p) % 256) * p + w % p == w % (256 * p)
  {
    var q, r := w / p, w % p;
    var q2, r2 := q / 256, q % 256;
    assert w == p * q + r;
    assert q == 256 * q2 + r2;
    assert w == (256 * p) * q2 + (r2 * p + r) by {
      assert p * q == p * (256 * q2) + p * r2;
    }
    assert r2 * p + r < 256 * p by {
      MulMonotone(r2, 255, p);
    }
    DivModUnique(w, 256 * p, q2, r2 * p + r);
  }

  /** Decoding the `k` big-endian bytes of `w` gives back `w` modulo 256^k. */
  lemma {:induction false} FromToBytes(w: nat, k: nat)
    ensures FromBytes(ToBytes(w, k)) == w % Pow256(k)
  {
    if k > 0 {
      var bs := ToBytes(w, k);
      assert bs[1..] == ToBytes(w, k - 1);
      FromToBytes(w, k - 1);
      SplitLowDigits(w, Pow256(k - 1));
    }
  }

  /** The leading byte and the rest of a big-endian string are the quotient and
      remainder of its value by 256^(|bs|-1). */
  lemma {:induction false} FromBytesHead(bs: seq<Byte>)
    requires bs != []
    ensures FromBytes(bs) / Pow256(|bs| - 1) == bs[0]
    ensures FromBytes(bs) % Pow256(|bs| - 1) == FromBytes(bs[1..])
  {
    var p, rest := Pow256(|bs| - 1), FromBytes(bs[1..]);
    FromBytesBound(bs[1..]);
    assert FromBytes(bs) == p * bs[0] + rest;
    DivModUnique(FromBytes(bs), p, bs[0], rest);
  }

  /** Byte strings of one length with the same value are the same. */
  lemma {:induction false} FromBytesInjective(a: seq<Byte>, b: seq<Byte>)
    requires |a| == |b| && FromBytes(a) == FromBytes(b)
    ensures a == b
  {
    if a != [] {
      FromBytesHead(a);
      FromBytesHead(b);
      FromBytesInjective(a[1..], b[1..]);
      assert a == [a[0]] + a[1..] && b == [b[0]] + b[1..];
    }
  }

  /** Encoding the value of `bs` in `|bs|` bytes gives back `bs`. */
  lemma ToFromBytes(bs: seq<Byte>)
    ensures ToBytes(FromBytes(bs), |bs|) == bs
  {
    var w, k := FromBytes(bs), |bs|;
    FromBytesBound(bs);
    DivModUnique(w, Pow256(k), 0, w);
    FromToBytes(w, k);
    FromBytesInjective(ToBytes(FromBytes(bs), |bs|), bs);
  }

  /** The word held by at most 32 big-endian bytes, zero-extended on the left. */
  function WordOf(bs: seq<Byte>): (w: Word)
    requires |bs| <= 32
    ensures w < Pow256(|bs|)
  {
    FromBytesBound(bs);
    Pow256Monotone(|bs|, 32);
    Pow256Is2To256();
    FromBytes(bs)
  }

  /** The 32 big-endian bytes of a word. */
  function BytesOf(w: Word): (bs: seq<Byte>)
    ensures |bs| == 32 && WordOf(bs) == w
  {
    Pow256Is2To256();
    FromToBytes(w, 32);
    ToBytes(w, 32)
  }

  /** The `|bs|` low-order bytes of the word held by `bs` are `bs`. */
  lemma WordOfBytes(bs: seq<Byte>)
    requires |bs| <= 32
    ensures ToBytes(WordOf(bs), |bs|) == bs
  {
    ToFromBytes(bs);
  }
}

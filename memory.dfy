/** The conformance-test state's EVM memory (package `st` of the Go conformance tests):
    a byte buffer that grows on demand in 32-byte steps, zero-filled, with the
    quadratic expansion cost of Appendix H.1 of the Ethereum Yellow Paper. */
module St {
  import opened Words

  /** The contents of a Go byte slice: its length is a Go `int`, below 2^63. */
  type Bytes = s: seq<Byte> | |s| < 0x8000_0000_0000_0000 witness []

  /** A span rounded up to whole 32-byte words. */
  function RoundUp32(n: nat): (r: nat)
    ensures r % 32 == 0 && n <= r < n + 32
  {
    ((n + 31) / 32) * 32
  }

  /** The size memory has after growing from `before` bytes to hold `size` bytes at `offset`. */
  function GrownSize(before: nat, offset: nat, size: nat): (r: nat)
    ensures r >= before
    ensures size > 0 ==> r >= offset + size
  {
    if size == 0 || offset + size <= before then before else RoundUp32(offset + size)
  }

  /** `after` is `before` grown to hold `size` bytes at `offset`: every old byte is
      kept and only the appended tail is new, all zero. */
  ghost predicate Grown(before: seq<Byte>, after: seq<Byte>, offset: nat, size: nat)
  {
    |after| == GrownSize(|before|, offset, size) &&
    after[..|before|] == before &&
    forall i :: |before| <= i < |after| ==> after[i] == 0
  }

  /** The memory cost C_mem(s) = w*w/512 + 3*w, w = ceil(s/32), of Appendix H.1 of
      the Ethereum Yellow Paper, in exact integers. */
  function MemoryCost(s: nat): nat
  {
    var w := (s + 31) / 32;
    w * w / 512 + 3 * w
  }

  lemma SquareMonotone(a: nat, b: nat)
    requires a <= b
    ensures a * a <= b * b
  {
    MulMonotone(a, b, a);
    MulMonotone(a, b, b);
  }

  lemma MemoryCostMonotone(s1: nat, s2: nat)
    requires s1 <= s2
    ensures MemoryCost(s1) <= MemoryCost(s2)
  {
    SquareMonotone((s1 + 31) / 32, (s2 + 31) / 32);
  }

  /** Up to this span the word count stays below 2^32, so none of ExpansionCosts's
      uint64 sums and products wraps. */
  const MAX_NO_WRAP_SPAN: nat := 0x1F_FFFF_FFE0

  /** The cost function of ExpansionCosts, in Go's uint64 arithmetic. */
  function CalcMemoryCost(size: U64): U64
  {
    var w := Wrap64(size + 31) / 32;
    Wrap64(Wrap64(w * w) / 512 + Wrap64(3 * w))
  }

  lemma CalcMemoryCostExact(size: U64)
    requires size <= MAX_NO_WRAP_SPAN
    ensures CalcMemoryCost(size) == MemoryCost(size)
  {
    var w := (size + 31) / 32;
    assert w <= 0xFFFF_FFFF;
    SquareMonotone(w, 0xFFFF_FFFF);
    assert w * w < TWO_64;
  }

  datatype Costs = Costs(memCost: U64, offset: U64, size: U64)

  /** ExpansionCosts for a memory of `memSize` bytes: the Yellow Paper's marginal
      memory cost of touching `size` bytes at `offset`, computed in Go's uint64
      arithmetic, saturating at MaxUint64 when the span cannot be represented in
      64 bits; also the offset and size as uint64. */
  function SpanCosts(memSize: U64, offset: Word, size: Word): Costs
  {
    if size >= TWO_64 || (offset >= TWO_64 && size != 0) then Costs(MAX_U64, 0, 0)
    else
      var off := Wrap64(offset);
      if size == 0 then Costs(0, off, 0)
      else
        var newSize := Wrap64(off + size);
        if newSize <= memSize then Costs(0, off, size)
        else Costs(Wrap64(CalcMemoryCost(newSize) - CalcMemoryCost(memSize)), off, size)
  }

  /** One finding of Diff: the sizes differ, or the bytes at `offset` differ. */
  datatype Difference =
    | SizeMismatch(sizeA: nat, sizeB: nat)
    | ValueMismatch(offset: nat, valueA: Byte, valueB: Byte)

  class Memory {
    var mem: Bytes

    /** NewMemory: a memory holding exactly `data`. */
    constructor (data: Bytes)
      ensures mem == data
    {
      mem := data;
    }

    method Clone() returns (c: Memory)
      ensures fresh(c) && c.mem == mem
    {
      c := new Memory(mem);
    }

    function Size(): (n: nat)
      reads this
      ensures n == |mem| && n < TWO_63
    {
      |mem|
    }

    method Set(data: Bytes)
      modifies this
      ensures mem == data
    {
      mem := data;
    }

    method Append(data: seq<Byte>)
      requires |mem| + |data| < TWO_63
      modifies this
      ensures mem == old(mem) + data
    {
      mem := mem + data;
    }

    method Grow(offset: U64, size: U64)
      requires size == 0 || offset + size + 31 < TWO_63
      modifies this
      ensures Grown(old(mem), mem, offset, size)
      ensures |old(mem)| % 32 == 0 ==> |mem| % 32 == 0
      ensures ExpansionCosts(offset, size).memCost == 0
    {
      if size == 0 {
        return;
      }
      var newSize := offset + size;
      if newSize > |mem| {
        newSize := ((newSize + 31) / 32) * 32;
        mem := mem + seq(newSize - |mem|, _ => 0);
      }
      assert |mem| >= offset + size;
    }

    method Read(offset: U64, size: U64) returns (data: seq<Byte>)
      requires size == 0 || offset + size + 31 < TWO_63
      modifies this
      ensures size == 0 ==> data == [] && mem == old(mem)
      ensures size > 0 ==> Grown(old(mem), mem, offset, size) && data == mem[offset..offset + size]
    {
      if size == 0 {
        return [];
      }
      Grow(offset, size);
      data := mem[offset..offset + size];
    }

    method Write(data: seq<Byte>, offset: U64)
      requires |data| == 0 || offset + |data| + 31 < TWO_63
      modifies this
      ensures |data| == 0 ==> mem == old(mem)
      ensures |data| > 0 ==>
        |mem| == GrownSize(|old(mem)|, offset, |data|) &&
        mem[offset..offset + |data|] == data &&
        forall i :: 0 <= i < |mem| && !(offset <= i < offset + |data|) ==>
          mem[i] == if i < |old(mem)| then old(mem)[i] else 0
    {
      if |data| == 0 {
        return;
      }
      Grow(offset, |data|);
      mem := mem[..offset] + data + mem[offset + |data|..];
    }

    /** The marginal memory cost of touching `size` bytes at `offset`, with the
        offset and size as uint64. */
    function ExpansionCosts(offset: Word, size: Word): (r: Costs)
      reads this
      ensures r == SpanCosts(|mem|, offset, size)
    {
      SpanCosts(|mem|, offset, size)
    }

    /** The bytes Hash digests, after growing memory to hold them; the Keccak-256
        digest itself is not part of this model. */
    method HashInput(offset: U64, size: U64) returns (span: seq<Byte>)
      requires size == 0 || offset + size + 31 < TWO_63
      modifies this
      ensures Grown(old(mem), mem, offset, size)
      ensures span == if size > 0 then mem[offset..offset + size] else []
    {
      Grow(offset, size);
      span := [];
      if size > 0 {
        span := mem[offset..offset + size];
      }
    }

    function Eq(b: Memory): (r: bool)
      reads this, b
      ensures r <==> |mem| == |b.mem| && forall i :: 0 <= i < |mem| ==> mem[i] == b.mem[i]
    {
      mem == b.mem
    }

    method Diff(b: Memory) returns (res: seq<Difference>)
      ensures |mem| != |b.mem| ==> res == [SizeMismatch(|mem|, |b.mem|)]
      ensures |mem| == |b.mem| ==>
        (forall k :: 0 <= k < |res| ==>
          res[k].ValueMismatch? && res[k].offset < |mem| &&
          res[k].valueA == mem[res[k].offset] && res[k].valueB == b.mem[res[k].offset] &&
          res[k].valueA != res[k].valueB) &&
        (forall k, l :: 0 <= k < l < |res| ==> res[k].offset < res[l].offset) &&
        (forall i :: 0 <= i < |mem| && mem[i] != b.mem[i] ==>
          exists k :: 0 <= k < |res| && res[k].offset == i)
      ensures res == [] <==> Eq(b)
    {
      res := [];
      if |mem| != |b.mem| {
        res := res + [SizeMismatch(|mem|, |b.mem|)];
        return;
      }
      var i := 0;
      while i < |mem|
        invariant 0 <= i <= |mem|
        invariant forall k :: 0 <= k < |res| ==>
          res[k].ValueMismatch? && res[k].offset < i &&
          res[k].valueA == mem[res[k].offset] && res[k].valueB == b.mem[res[k].offset] &&
          res[k].valueA != res[k].valueB
        invariant forall k, l :: 0 <= k < l < |res| ==> res[k].offset < res[l].offset
        invariant forall j :: 0 <= j < i && mem[j] != b.mem[j] ==>
          exists k :: 0 <= k < |res| && res[k].offset == j
      {
        var aValue, bValue := mem[i], b.mem[i];
        ghost var prev := res;
        if aValue != bValue {
          res := res + [ValueMismatch(i, aValue, bValue)];
        }
        forall j | 0 <= j < i + 1 && mem[j] != b.mem[j]
          ensures exists k :: 0 <= k < |res| && res[k].offset == j
        {
          if j < i {
            var k :| 0 <= k < |prev| && prev[k].offset == j;
            assert res[k] == prev[k];
          } else {
            assert res[|res| - 1].offset == j;
          }
        }
        i := i + 1;
      }
      if res != [] {
        assert mem[res[0].offset] != b.mem[res[0].offset];
      }
    }
  }

  /** Writing `data` and reading the same span back returns `data`. */
  method WriteThenRead(m: Memory, data: seq<Byte>, offset: U64) returns (got: seq<Byte>)
    requires |data| == 0 || offset + |data| + 31 < TWO_63
    modifies m
    ensures got == data
  {
    m.Write(data, offset);
    got := m.Read(offset, |data|);
  }

  /** ExpansionCosts saturates to (MaxUint64, 0, 0) exactly when the size, or the
      offset of a non-empty span, does not fit in 64 bits. */
  lemma ExpansionCostsSaturation(memSize: U64, offset: Word, size: Word)
    ensures SpanCosts(memSize, offset, size) == Costs(MAX_U64, 0, 0)
        <==> size >= TWO_64 || (offset >= TWO_64 && size != 0)
  {
  }

  /** A zero-size span, at any 256-bit offset, or one memory already holds, costs
      nothing and hands back the offset's low 64 bits and the size. */
  lemma ExpansionCostsFree(memSize: U64, offset: Word, size: U64)
    requires size == 0 || offset + size <= memSize
    ensures SpanCosts(memSize, offset, size) == Costs(0, Wrap64(offset), size)
  {
  }

  /** Beyond the current size the cost is the difference of the Yellow Paper's
      C_mem at the new and at the current size, as long as no uint64 wraps. */
  lemma ExpansionCostsExact(memSize: U64, offset: U64, size: U64)
    requires 0 < size && memSize < offset + size <= MAX_NO_WRAP_SPAN
    ensures SpanCosts(memSize, offset, size).memCost == MemoryCost(offset + size) - MemoryCost(memSize)
    ensures SpanCosts(memSize, offset, size).offset == offset
    ensures SpanCosts(memSize, offset, size).size == size
  {
    assert Wrap64(offset) == offset && Wrap64(offset + size) == offset + size;
    CostDeltaExact(memSize, offset + size);
  }

  lemma CostDeltaExact(cur: U64, newSize: U64)
    requires cur <= newSize <= MAX_NO_WRAP_SPAN
    ensures Wrap64(CalcMemoryCost(newSize) - CalcMemoryCost(cur)) == MemoryCost(newSize) - MemoryCost(cur)
  {
    CalcMemoryCostExact(newSize);
    CalcMemoryCostExact(cur);
    MemoryCostMonotone(cur, newSize);
  }

  /** The cost never decreases as the end of the span moves up. */
  lemma ExpansionCostsMonotone(memSize: U64, offset1: U64, size1: U64, offset2: U64, size2: U64)
    requires 0 < size2 && offset1 + size1 <= offset2 + size2 <= MAX_NO_WRAP_SPAN
    ensures SpanCosts(memSize, offset1, size1).memCost <= SpanCosts(memSize, offset2, size2).memCost
  {
    if size1 > 0 && memSize < offset1 + size1 {
      ExpansionCostsExact(memSize, offset1, size1);
      ExpansionCostsExact(memSize, offset2, size2);
      MemoryCostMonotone(offset1 + size1, offset2 + size2);
    }
  }
}

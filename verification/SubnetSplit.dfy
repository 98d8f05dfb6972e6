/**
 * Splitting a server subnet between listeners (backend/openvpn/listeners.go), in
 * 32-bit arithmetic.
 */
module SubnetSplit {
  import opened Wrappers
  import opened Numbers

  const SPACE: nat := 0x1_0000_0000

  /** An IPv4 prefix as it was written: the host part of the address may be set. */
  datatype Prefix = Prefix(addr: nat, bits: nat) {
    predicate Valid() {
      addr < SPACE && bits <= 32
    }

    function Size(): nat
      requires bits <= 32
    {
      Pow2(32 - bits)
    }
  }

  lemma Pow2At32()
    ensures Pow2(32) == SPACE
  {
    assert Pow2(8) == 256;
    Pow2Adds(8, 8);
    Pow2Adds(16, 16);
  }

  /** How many bits it takes to write a number. */
  function Len(x: nat): nat {
    if x == 0 then 0 else 1 + Len(x / 2)
  }

  function BitsNeeded(n: int): nat {
    if n <= 1 then 0 else Len(n - 1)
  }

  lemma {:induction false} LenIsTight(x: nat)
    ensures x < Pow2(Len(x))
    ensures x > 0 ==> Pow2(Len(x) - 1) <= x
  {
    if x > 1 {
      LenIsTight(x / 2);
    }
  }

  /** The extra bits address every listener, and one bit less would not. */
  lemma BitsNeededIsLeast(n: int)
    requires n > 1
    ensures BitsNeeded(n) >= 1 && Pow2(BitsNeeded(n)) >= n > Pow2(BitsNeeded(n) - 1)
  {
    LenIsTight(n - 1);
  }

  /** `x` without its last `k` bits. */
  function Shift(x: nat, k: nat): nat {
    if k == 0 then x else Shift(x / 2, k - 1)
  }

  /** `x` with its last `k` bits cleared. */
  function ClearLow(x: nat, k: nat): nat {
    if k == 0 then x else 2 * ClearLow(x / 2, k - 1)
  }

  lemma {:induction false} ClearLowIs(x: nat, k: nat)
    ensures ClearLow(x, k) == Shift(x, k) * Pow2(k)
    ensures ClearLow(x, k) <= x < ClearLow(x, k) + Pow2(k)
  {
    if k > 0 {
      ClearLowIs(x / 2, k - 1);
    }
  }

  lemma {:induction false} ShiftBound(x: nat, k: nat, n: nat)
    requires x < Pow2(n + k)
    ensures Shift(x, k) < Pow2(n)
  {
    if k > 0 {
      ShiftBound(x / 2, k - 1, n);
    }
  }

  lemma {:induction false} MultipleIsClear(q: nat, k: nat)
    ensures ClearLow(q * Pow2(k), k) == q * Pow2(k)
  {
    if k > 0 {
      MultipleIsClear(q, k - 1);
      assert q * Pow2(k) == 2 * (q * Pow2(k - 1));
    }
  }

  function Masked(p: Prefix): nat
    requires p.Valid()
  {
    ClearLow(p.addr, 32 - p.bits)
  }

  /** Addition and multiplication as a 32-bit machine does them. */
  function Wrap(n: nat): nat {
    n % 0x1_0000_0000
  }

  function SplitSubnet(p: Prefix, index: nat, total: int): Result<Prefix>
    requires p.Valid()
  {
    if total <= 1 then Ok(p)
    else
      var newBits := p.bits + BitsNeeded(total);
      if newBits > 24 then Error
      else
        var blockSize := Wrap(Pow2(32 - newBits));
        Ok(Prefix(Wrap(Masked(p) + Wrap(blockSize * index)), newBits))
  }

  /** A product, where its factors do not matter. */
  function Times(a: nat, b: nat): nat {
    a * b
  }

  /** A prefix covers a range of the address space that starts at a multiple of its size. */
  lemma MaskedFits(p: Prefix)
    requires p.Valid()
    ensures Masked(p) == Times(Shift(p.addr, 32 - p.bits), p.Size())
    ensures Masked(p) + p.Size() <= SPACE
  {
    Pow2At32();
    Pow2Adds(p.bits, 32 - p.bits);
    ClearLowIs(p.addr, 32 - p.bits);
    ShiftBound(p.addr, 32 - p.bits, p.bits);
    Room(Shift(p.addr, 32 - p.bits), p.Size(), Pow2(p.bits));
  }

  /** Block `index` of `blocks` lies inside. */
  lemma Room(index: nat, size: nat, blocks: nat)
    requires index < blocks
    ensures Times(index, size) + size <= Times(blocks, size)
  {
    assert (index + 1) * size <= blocks * size;
  }

  /** The size of a block, and where block `index` starts on paper. */
  function BlockSize(p: Prefix, total: int): nat
    requires p.bits + BitsNeeded(total) <= 32
  {
    Pow2(32 - p.bits - BitsNeeded(total))
  }

  function BlockAddr(p: Prefix, index: nat, total: int): nat
    requires p.Valid() && p.bits + BitsNeeded(total) <= 32
  {
    Masked(p) + Times(index, BlockSize(p, total))
  }

  lemma NothingWraps(base: nat, size: nat, index: nat, whole: nat)
    requires Times(index, size) + size <= whole && size < SPACE && base + whole <= SPACE && size >= 1
    ensures Wrap(base + Wrap(Wrap(size) * index)) == base + Times(index, size)
  {
    var offset := Times(index, size);
    assert Wrap(size) == size && size * index == offset;
  }

  lemma BlocksFill(p: Prefix, total: int)
    requires p.Valid() && total > 1 && p.bits + BitsNeeded(total) <= 32
    ensures Times(Pow2(BitsNeeded(total)), BlockSize(p, total)) == p.Size() && BlockSize(p, total) < SPACE
  {
    Pow2Adds(BitsNeeded(total), 32 - p.bits - BitsNeeded(total));
    BitsNeededIsLeast(total);
    Room(1, BlockSize(p, total), Pow2(BitsNeeded(total)));
    MaskedFits(p);
    hide Pow2, BitsNeeded, Masked;
  }

  lemma BlockInside(p: Prefix, index: nat, total: int)
    requires p.Valid() && total > 1 && index < total && p.bits + BitsNeeded(total) <= 32
    ensures Times(index, BlockSize(p, total)) + BlockSize(p, total) <= p.Size()
  {
    BlocksFill(p, total);
    BitsNeededIsLeast(total);
    Room(index, BlockSize(p, total), Pow2(BitsNeeded(total)));
  }

  /** The 32-bit arithmetic finds the block where it is on paper. */
  lemma BlockStart(p: Prefix, index: nat, total: int)
    requires p.Valid() && total > 1 && index < total && p.bits + BitsNeeded(total) <= 24
    ensures SplitSubnet(p, index, total) == Ok(Prefix(BlockAddr(p, index, total), p.bits + BitsNeeded(total)))
  {
    hide Pow2, BitsNeeded, Masked, Times, Wrap;
    BlocksFill(p, total);
    BlockInside(p, index, total);
    MaskedEnds(p);
    NothingWraps(Masked(p), BlockSize(p, total), index, p.Size());
  }

  lemma BlockAligned(p: Prefix, index: nat, total: int)
    requires p.Valid() && total > 1 && p.bits + BitsNeeded(total) <= 32
    ensures ClearLow(BlockAddr(p, index, total), 32 - p.bits - BitsNeeded(total)) == BlockAddr(p, index, total)
  {
    hide BitsNeeded, Masked, Shift, ClearLow, Times, Pow2;
    MaskedFits(p);
    BlocksFill(p, total);
    MultipleAligned(Masked(p), Shift(p.addr, 32 - p.bits), Pow2(BitsNeeded(total)), 32 - p.bits - BitsNeeded(total), index, p.Size());
  }

  lemma MultipleAligned(base: nat, q: nat, blocks: nat, host: nat, index: nat, whole: nat)
    requires whole == Times(blocks, Pow2(host)) && base == Times(q, whole)
    ensures ClearLow(base + Times(index, Pow2(host)), host) == base + Times(index, Pow2(host))
  {
    Regroup(q, blocks, index, Pow2(host));
    MultipleIsClear(q * blocks + index, host);
  }

  lemma Regroup(q: nat, blocks: nat, index: nat, size: nat)
    ensures q * (blocks * size) + index * size == (q * blocks + index) * size
  {
  }

  lemma {:induction false} Pow2Monotone(a: nat, b: nat)
    requires a <= b
    ensures Pow2(a) <= Pow2(b)
  {
    if a < b {
      Pow2Monotone(a, b - 1);
    }
  }

  /** The bits for a number are no more than `k` exactly if the number is within its power of two. */
  lemma BitsWithin(n: int, k: nat)
    requires n > 1
    ensures BitsNeeded(n) <= k <==> n <= Pow2(k)
  {
    BitsNeededIsLeast(n);
    hide BitsNeeded;
    if BitsNeeded(n) <= k {
      Pow2Monotone(BitsNeeded(n), k);
    } else {
      Pow2Monotone(k, BitsNeeded(n) - 1);
    }
  }

  lemma AcceptedByBits(p: Prefix, index: nat, total: int)
    requires p.Valid()
    ensures SplitSubnet(p, index, total).Ok? <==> total <= 1 || p.bits + BitsNeeded(total) <= 24
    ensures total <= 1 ==> SplitSubnet(p, index, total) == Ok(p)
  {
  }

  /** One listener gets the subnet as it was written; more are refused exactly when they would get less than 256 addresses each. */
  lemma AcceptedWhen(p: Prefix, index: nat, total: int)
    requires p.Valid()
    ensures SplitSubnet(p, index, total).Ok? <==> total <= 1 || 256 * total <= p.Size()
    ensures total <= 1 ==> SplitSubnet(p, index, total) == Ok(p)
  {
    assert Pow2(8) == 256;
    hide SplitSubnet, BitsNeeded, Pow2, Masked;
    AcceptedByBits(p, index, total);
    if total > 1 && p.bits <= 24 {
      BitsWithin(total, 24 - p.bits);
      Pow2Adds(8, 24 - p.bits);
    } else if total > 1 {
      Pow2Monotone(32 - p.bits, 8);
    }
  }

  /**
   * Every block of an accepted split is aligned to its size and lies inside the
   * parent, and two different blocks do not meet.
   */
  lemma {:induction false} BlocksPartition(p: Prefix, total: int, i: nat, j: nat)
    requires p.Valid() && total > 1 && i < j < total && SplitSubnet(p, i, total).Ok?
    ensures SplitSubnet(p, j, total).Ok?
    ensures var a, b := SplitSubnet(p, i, total).value, SplitSubnet(p, j, total).value;
            && a.Valid() && b.Valid() && a.bits == b.bits == p.bits + BitsNeeded(total) <= 24
            && Masked(a) == a.addr && Masked(b) == b.addr
            && Masked(p) <= a.addr && a.addr + a.Size() <= b.addr && b.addr + b.Size() <= Masked(p) + p.Size() <= SPACE
  {
    AcceptedByBits(p, i, total);
    hide SplitSubnet, Pow2, BitsNeeded, Shift, ClearLow, BlockAddr;
    BlockStart(p, i, total);
    BlockStart(p, j, total);
    BlockAligned(p, i, total);
    BlockAligned(p, j, total);
    BlocksOnPaper(p, total, i, j);
  }

  lemma BlocksOnPaper(p: Prefix, total: int, i: nat, j: nat)
    requires p.Valid() && total > 1 && i < j < total && p.bits + BitsNeeded(total) <= 24
    ensures var a, b, size := BlockAddr(p, i, total), BlockAddr(p, j, total), BlockSize(p, total);
            Masked(p) <= a && a + size <= b && b + size <= Masked(p) + p.Size() <= SPACE && size >= 1
  {
    BlockInside(p, j, total);
    MaskedEnds(p);
    hide Pow2, BitsNeeded, Masked, Times;
    OneAfterAnother(Masked(p), BlockSize(p, total), i, j, p.Size());
  }

  lemma OneAfterAnother(base: nat, size: nat, i: nat, j: nat, whole: nat)
    requires i < j && Times(j, size) + size <= whole
    ensures base <= base + Times(i, size)
    ensures base + Times(i, size) + size <= base + Times(j, size)
    ensures base + Times(j, size) + size <= base + whole
  {
    Room(i, size, j);
  }

  lemma MaskedEnds(p: Prefix)
    requires p.Valid()
    ensures Masked(p) + p.Size() <= SPACE
  {
    MaskedFits(p);
  }
}

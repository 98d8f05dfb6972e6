/**
 * The address range handed to xl2tpd (backend/l2tp/serverconf.go), computed on
 * 4-byte arrays with carries.
 */
module PoolRange {
  import opened Numbers
  import opened SubnetSplit

  /** The number four bytes stand for. */
  function Value(s: seq<Byte>): nat
    requires |s| == 4
  {
    256 * (256 * (256 * (s[0] as int) + s[1] as int) + s[2] as int) + s[3] as int
  }

  lemma ValueBound(s: seq<Byte>)
    requires |s| == 4
    ensures Value(s) < SPACE
  {
  }

  /** `b` is `a` with byte `i` one up and everything behind it rolled over. */
  ghost predicate Carried(a: seq<Byte>, b: seq<Byte>, i: int) {
    && |a| == |b| == 4 && -1 <= i < 4
    && (forall k :: 0 <= k < i ==> a[k] == b[k])
    && (i >= 0 ==> b[i] as int == a[i] as int + 1)
    && (forall k :: i < k < 4 ==> a[k] == 255 && b[k] == 0)
  }

  lemma CarryAddsOne(a: seq<Byte>, b: seq<Byte>, i: int)
    requires Carried(a, b, i)
    ensures if i < 0 then Value(a) == SPACE - 1 && Value(b) == 0 else Value(b) == Value(a) + 1
  {
    if i == 3 {
    } else if i == 2 {
      assert a[3] == 255 && b[3] == 0;
    } else if i == 1 {
      assert a[2] == 255 && b[2] == 0 && a[3] == 255 && b[3] == 0;
    } else {
      assert a[1] == 255 && b[1] == 0 && a[2] == 255 && b[2] == 0 && a[3] == 255 && b[3] == 0;
    }
  }

  lemma CarryWraps(a: seq<Byte>, b: seq<Byte>, i: int)
    requires Carried(a, b, i)
    ensures Value(b) == Wrap(Value(a) + 1) && Value(a) == Wrap(Value(b) + SPACE - 1)
  {
    CarryAddsOne(a, b, i);
    ValueBound(a);
    ValueBound(b);
    hide Value;
  }

  /** One more, all the way round. */
  method Inc(ip: array<Byte>)
    requires ip.Length == 4
    modifies ip
    ensures Value(ip[..]) == Wrap(Value(old(ip[..])) + 1)
  {
    hide Value;
    var i := 3;
    while i >= 0
      invariant -1 <= i <= 3
      invariant forall k :: 0 <= k <= i ==> ip[k] == old(ip[k])
      invariant forall k :: i < k < 4 ==> ip[k] == 0 && old(ip[k]) == 255
    {
      ip[i] := (ip[i] as int + 1) % 256;
      if ip[i] != 0 {
        break;
      }
      i := i - 1;
    }
    CarryWraps(old(ip[..]), ip[..], i);
  }

  /** One less, all the way round. */
  method Dec(ip: array<Byte>)
    requires ip.Length == 4
    modifies ip
    ensures Value(ip[..]) == Wrap(Value(old(ip[..])) + SPACE - 1)
  {
    hide Value;
    var i := 3;
    while i >= 0
      invariant -1 <= i <= 3
      invariant forall k :: 0 <= k <= i ==> ip[k] == old(ip[k])
      invariant forall k :: i < k < 4 ==> ip[k] == 255 && old(ip[k]) == 0
    {
      if ip[i] != 0 {
        ip[i] := ip[i] - 1;
        break;
      }
      ip[i] := 255;
      i := i - 1;
    }
    CarryWraps(ip[..], old(ip[..]), i);
  }

  /** The order of the bytes is the order of the numbers. */
  method BytesCompare(a: array<Byte>, b: array<Byte>) returns (r: int)
    requires a.Length == b.Length == 4
    ensures r == if Value(a[..]) < Value(b[..]) then -1 else if Value(a[..]) > Value(b[..]) then 1 else 0
  {
    for i := 0 to 4
      invariant forall k :: 0 <= k < i ==> a[k] == b[k]
    {
      if a[i] != b[i] {
        if a[i] < b[i] {
          return -1;
        }
        return 1;
      }
    }
    return 0;
  }

  // ------------------------------------------------------------------- masking

  /** How many of byte `i`'s bits belong to the host part of a prefix. */
  function HostBits(bits: nat, i: nat): nat
    requires bits <= 32 && i < 4
  {
    if bits >= 8 * i + 8 then 0 else if bits <= 8 * i then 8 else 8 * i + 8 - bits
  }

  /** A byte with its host bits cleared, and with its host bits set. */
  function Low(b: Byte, host: nat): (r: Byte)
    requires host <= 8
  {
    ClearLowIs(b, host);
    ClearLow(b, host)
  }

  function High(b: Byte, host: nat): (r: Byte)
    requires host <= 8
  {
    HighFits(b, host);
    ClearLow(b, host) + Pow2(host) - 1
  }

  lemma HighFits(b: Byte, host: nat)
    requires host <= 8
    ensures ClearLow(b, host) + Pow2(host) - 1 < 256
  {
    assert Pow2(8) == 256;
    Pow2Adds(8 - host, host);
    ClearLowIs(b, host);
    ShiftBound(b, host, 8 - host);
    Room(Shift(b, host), Pow2(host), Pow2(8 - host));
  }

  lemma {:induction false} ClearAlongside(x: nat, b: nat, h: nat)
    requires ClearLow(x, h) == x
    ensures ClearLow(x + b, h) == x + ClearLow(b, h)
  {
    if h > 0 {
      ClearAlongside(x / 2, b / 2, h - 1);
    }
  }

  lemma {:induction false} ClearFewer(x: nat, h: nat, g: nat)
    requires ClearLow(x, h) == x && g <= h
    ensures ClearLow(x, g) == x
  {
    if g > 0 {
      ClearFewer(x / 2, h - 1, g - 1);
    }
  }

  lemma ClearTwoBits(x: nat, h: nat)
    requires h >= 2
    ensures ClearLow(x, h) == 4 * ClearLow(x / 4, h - 2)
  {
    assert ClearLow(x / 2, h - 1) == 2 * ClearLow(x / 4, h - 2);
  }

  lemma ClearEightBits(x: nat, h: nat)
    requires h >= 8
    ensures ClearLow(x, h) == 256 * ClearLow(x / 256, h - 8)
  {
    hide ClearLow;
    ClearTwoBits(x, h);
    ClearTwoBits(x / 4, h - 2);
    assert x / 4 / 4 == x / 16;
    ClearTwoBits(x / 16, h - 4);
    assert x / 16 / 4 == x / 64;
    ClearTwoBits(x / 64, h - 6);
    assert x / 64 / 4 == x / 256;
  }

  /** Clearing bits of a byte and of what is in front of it. */
  lemma ClearBytes(m: nat, b: Byte, h: nat)
    ensures ClearLow(256 * m + b as int, h) == if h <= 8 then 256 * m + ClearLow(b, h) else 256 * ClearLow(m, h - 8)
  {
    if h <= 8 {
      ClearEightBits(256 * m, 8);
      ClearFewer(256 * m, 8, h);
      ClearAlongside(256 * m, b, h);
    } else {
      ClearEightBits(256 * m + b as int, h);
    }
  }

  lemma ClearAll(b: Byte)
    ensures ClearLow(b, 8) == 0 && ClearLow(b, 0) == b
  {
    ClearEightBits(b, 8);
  }

  function Network(s: seq<Byte>, bits: nat): (r: seq<Byte>)
    requires |s| == 4 && bits <= 32
    ensures |r| == 4
  {
    [Low(s[0], HostBits(bits, 0)), Low(s[1], HostBits(bits, 1)), Low(s[2], HostBits(bits, 2)), Low(s[3], HostBits(bits, 3))]
  }

  function Broadcast(s: seq<Byte>, bits: nat): (r: seq<Byte>)
    requires |s| == 4 && bits <= 32
    ensures |r| == 4
  {
    [High(s[0], HostBits(bits, 0)), High(s[1], HostBits(bits, 1)), High(s[2], HostBits(bits, 2)), High(s[3], HostBits(bits, 3))]
  }

  /** Masking byte by byte is masking the number. */
  lemma NetworkValue(s: seq<Byte>, bits: nat)
    requires |s| == 4 && bits <= 32
    ensures Value(Network(s, bits)) == ClearLow(Value(s), 32 - bits)
  {
    hide ClearLow, Pow2;
    LowBytes(s, bits);
    hide Low, HostBits;
    var h := 32 - bits;
    var top: int, high: int := s[0] as int, 256 * (s[0] as int) + s[1] as int;
    ClearBytes(256 * high + s[2] as int, s[3], h);
    if h > 8 {
      ClearBytes(high, s[2], h - 8);
      if h > 16 {
        ClearBytes(top, s[1], h - 16);
      }
    }
  }

  /** Which byte the prefix ends in decides what is left of the others. */
  lemma LowBytes(s: seq<Byte>, bits: nat)
    requires |s| == 4 && bits <= 32
    ensures var n, h := Network(s, bits), 32 - bits;
            && n[3] == (if h <= 8 then ClearLow(s[3], h) else 0)
            && n[2] == (if h <= 8 then s[2] else if h <= 16 then ClearLow(s[2], h - 8) else 0)
            && n[1] == (if h <= 16 then s[1] else if h <= 24 then ClearLow(s[1], h - 16) else 0)
            && n[0] == (if h <= 24 then s[0] else ClearLow(s[0], h - 24))
  {
    hide ClearLow, Pow2;
    ClearAll(s[0]);
    ClearAll(s[1]);
    ClearAll(s[2]);
    ClearAll(s[3]);
  }

  lemma Pow2Byte(j: nat)
    ensures Pow2(8 + j) == 256 * Pow2(j)
  {
    assert Pow2(8) == 256;
    Pow2Adds(8, j);
  }

  lemma BroadcastValue(s: seq<Byte>, bits: nat)
    requires |s| == 4 && bits <= 32
    ensures Value(Broadcast(s, bits)) == Value(Network(s, bits)) + Pow2(32 - bits) - 1
  {
    hide ClearLow, Pow2, Low, High, HostBits, Network, Broadcast, Value;
    HighBytes(s, bits);
    BytesApart(Network(s, bits), Broadcast(s, bits));
    var h := 32 - bits;
    if h > 8 {
      Pow2Byte(h - 8);
      if h > 16 {
        Pow2Byte(h - 16);
        if h > 24 {
          Pow2Byte(h - 24);
        }
      }
    }
  }

  lemma BytesApart(a: seq<Byte>, b: seq<Byte>)
    requires |a| == |b| == 4
    ensures Value(b) - Value(a)
         == 256 * (256 * (256 * (b[0] as int - a[0] as int) + (b[1] as int - a[1] as int)) + (b[2] as int - a[2] as int))
            + (b[3] as int - a[3] as int)
  {
  }

  lemma SmallPowers()
    ensures Pow2(0) == 1 && Pow2(8) == 256
  {
  }

  lemma HighBytes(s: seq<Byte>, bits: nat)
    requires |s| == 4 && bits <= 32
    ensures var n, b, h := Network(s, bits), Broadcast(s, bits), 32 - bits;
            && b[3] as int - n[3] as int == (if h <= 8 then Pow2(h) - 1 else 255)
            && b[2] as int - n[2] as int == (if h <= 8 then 0 else if h <= 16 then Pow2(h - 8) - 1 else 255)
            && b[1] as int - n[1] as int == (if h <= 16 then 0 else if h <= 24 then Pow2(h - 16) - 1 else 255)
            && b[0] as int - n[0] as int == (if h <= 24 then 0 else Pow2(h - 24) - 1)
  {
    hide ClearLow, Pow2;
    SmallPowers();
  }

  // ------------------------------------------------------------------ the range

  /** Nothing but the server's own address, or a range of others. */
  datatype Range = LocalOnly | Range(start: seq<Byte>, end: seq<Byte>)

  /** Network + 2 and broadcast - 1, as four bytes compute them. */
  function StartOf(pool: Prefix): nat
    requires pool.Valid()
  {
    Wrap(Masked(pool) + 2)
  }

  function EndOf(pool: Prefix): nat
    requires pool.Valid()
  {
    Wrap(Masked(pool) + pool.Size() + SPACE - 2)
  }

  method ComputePoolRange(bytes: seq<Byte>, bits: nat) returns (r: Range)
    requires |bytes| == 4 && bits <= 32
    ensures Value(bytes) < SPACE
    ensures var pool := Prefix(Value(bytes), bits);
            && (r.LocalOnly? <==> StartOf(pool) > EndOf(pool))
            && (r.Range? ==> |r.start| == |r.end| == 4 && Value(r.start) == StartOf(pool) && Value(r.end) == EndOf(pool))
  {
    hide Network, Broadcast, Value, StartOf, EndOf, Wrap, ClearLow, Pow2, Masked;
    ValueBound(bytes);
    var network, bcast := MaskBytes(bytes, bits);
    var start := Dup4(network);
    var end := Dup4(bcast);
    Inc(start);
    Inc(start);
    Dec(end);
    EdgesAre(bytes, bits);
    var order := BytesCompare(start, end);
    if order > 0 {
      return LocalOnly;
    }
    return Range(start[..], end[..]);
  }

  lemma EdgesAre(bytes: seq<Byte>, bits: nat)
    requires |bytes| == 4 && bits <= 32 && Value(bytes) < SPACE
    ensures var pool := Prefix(Value(bytes), bits);
            && Wrap(Wrap(Value(Network(bytes, bits)) + 1) + 1) == StartOf(pool)
            && Wrap(Value(Broadcast(bytes, bits)) + SPACE - 1) == EndOf(pool)
  {
    hide Network, Broadcast, Value, ClearLow, Pow2, Wrap;
    NetworkValue(bytes, bits);
    BroadcastValue(bytes, bits);
    OneAndOne(Value(Network(bytes, bits)));
  }

  lemma OneAndOne(n: nat)
    ensures Wrap(Wrap(n + 1) + 1) == Wrap(n + 2)
  {
  }

  method MaskBytes(pool: seq<Byte>, bits: nat) returns (network: array<Byte>, bcast: array<Byte>)
    requires |pool| == 4 && bits <= 32
    ensures network.Length == bcast.Length == 4 && network[..] == Network(pool, bits) && bcast[..] == Broadcast(pool, bits)
  {
    network, bcast := new Byte[4], new Byte[4];
    for i := 0 to 4
      invariant forall k :: 0 <= k < i ==> network[k] == Low(pool[k], HostBits(bits, k)) && bcast[k] == High(pool[k], HostBits(bits, k))
    {
      network[i] := Low(pool[i], HostBits(bits, i));
      bcast[i] := High(pool[i], HostBits(bits, i));
    }
  }

  method Dup4(ip: array<Byte>) returns (out: array<Byte>)
    requires ip.Length == 4
    ensures fresh(out) && out.Length == 4 && out[..] == ip[..]
  {
    out := new Byte[4];
    for i := 0 to 4
      invariant forall k :: 0 <= k < i ==> out[k] == ip[k]
    {
      out[i] := ip[i];
    }
  }

  /**
   * Up to a /30 the range is exactly network + 2 to broadcast - 1: not empty, and
   * inside the pool.
   */
  lemma RangeUpTo30(pool: Prefix)
    requires pool.Valid() && pool.bits <= 30
    ensures StartOf(pool) == Masked(pool) + 2 && EndOf(pool) == Masked(pool) + pool.Size() - 2
    ensures StartOf(pool) <= EndOf(pool) < SPACE
  {
    MaskedEnds(pool);
    Pow2Adds(30 - pool.bits, 2);
    assert Pow2(2) == 4;
    hide Masked;
  }

  /**
   * Beyond that there is no room, and the arithmetic finds a range all the same
   * exactly where it wraps around: at the top of the address space, and for the
   * very first address.
   */
  lemma RangeBeyond30(pool: Prefix)
    requires pool.Valid() && pool.bits > 30
    ensures StartOf(pool) <= EndOf(pool)
       <==> || (pool.bits == 31 && Masked(pool) == SPACE - 2)
            || (pool.bits == 32 && Masked(pool) in {0, SPACE - 2, SPACE - 1})
  {
    MaskedEnds(pool);
    EvenMasked(pool);
    assert pool.bits == 31 ==> pool.Size() == 2;
    assert pool.bits == 32 ==> pool.Size() == 1;
    hide Masked, Pow2;
    WrapsWhere(Masked(pool), pool.Size());
  }

  lemma WrapsWhere(n: nat, size: nat)
    requires 1 <= size <= 2 && n + size <= SPACE && (size == 2 ==> n % 2 == 0)
    ensures Wrap(n + 2) <= Wrap(n + size + SPACE - 2)
       <==> n == SPACE - 2 || (size == 1 && (n == 0 || n == SPACE - 1))
  {
    if n >= SPACE - 2 {
      assert Wrap(n + 2) == n + 2 - SPACE;
    } else {
      assert Wrap(n + 2) == n + 2;
    }
  }

  lemma EvenMasked(pool: Prefix)
    requires pool.Valid()
    ensures pool.bits == 31 ==> Masked(pool) % 2 == 0
  {
    if pool.bits == 31 {
      assert ClearLow(pool.addr, 1) == 2 * ClearLow(pool.addr / 2, 0);
    }
  }

  /** The last address of all, as a pool of one, is given nearly the whole address space. */
  lemma LastAddressWraps()
    ensures var pool := Prefix(SPACE - 1, 32);
            pool.Valid() && StartOf(pool) == 1 && EndOf(pool) == SPACE - 2
  {
    var pool := Prefix(SPACE - 1, 32);
    assert Masked(pool) == SPACE - 1 && pool.Size() == 1;
  }
}

/** Which blocks a request for bytes moves to the front, with the machine's integer widths. */
module BlockRange {
  const MAX_INT64 := 0x7fff_ffff_ffff_ffff
  const TWO_TO_THE_64 := 0x1_0000_0000_0000_0000
  const MAX_INT32 := 0x7fff_ffff
  const MAX_UINT32 := 0xffff_ffff

  function Uint64(x: int): (r: int)
    ensures 0 <= r < TWO_TO_THE_64
  {
    x % TWO_TO_THE_64
  }

  function Int64(x: int): (r: int)
    ensures -MAX_INT64 - 1 <= r <= MAX_INT64
  {
    var u := Uint64(x);
    if u > MAX_INT64 then u - TWO_TO_THE_64 else u
  }

  /** Signed division rounds toward zero. */
  function Quotient(a: int, b: int): int
    requires b > 0
  {
    if a >= 0 then a / b else -((-a) / b)
  }

  function EndOffset(size: int, offset: int, length: int): int {
    var end := Uint64(Int64(offset + length));
    if end > Uint64(size) then Uint64(size) else end
  }

  function StartBlock(blockSize: int, offset: int): int
    requires blockSize > 0
  {
    Int64(Quotient(offset, blockSize))
  }

  function EndBlock(size: int, blockSize: int, offset: int, length: int): int
    requires blockSize > 0
  {
    Int64(Int64(Uint64(EndOffset(size, offset, length) - 1) / blockSize) + 1)
  }

  function TotalBlocks(size: int, blockSize: int): int
    requires blockSize > 0
  {
    Quotient(Int64(Int64(size + blockSize) - 1), blockSize)
  }

  predicate IsDevice(size: int, blockSize: int) { 1 <= size <= MAX_INT64 && 1 <= blockSize <= MAX_UINT32 }

  predicate IsRequest(size: int, offset: int, length: int) { 0 <= offset < size && 1 <= length <= MAX_INT32 }

  /** Block `b` holds a byte that was asked for. */
  ghost predicate Holds(size: int, blockSize: int, offset: int, length: int, b: int) {
    exists x :: offset <= x < offset + length && x < size && IsIn(blockSize, b, x)
  }

  predicate IsIn(blockSize: int, b: int, x: int) { b * blockSize <= x < (b + 1) * blockSize }

  lemma {:induction false} BlockOf(x: int, blockSize: int, b: int)
    requires blockSize > 0
    ensures b <= x / blockSize <==> b * blockSize <= x
    ensures x / blockSize <= b <==> x < (b + 1) * blockSize
  {
    var q, r := x / blockSize, x % blockSize;
    assert x == q * blockSize + r;
    if b <= q {
      Times(b, q, blockSize);
    } else {
      Times(q + 1, b, blockSize);
    }
    if q <= b {
      Times(q + 1, b + 1, blockSize);
    } else {
      Times(b + 1, q, blockSize);
    }
  }

  lemma {:induction false} Times(a: int, b: int, c: int)
    requires a <= b && c > 0
    ensures a * c <= b * c
  {
  }

  /** The clamped end is right even where the addition overflows. */
  lemma {:induction false} EndIsClamped(size: int, offset: int, length: int)
    requires 1 <= size <= MAX_INT64 && IsRequest(size, offset, length)
    ensures EndOffset(size, offset, length) == if offset + length < size then offset + length else size
  {
  }

  lemma {:induction false} Small(x: int)
    requires 0 <= x <= MAX_INT64
    ensures Uint64(x) == Int64(x) == x
  {
  }

  lemma {:induction false} QuotientFits(x: int, blockSize: int)
    requires 0 <= x < MAX_INT64 && blockSize > 0
    ensures 0 <= x / blockSize < MAX_INT64
    ensures Int64(x / blockSize) == x / blockSize && Int64(x / blockSize + 1) == x / blockSize + 1
    ensures Quotient(x, blockSize) == x / blockSize && Uint64(x) == x
  {
    hide Int64, Uint64;
    BlockOf(x, blockSize, 0);
    BlockOf(x, blockSize, MAX_INT64);
    Times(1, blockSize, MAX_INT64);
    Small(x);
    Small(x / blockSize);
    Small(x / blockSize + 1);
  }

  lemma {:induction false} Bounds(size: int, blockSize: int, offset: int, length: int)
    requires IsDevice(size, blockSize) && IsRequest(size, offset, length)
    ensures StartBlock(blockSize, offset) == offset / blockSize
    ensures var last := (if offset + length < size then offset + length else size) - 1;
      EndBlock(size, blockSize, offset, length) == last / blockSize + 1
  {
    hide Int64, Uint64, Quotient, EndOffset;
    EndIsClamped(size, offset, length);
    var last := (if offset + length < size then offset + length else size) - 1;
    QuotientFits(offset, blockSize);
    QuotientFits(last, blockSize);
    assert EndOffset(size, offset, length) - 1 == last;
  }

  lemma {:induction false} SharesByte(lo: int, hi: int, blockSize: int, b: int)
    requires lo <= hi && blockSize > 0
    ensures (exists x :: lo <= x <= hi && IsIn(blockSize, b, x)) <==> b * blockSize <= hi && lo < (b + 1) * blockSize
  {
    assert (b + 1) * blockSize == b * blockSize + blockSize;
    if b * blockSize <= hi && lo < (b + 1) * blockSize {
      var x := if lo <= b * blockSize then b * blockSize else lo;
      assert lo <= x <= hi && IsIn(blockSize, b, x);
    }
  }

  /** The blocks from `StartBlock` up to `EndBlock` are exactly those that hold a requested byte of the
      device. */
  lemma {:induction false} RangeExactly(size: int, blockSize: int, offset: int, length: int, b: int)
    requires IsDevice(size, blockSize) && IsRequest(size, offset, length)
    ensures StartBlock(blockSize, offset) <= b < EndBlock(size, blockSize, offset, length)
       <==> Holds(size, blockSize, offset, length, b)
  {
    hide StartBlock, EndBlock;
    var last := (if offset + length < size then offset + length else size) - 1;
    Bounds(size, blockSize, offset, length);
    BlockOf(offset, blockSize, b);
    BlockOf(last, blockSize, b);
    SharesByte(offset, last, blockSize, b);
    assert forall x {:trigger IsIn(blockSize, b, x)} :: offset <= x <= last <==> offset <= x < offset + length && x < size;
  }

  /** All of them exist on the device for every request exactly when the block count does not overflow. */
  lemma {:induction false} WithinTotalExactly(size: int, blockSize: int)
    requires IsDevice(size, blockSize)
    ensures (forall offset, length, b :: IsRequest(size, offset, length) && Holds(size, blockSize, offset, length, b)
               ==> 0 <= b < TotalBlocks(size, blockSize))
       <==> size + blockSize - 1 <= MAX_INT64
  {
    if size + blockSize - 1 <= MAX_INT64 {
      assert TotalBlocks(size, blockSize) == (size + blockSize - 1) / blockSize;
      forall offset, length, b | IsRequest(size, offset, length) && Holds(size, blockSize, offset, length, b)
        ensures 0 <= b < TotalBlocks(size, blockSize)
      {
        var x :| offset <= x < offset + length && x < size && IsIn(blockSize, b, x);
        InTotal(size, blockSize, b, x);
      }
    } else {
      OverflowedTotal(size, blockSize);
      var b := (size - 1) / blockSize;
      BlockOf(size - 1, blockSize, b);
      assert IsIn(blockSize, b, size - 1);
      assert IsRequest(size, size - 1, 1) && Holds(size, blockSize, size - 1, 1, b);
      BlockOf(size - 1, blockSize, 0);
    }
  }

  lemma {:induction false} InTotal(size: int, blockSize: int, b: int, x: int)
    requires IsDevice(size, blockSize) && 0 <= x < size && IsIn(blockSize, b, x)
    ensures 0 <= b < (size + blockSize - 1) / blockSize
  {
    assert (b + 1) * blockSize == b * blockSize + blockSize;
    BlockOf(size + blockSize - 1, blockSize, b + 1);
    if b < 0 { Times(b + 1, 0, blockSize); }
  }

  lemma {:induction false} OverflowWraps(size: int, blockSize: int)
    requires IsDevice(size, blockSize) && size + blockSize - 1 > MAX_INT64
    ensures Int64(Int64(size + blockSize) - 1) < 0
  {
  }

  lemma {:induction false} OverflowedTotal(size: int, blockSize: int)
    requires IsDevice(size, blockSize) && size + blockSize - 1 > MAX_INT64
    ensures TotalBlocks(size, blockSize) <= 0
  {
    hide Int64;
    OverflowWraps(size, blockSize);
    BlockOf(-Int64(Int64(size + blockSize) - 1), blockSize, 0);
  }

  /** At the start of the device the subtraction wraps, and nothing is moved only if blocks are of one or
      two bytes. */
  lemma {:induction false} EmptyAtStart(size: int, blockSize: int)
    requires IsDevice(size, blockSize)
    ensures StartBlock(blockSize, 0) == 0 && (EndBlock(size, blockSize, 0, 0) <= 0 <==> blockSize <= 2)
  {
    hide Int64;
    var last := TWO_TO_THE_64 - 1;
    assert EndOffset(size, 0, 0) == 0 by { Small(0); Small(size); }
    Small(0);
    BlockOf(0, blockSize, 0);
    assert Uint64(-1) == last;
    if blockSize == 1 {
      assert Int64(Int64(last) + 1) == 0 by { WrapsToZero(); }
    } else {
      BlockOf(last, blockSize, 1);
      BlockOf(last, blockSize, MAX_INT64);
      BlockOf(last, blockSize, MAX_INT64 - 1);
      Times(2, blockSize, MAX_INT64 + 1);
      if blockSize > 2 { Times(3, blockSize, MAX_INT64); }
      QuotientOfAll(last / blockSize);
    }
  }

  lemma {:induction false} WrapsToZero()
    ensures Int64(Int64(TWO_TO_THE_64 - 1) + 1) == 0
  {
  }

  lemma {:induction false} QuotientOfAll(q: int)
    requires 1 <= q <= MAX_INT64
    ensures Int64(Int64(q) + 1) > 0 <==> q < MAX_INT64
  {
  }

  /** A request for no bytes, inside the device but not at its start, moves no block exactly when it
      starts at the beginning of a block. */
  lemma {:induction false} EmptyRequestExactly(size: int, blockSize: int, offset: int)
    requires IsDevice(size, blockSize) && 0 < offset < size
    ensures StartBlock(blockSize, offset) >= EndBlock(size, blockSize, offset, 0) <==> offset % blockSize == 0
  {
    EmptyBounds(size, blockSize, offset);
    hide StartBlock, EndBlock;
    BlockStart(offset, blockSize);
  }

  lemma {:induction false} EmptyBounds(size: int, blockSize: int, offset: int)
    requires IsDevice(size, blockSize) && 0 < offset < size
    ensures StartBlock(blockSize, offset) == offset / blockSize
    ensures EndBlock(size, blockSize, offset, 0) == (offset - 1) / blockSize + 1
  {
    hide Int64, Uint64, Quotient, EndOffset;
    EmptyEnd(size, offset);
    QuotientFits(offset, blockSize);
    QuotientFits(offset - 1, blockSize);
  }

  lemma {:induction false} EmptyEnd(size: int, offset: int)
    requires 0 <= offset < size <= MAX_INT64
    ensures EndOffset(size, offset, 0) == offset
  {
  }

  lemma {:induction false} BlockStart(x: int, blockSize: int)
    requires blockSize > 0
    ensures x / blockSize >= (x - 1) / blockSize + 1 <==> x % blockSize == 0
  {
    var q := x / blockSize;
    BlockOf(x - 1, blockSize, q - 1);
    assert x == q * blockSize + x % blockSize;
  }

  /** The handler of NeedAt: the blocks that it prioritises, in order. */
  method NeedAt(size: int, blockSize: int, offset: int, length: int) returns (prioritised: seq<int>)
    requires IsDevice(size, blockSize) && IsRequest(size, offset, length)
    ensures forall b :: b in prioritised <==> Holds(size, blockSize, offset, length, b)
    ensures forall j, k :: 0 <= j < k < |prioritised| ==> prioritised[j] < prioritised[k]
  {
    var endOffset := Uint64(Int64(offset + length));
    if endOffset > Uint64(size) {
      endOffset := Uint64(size);
    }
    var startBlock := Int64(Quotient(offset, blockSize));
    var endBlock := Int64(Int64(Uint64(endOffset - 1) / blockSize) + 1);
    prioritised := [];
    var b := startBlock;
    while b < endBlock
      invariant startBlock <= b && (prioritised != [] ==> b <= endBlock)
      invariant |prioritised| == b - startBlock
      invariant forall k :: 0 <= k < |prioritised| ==> prioritised[k] == startBlock + k
      decreases endBlock - b
    {
      prioritised := prioritised + [b];
      b := b + 1;
    }
    forall b ensures b in prioritised <==> Holds(size, blockSize, offset, length, b) {
      RangeExactly(size, blockSize, offset, length, b);
      if startBlock <= b < endBlock { assert prioritised[b - startBlock] == b; }
    }
  }
}

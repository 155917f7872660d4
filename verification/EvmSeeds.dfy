/** The address of a storage cell: `StorageCellAddress::make_seed` packs 28 of the 32 bytes of the cell's index into a
    32-byte seed of 7-bit characters. Bytes are numbers here: `& 0x7F` is the remainder by 128, and
    `(b & 0x80) >> (1 + i)` is the top bit times 2^(6 - i). The seven terms of an overflow byte have no bit in common,
    so `|=` adds them. */
module EvmSeeds {
  import opened Base
  import opened Bytes
  import opened EvmAccounts

  const SEED_BYTES := 28

  function Low(b: u8): u8 { b % 128 }
  function Top(b: u8): u8 { b / 128 }

  function Weight(i: int): u8
    requires 0 <= i < 7
  {
    match i case 0 => 64 case 1 => 32 case 2 => 16 case 3 => 8 case 4 => 4 case 5 => 2 case _ => 1
  }

  /** The top bits of the first `n` of seven bytes, from bit 6 down. */
  function Gathered(b: seq<u8>, n: int): (r: int)
    requires |b| == 7 && 0 <= n <= 7
    ensures 0 <= r <= 128 - (if n == 7 then 1 else Weight(n) * 2)
  {
    if n == 0 then 0 else Gathered(b, n - 1) + Top(b[n - 1]) * Weight(n - 1)
  }

  function Overflowed(b: seq<u8>): u8
    requires |b| == 7
  {
    Gathered(b, 7)
  }

  function Seed(b: seq<u8>): (r: seq<u8>)
    requires |b| == SEED_BYTES
    ensures |r| == 32
  {
    seq(SEED_BYTES, i requires 0 <= i < |b| => Low(b[i]))
    + [Overflowed(b[..7]), Overflowed(b[7..14]), Overflowed(b[14..21]), Overflowed(b[21..])]
  }

  /** One of the four overflow loops. */
  method Overflow(b: seq<u8>) returns (r: u8)
    requires |b| == 7
    ensures r == Overflowed(b)
  {
    r := 0;
    for i := 0 to 7
      invariant r == Gathered(b, i)
    {
      r := r + Top(b[i]) * Weight(i);
    }
  }

  method MakeSeed(b: seq<u8>) returns (buffer: seq<u8>)
    requires |b| == SEED_BYTES
    ensures buffer == Seed(b)
  {
    buffer := [];
    for i := 0 to SEED_BYTES
      invariant |buffer| == i && forall n :: 0 <= n < i ==> buffer[n] == Low(b[n])
    {
      buffer := buffer + [Low(b[i])];
    }
    var g0 := Overflow(b[..7]);
    var g1 := Overflow(b[7..14]);
    var g2 := Overflow(b[14..21]);
    var g3 := Overflow(b[21..]);
    buffer := buffer + [g0, g1, g2, g3];
  }

  // ---- seeds are text, and lose nothing ----

  /** Every byte of a seed is below 0x80, so the seed is valid UTF-8 as it stands. */
  lemma SeedIsText(b: seq<u8>, i: nat)
    requires |b| == SEED_BYTES && i < 32
    ensures Seed(b)[i] < 0x80
  {
    if i < SEED_BYTES { assert Seed(b)[i] == Low(b[i]); }
  }

  lemma GatheredSum(b: seq<u8>)
    requires |b| == 7
    ensures Overflowed(b) == 64 * Top(b[0]) + 32 * Top(b[1]) + 16 * Top(b[2]) + 8 * Top(b[3]) + 4 * Top(b[4])
                             + 2 * Top(b[5]) + Top(b[6])
  {
    assert Gathered(b, 2) == Gathered(b, 1) + 32 * Top(b[1]) && Gathered(b, 1) == 64 * Top(b[0]);
    assert Gathered(b, 4) == Gathered(b, 3) + 8 * Top(b[3]) && Gathered(b, 3) == Gathered(b, 2) + 16 * Top(b[2]);
    assert Gathered(b, 6) == Gathered(b, 5) + 2 * Top(b[5]) && Gathered(b, 5) == Gathered(b, 4) + 4 * Top(b[4]);
  }

  lemma OverflowInjective(x: seq<u8>, y: seq<u8>)
    requires |x| == |y| == 7 && Overflowed(x) == Overflowed(y)
    ensures forall i :: 0 <= i < 7 ==> Top(x[i]) == Top(y[i])
  {
    GatheredSum(x);
    GatheredSum(y);
    BitsInjective(Top(x[0]), Top(x[1]), Top(x[2]), Top(x[3]), Top(x[4]), Top(x[5]), Top(x[6]),
                  Top(y[0]), Top(y[1]), Top(y[2]), Top(y[3]), Top(y[4]), Top(y[5]), Top(y[6]));
  }

  type bit = x: int | 0 <= x <= 1

  lemma BitsInjective(a0: bit, a1: bit, a2: bit, a3: bit, a4: bit, a5: bit, a6: bit,
                      b0: bit, b1: bit, b2: bit, b3: bit, b4: bit, b5: bit, b6: bit)
    requires 64 * a0 + 32 * a1 + 16 * a2 + 8 * a3 + 4 * a4 + 2 * a5 + a6 ==
             64 * b0 + 32 * b1 + 16 * b2 + 8 * b3 + 4 * b4 + 2 * b5 + b6
    ensures a0 == b0 && a1 == b1 && a2 == b2 && a3 == b3 && a4 == b4 && a5 == b5 && a6 == b6
  {}

  /** Different 28-byte indices have different seeds. */
  lemma SeedInjective(x: seq<u8>, y: seq<u8>)
    requires |x| == |y| == SEED_BYTES && Seed(x) == Seed(y)
    ensures x == y
  {
    forall i | 0 <= i < SEED_BYTES ensures x[i] == y[i] {
      assert Seed(x)[i] == Low(x[i]) && Seed(y)[i] == Low(y[i]);
      GroupInjective(x, y, i / 7, i % 7);
    }
  }

  function Group(b: seq<u8>, g: int): (r: seq<u8>)
    requires |b| == SEED_BYTES && 0 <= g < 4
    ensures |r| == 7
  {
    b[7 * g..7 * g + 7]
  }

  lemma SeedGroup(b: seq<u8>, g: int)
    requires |b| == SEED_BYTES && 0 <= g < 4
    ensures Seed(b)[28 + g] == Overflowed(Group(b, g))
  {
    assert b[..7] == Group(b, 0) && b[7..14] == Group(b, 1) && b[14..21] == Group(b, 2) && b[21..] == Group(b, 3);
  }

  lemma GroupInjective(x: seq<u8>, y: seq<u8>, g: int, i: int)
    requires |x| == |y| == SEED_BYTES && Seed(x) == Seed(y) && 0 <= g < 4 && 0 <= i < 7
    ensures Top(x[7 * g + i]) == Top(y[7 * g + i])
  {
    SeedGroup(x, g);
    SeedGroup(y, g);
    OverflowInjective(Group(x, g), Group(y, g));
    assert Top(Group(x, g)[i]) == Top(Group(y, g)[i]);
  }

  // ---- from an index to its seed ----

  lemma PowCells()
    ensures Pow256(SEED_BYTES) == CELL_COUNT
  {
    Pow8();
    PowAdd(8, 8);
    PowAdd(16, 8);
    Pow2();
    PowAdd(2, 2);
    PowAdd(24, 4);
  }

  /** The bytes of an index that enter its seed. */
  function SeedInput(index: Word): (r: seq<u8>)
    ensures |r| == SEED_BYTES
  {
    BigEndian(index - index % 256, 32)[3..31]
  }

  function SeedFor(index: Word): seq<u8> { Seed(SeedInput(index)) }

  lemma LowestBytes(c: nat)
    ensures BigEndian(c, 31)[3..] == BigEndian(c % CELL_COUNT, SEED_BYTES)
  {
    PowCells();
    assert c == CELL_COUNT * (c / CELL_COUNT) + c % CELL_COUNT;
    DropLeading(c / CELL_COUNT, c % CELL_COUNT, 31, 3);
  }

  /** They spell the cell number: the lowest byte is cleared and the three highest are left out. */
  lemma SeedInputIsCell(index: Word)
    ensures SeedInput(index) == BigEndian((index / 256) % CELL_COUNT, SEED_BYTES)
  {
    var n := index - index % 256;
    assert n / 256 == index / 256;
    assert BigEndian(n, 32) == BigEndian(n / 256, 31) + [n % 256];
    assert BigEndian(n, 32)[3..31] == BigEndian(n / 256, 31)[3..];
    LowestBytes(index / 256);
  }

  /** Two dynamic indices have the same cell address exactly when they have the same cell number: the key of a cell in
      the model is the cell number because nothing else of the index survives, and nothing of it is lost. */
  lemma SeedsIdentifyCells(i: Word, j: Word)
    requires i >= STATIC_SLOTS && j >= STATIC_SLOTS
    ensures SeedFor(i) == SeedFor(j) <==> SlotOf(i).cell == SlotOf(j).cell
  {
    SeedInputIsCell(i);
    SeedInputIsCell(j);
    if SeedFor(i) == SeedFor(j) {
      SeedInjective(SeedInput(i), SeedInput(j));
      PowCells();
      BigEndianInjective(SlotOf(i).cell, SlotOf(j).cell, SEED_BYTES);
    }
  }
}

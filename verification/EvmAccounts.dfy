/** The EVM-side accounts the emulator keeps: balance accounts, contract accounts, storage cells, and the shapes the
    node can answer with, legacy ones included. */
module EvmAccounts {
  import opened Base

  type u32 = x: int | 0 <= x <= 0xFFFF_FFFF

  const WORD_MAX: int := 0xFFFF_FFFF_FFFF_FFFF_FFFF_FFFF_FFFF_FFFF_FFFF_FFFF_FFFF_FFFF_FFFF_FFFF_FFFF_FFFF
  const CELL_COUNT: int := 0x1_0000_0000_0000_0000_0000_0000_0000_0000_0000_0000_0000_0000_0000_0000

  /** The number of a storage cell, as far as its address keeps it. */
  type CellNumber = x: int |
    0 <= x < 0x1_0000_0000_0000_0000_0000_0000_0000_0000_0000_0000_0000_0000_0000_0000

  type Word = x: int |
    0 <= x <= 0xFFFF_FFFF_FFFF_FFFF_FFFF_FFFF_FFFF_FFFF_FFFF_FFFF_FFFF_FFFF_FFFF_FFFF_FFFF_FFFF
  type Address = x: int | 0 <= x <= 0xFFFF_FFFF_FFFF_FFFF_FFFF_FFFF_FFFF_FFFF_FFFF_FFFF

  const STATIC_SLOTS := 64
  type Statics = s: seq<Word> | |s| == STATIC_SLOTS witness seq(STATIC_SLOTS, _ => 0)

  function NoStatics(): Statics {
    seq(STATIC_SLOTS, _ => 0)
  }

  datatype Wallet = Wallet(nonce: u64, balance: Word)
  const NO_WALLET := Wallet(0, 0)

  datatype SubCell = SubCell(subindex: u8, value: Word)

  /** What an account holds, as far as the emulator reads it. `Empty` is an unallocated system account. */
  datatype Content =
    | Empty
    | Balance(wallet: Wallet)
    | Contract(chainId: u64, generation: u32, code: seq<u8>, statics: Statics)
    | Cell(cells: seq<SubCell>)
    | Alien

  datatype Entry = Entry(lamports: u64, len: nat, content: Content)
  const NO_ENTRY := Entry(0, 0, Empty)

  /** What the node answers with. The deprecated forms are converted when they are loaded. */
  datatype Body =
    | Current(content: Content)
    | LegacyEther(wallet: Wallet, generation: u32, code: seq<u8>, statics: Statics)
    | LegacyCell(generation: u32, cells: seq<SubCell>)
    | TagEmpty
    | OtherTag

  datatype RpcAccount = RpcAccount(lamports: u64, len: nat, body: Body)

  /** Derived addresses, by what they are derived from: distinct keys are distinct addresses. */
  datatype Key =
    | BalanceKey(address: Address, chainId: u64)
    | ContractKey(address: Address)
    | CellKey(address: Address, cell: CellNumber)
    | OtherKey(pubkey: Pubkey)

  const BALANCE_LEN := 106
  const CONTRACT_LEN := 2094
  const CELL_LEN := 6
  const SUBCELL_LEN := 33

  // ---- storage slots ----

  datatype Slot = Static(i: nat) | Dynamic(cell: CellNumber, subindex: u8)

  /** Where index `i` lives: the first 64 in the contract account, the rest in cells of 256 whose address keeps
      224 bits of the cell number. */
  function SlotOf(index: Word): Slot {
    if index < STATIC_SLOTS then Static(index) else Dynamic((index / 256) % CELL_COUNT, index % 256)
  }

  /** The first entry of a cell with the wanted subindex, zero without one. */
  function Lookup(cells: seq<SubCell>, subindex: u8): Word {
    if cells == [] then 0
    else if cells[0].subindex == subindex then cells[0].value
    else Lookup(cells[1..], subindex)
  }

  /** No entry shows: every subindex reads as zero. */
  predicate Hollow(cells: seq<SubCell>) {
    forall j: u8 :: Lookup(cells, j) == 0
  }

  /** `StorageCell::update`: overwrite the first match, or append a non-zero value. */
  function Updated(cells: seq<SubCell>, subindex: u8, value: Word): (r: seq<SubCell>)
    ensures |cells| <= |r| <= |cells| + 1
  {
    if cells == [] then
      if value == 0 then [] else [SubCell(subindex, value)]
    else if cells[0].subindex == subindex then [SubCell(subindex, value)] + cells[1..]
    else [cells[0]] + Updated(cells[1..], subindex, value)
  }

  /** A cell behaves as a table from subindexes to values. */
  lemma {:induction false} UpdatedLookup(cells: seq<SubCell>, subindex: u8, value: Word, other: u8)
    ensures Lookup(Updated(cells, subindex, value), other) ==
            if other == subindex then value else Lookup(cells, other)
  {
    if cells != [] && cells[0].subindex != subindex {
      UpdatedLookup(cells[1..], subindex, value, other);
      assert Updated(cells, subindex, value)[1..] == Updated(cells[1..], subindex, value);
    } else if cells != [] {
      assert Updated(cells, subindex, value)[1..] == cells[1..];
    }
  }

  lemma {:induction false} LookupSkips(cells: seq<SubCell>, n: nat, subindex: u8)
    requires n <= |cells| && forall j :: 0 <= j < n ==> cells[j].subindex != subindex
    ensures Lookup(cells, subindex) == Lookup(cells[n..], subindex)
  {
    if n == 0 {
      assert cells[0..] == cells;
    } else {
      assert cells[1..][n - 1..] == cells[n..];
      LookupSkips(cells[1..], n - 1, subindex);
    }
  }

  lemma {:induction false} UpdatedSkips(cells: seq<SubCell>, n: nat, subindex: u8, value: Word)
    requires n <= |cells| && forall j :: 0 <= j < n ==> cells[j].subindex != subindex
    ensures Updated(cells, subindex, value) == cells[..n] + Updated(cells[n..], subindex, value)
  {
    if n == 0 {
      assert cells[0..] == cells;
    } else {
      assert cells[1..][n - 1..] == cells[n..] && [cells[0]] + cells[1..][..n - 1] == cells[..n];
      UpdatedSkips(cells[1..], n - 1, subindex, value);
    }
  }

  /** The search loop of `StorageCell::get`. */
  method GetSubCell(cells: seq<SubCell>, subindex: u8) returns (value: Word)
    ensures value == Lookup(cells, subindex)
  {
    for n := 0 to |cells|
      invariant forall j :: 0 <= j < n ==> cells[j].subindex != subindex
    {
      if cells[n].subindex == subindex {
        LookupSkips(cells, n, subindex);
        return cells[n].value;
      }
    }
    LookupSkips(cells, |cells|, subindex);
    return 0;
  }

  /** The search loop of `StorageCell::update`, then the append. */
  method UpdateSubCell(cells: seq<SubCell>, subindex: u8, value: Word) returns (r: seq<SubCell>)
    ensures r == Updated(cells, subindex, value)
  {
    for n := 0 to |cells|
      invariant forall j :: 0 <= j < n ==> cells[j].subindex != subindex
    {
      if cells[n].subindex == subindex {
        UpdatedSkips(cells, n, subindex, value);
        return cells[n := SubCell(subindex, value)];
      }
    }
    UpdatedSkips(cells, |cells|, subindex, value);
    r := cells;
    if value != 0 { r := r + [SubCell(subindex, value)]; }
  }

  /** Two indices share a slot exactly when they are equal, or both dynamic and equal modulo 2^232: the three top
      bytes of an index are not part of the cell address. */
  lemma SlotsShared(i: Word, j: Word)
    ensures SlotOf(i) == SlotOf(j) <==>
            i == j || (i >= STATIC_SLOTS && j >= STATIC_SLOTS && i % (CELL_COUNT * 256) == j % (CELL_COUNT * 256))
  {
    SlotSplit(i);
    SlotSplit(j);
  }

  lemma SlotSplit(i: Word)
    ensures i % (CELL_COUNT * 256) == (i / 256) % CELL_COUNT * 256 + i % 256
  {
    var q := i / 256;
    var top := q / CELL_COUNT;
    assert i == 256 * q + i % 256 && q == CELL_COUNT * top + q % CELL_COUNT;
    assert i == (CELL_COUNT * 256) * top + (q % CELL_COUNT * 256 + i % 256);
  }
}

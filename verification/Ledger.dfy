/** The slots the runtime keeps and the two rules it enforces on every program. */
module Ledger {
  import opened Base
  import opened TokenState
  import MapSums

  /** What a slot's bytes unpack to. `Blank` is a zeroed base, possibly with extensions already written. */
  datatype Data =
    | Blank(pending: Pending)
    | MintData(mint: Mint, mintExt: MintExt)
    | AccountData(account: Account, accountExt: AccountExt)
    | MultisigData(multisig: Multisig)
    | Opaque

  datatype Pending = NoExtension | ForMint(mintExt: MintExt) | ForAccount(accountExt: AccountExt)

  datatype Slot = Slot(lamports: u64, owner: Pubkey, len: nat, data: Data)

  type State = map<Pubkey, Slot>

  const EMPTY_SLOT := Slot(0, SYSTEM_PROGRAM, 0, Blank(NoExtension))

  function Get(s: State, k: Pubkey): Slot {
    if k in s then s[k] else EMPTY_SLOT
  }

  function Put(s: State, k: Pubkey, slot: Slot): State {
    s[k := slot]
  }

  predicate Live(slot: Slot) { slot.owner == TOKEN_PROGRAM }
  predicate LiveAccount(slot: Slot) { Live(slot) && slot.data.AccountData? }
  predicate LiveMint(slot: Slot) { Live(slot) && slot.data.MintData? }

  datatype Error =
    | NotRentExempt | AlreadyInUse | InvalidAccountData | InvalidMint | InvalidState | InvalidArgument
    | MintCannotFreeze | FixedSupply | MintMismatch | OwnerMismatch | Overflow | InsufficientFunds
    | AccountFrozen | NonTransferable | NonTransferableNeedsImmutableOwnership | ImmutableOwner
    | MintDecimalsMismatch | MintRequiredForTransfer | FeeMismatch | NativeNotSupported | NonNativeNotSupported
    | NonNativeHasBalance | MintHasSupply | AuthorityTypeNotSupported | NoAuthorityExists | InvalidInstruction
    | InvalidNumberOfProvidedSigners | InvalidNumberOfRequiredSigners | MissingRequiredSignature
    | CpiGuardTransferBlocked | CpiGuardApproveBlocked | CpiGuardBurnBlocked | CpiGuardCloseAccountBlocked
    | CpiGuardSetAuthorityBlocked | CpiGuardOwnerChangeBlocked | CpiGuardSettingsLocked
    | NoMemo | ExtensionBaseMismatch | ExtensionNotFound | TransferFeeExceedsMaximum
    | AccountHasWithheldTransferFees | IncorrectProgramId | UninitializedAccount | AccountBorrowFailed
    | AccountAlreadyInUse | ExternalAccountModified | InvalidSeeds | IllegalOwner | InvalidOwner | Panic

  /** What the runtime tells a handler: the rent table, the clock and the call stack. */
  datatype Env = Env(rent: nat -> u64, epoch: u64, inCpi: bool, memo: bool)

  /** An account handed to an instruction, with its signature flag. */
  datatype Info = Info(key: Pubkey, isSigner: bool)

  /** Only the owner of a slot may change its bytes, its owner or take lamports from it. */
  predicate SlotChangeAllowed(before: Slot, after: Slot) {
    before.owner == TOKEN_PROGRAM
    || (after.owner == before.owner && after.len == before.len && after.data == before.data
        && after.lamports >= before.lamports)
  }

  predicate RuntimeAccepts(before: State, after: State) {
    forall k :: k in before || k in after ==> SlotChangeAllowed(Get(before, k), Get(after, k))
  }

  // ---- sums over the slots ----

  ghost function Lamports(s: State): map<Pubkey, int> {
    map k | k in s :: s[k].lamports
  }

  ghost function TotalLamports(s: State): int {
    MapSums.Sum(Lamports(s))
  }

  /** Tokens of mint `m` a slot accounts for: its balance and the fee withheld in it. */
  function Weight(slot: Slot, m: Pubkey): int {
    if LiveAccount(slot) && slot.data.account.mint == m then
      slot.data.account.amount + Withheld(slot.data.accountExt)
    else 0
  }

  function Withheld(e: AccountExt): u64 {
    if e.withheld.Some? then e.withheld.value else 0
  }

  ghost function Weights(s: State, m: Pubkey): map<Pubkey, int> {
    map k | k in s :: Weight(s[k], m)
  }

  /** Tokens of mint `m` held by live accounts. */
  ghost function Held(s: State, m: Pubkey): int {
    MapSums.Sum(Weights(s, m))
  }

  /** Tokens a mint slot says are out: its supply less the fees already harvested into it. */
  function IssuedBy(slot: Slot): int {
    if LiveMint(slot) then slot.data.mint.supply - MintWithheld(slot.data.mintExt) else 0
  }

  function MintWithheld(e: MintExt): u64 {
    if e.fee.Some? then e.fee.value.withheld else 0
  }

  function Issued(s: State, m: Pubkey): int {
    IssuedBy(Get(s, m))
  }

  lemma TotalPut(s: State, k: Pubkey, slot: Slot)
    ensures TotalLamports(Put(s, k, slot)) == TotalLamports(s) - Get(s, k).lamports + slot.lamports
  {
    assert Lamports(Put(s, k, slot)) == Lamports(s)[k := slot.lamports];
    MapSums.Update(Lamports(s), k, slot.lamports);
  }

  lemma HeldPut(s: State, k: Pubkey, slot: Slot, m: Pubkey)
    ensures Held(Put(s, k, slot), m) == Held(s, m) - Weight(Get(s, k), m) + Weight(slot, m)
  {
    assert Weights(Put(s, k, slot), m) == Weights(s, m)[k := Weight(slot, m)];
    MapSums.Update(Weights(s, m), k, Weight(slot, m));
  }

  lemma HeldBounds(s: State, k: Pubkey, m: Pubkey)
    ensures 0 <= Weight(Get(s, k), m) <= Held(s, m)
  {
    MapSums.NonNegative(Weights(s, m));
    if k in s { MapSums.Bound(Weights(s, m), k); }
  }

  lemma HeldBoundsPair(s: State, k: Pubkey, l: Pubkey, m: Pubkey)
    requires k != l
    ensures Weight(Get(s, k), m) + Weight(Get(s, l), m) <= Held(s, m)
  {
    HeldBounds(s, k, m);
    HeldBounds(s, l, m);
    if k in s && l in s { MapSums.BoundPair(Weights(s, m), k, l); }
  }

  lemma TotalBoundsPair(s: State, k: Pubkey, l: Pubkey)
    requires k != l
    ensures Get(s, k).lamports + Get(s, l).lamports <= TotalLamports(s)
  {
    MapSums.NonNegative(Lamports(s));
    if k in s { MapSums.Bound(Lamports(s), k); }
    if l in s { MapSums.Bound(Lamports(s), l); }
    if k in s && l in s { MapSums.BoundPair(Lamports(s), k, l); }
  }
}

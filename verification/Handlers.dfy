/** The instruction handlers of `processor.rs` as functions from the slots before to the slots after.
    Checks stand in the source's order; an `Err` leaves the slots as they were. */
module Handlers {
  import opened Base
  import opened TokenState
  import opened TransferFees
  import opened Ledger
  import opened Authority

  /** The mint account and decimals that the "checked" variants carry. */
  datatype Checked = Checked(mint: Pubkey, decimals: u8)

  datatype Instruction =
    | InitializeMint(mint: Pubkey, decimals: u8, mintAuthority: Pubkey, freezeAuthority: Option<Pubkey>)
    | InitializeAccount(account: Pubkey, mint: Pubkey, owner: Pubkey)
    | InitializeMultisig(multisig: Pubkey, m: u8, signerKeys: seq<Pubkey>)
    | Transfer(source: Pubkey, checked: Option<Checked>, destination: Pubkey, authority: Info, signers: seq<Info>,
               amount: u64, expectedFee: Option<u64>)
    | Approve(source: Pubkey, checked: Option<Checked>, delegate: Pubkey, authority: Info, signers: seq<Info>,
              amount: u64)
    | Revoke(source: Pubkey, authority: Info, signers: seq<Info>)
    | SetAuthority(target: Pubkey, authority: Info, signers: seq<Info>, kind: AuthorityType,
                   newAuthority: Option<Pubkey>)
    | MintTo(mint: Pubkey, destination: Pubkey, authority: Info, signers: seq<Info>, amount: u64,
             expectedDecimals: Option<u8>)
    | Burn(source: Pubkey, mint: Pubkey, authority: Info, signers: seq<Info>, amount: u64,
           expectedDecimals: Option<u8>)
    | CloseAccount(source: Pubkey, destination: Pubkey, authority: Info, signers: seq<Info>)
    | ToggleFreeze(source: Pubkey, mint: Pubkey, authority: Info, signers: seq<Info>, freeze: bool)
    | SyncNative(account: Pubkey)
    | WithdrawExcessLamports(source: Pubkey, destination: Pubkey, authority: Info, signers: seq<Info>)
    | CreateNativeMint(payer: Info)
    | InitializeMintExtension(mint: Pubkey, extension: MintExtension)
    | InitializeImmutableOwner(account: Pubkey)
    | UpdateDefaultState(mint: Pubkey, authority: Info, signers: seq<Info>, state: AccountState)
    | SetTransferFee(mint: Pubkey, authority: Info, signers: seq<Info>, basisPoints: u16, maximumFee: u64)
    | WithdrawWithheldFromMint(mint: Pubkey, destination: Pubkey, authority: Info, signers: seq<Info>)
    | HarvestToMint(mint: Pubkey, sources: seq<Pubkey>)
    | WithdrawWithheldFromAccounts(mint: Pubkey, destination: Pubkey, authority: Info, signers: seq<Info>,
                                   sources: seq<Pubkey>)
    | ToggleCpiGuard(account: Pubkey, authority: Info, signers: seq<Info>, enable: bool)
    | ToggleMemo(account: Pubkey, authority: Info, signers: seq<Info>, enable: bool)
    | Reallocate(account: Pubkey, payer: Info, authority: Info, signers: seq<Info>, requested: seq<ExtensionKind>)

  /** The extensions that must be written into a mint before it is initialised. */
  datatype MintExtension =
    | WithCloseAuthority(closeAuthority: Option<Pubkey>)
    | WithNonTransferable
    | WithPermanentDelegate(delegate: Pubkey)
    | WithTransferFee(configAuthority: Option<Pubkey>, withdrawAuthority: Option<Pubkey>, basisPoints: u16,
                      maximumFee: u64)
    | WithDefaultState(state: AccountState)

  // ---- unpacking ----

  function UnpackAccount(slot: Slot): Result<Account, Error> {
    if slot.data.AccountData? then Ok(slot.data.account) else Err(InvalidAccountData)
  }

  function UnpackMint(slot: Slot): Result<Mint, Error> {
    if slot.data.MintData? then Ok(slot.data.mint) else Err(InvalidAccountData)
  }

  /** `unpack_uninitialized::<Mint>`: the extensions written so far. */
  function UnpackBlankMint(slot: Slot): Result<MintExt, Error> {
    if slot.data.MintData? then Err(AlreadyInUse)
    else if !slot.data.Blank? || !BaseLenOk(slot.len, MINT_LEN) then Err(InvalidAccountData)
    else match slot.data.pending
      case NoExtension => Ok(NO_MINT_EXT)
      case ForMint(e) => Ok(e)
      case ForAccount(_) => Err(ExtensionBaseMismatch)
  }

  /** `unpack_uninitialized::<Account>`. */
  function UnpackBlankAccount(slot: Slot): Result<AccountExt, Error> {
    if slot.data.AccountData? then Err(AlreadyInUse)
    else if !slot.data.Blank? || !BaseLenOk(slot.len, ACCOUNT_LEN) then Err(InvalidAccountData)
    else match slot.data.pending
      case NoExtension => Ok(NO_ACCOUNT_EXT)
      case ForAccount(e) => Ok(e)
      case ForMint(_) => Err(ExtensionBaseMismatch)
  }

  /** `OptionalNonZeroPubkey`: the all-zero key cannot be stored as a present key. */
  function NonZero(key: Option<Pubkey>): Result<Option<Pubkey>, Error> {
    if key == Some(0) then Err(InvalidArgument) else Ok(key)
  }

  function WithAccount(slot: Slot, a: Account): Slot
    requires slot.data.AccountData?
  {
    slot.(data := slot.data.(account := a))
  }

  function WithMint(slot: Slot, m: Mint): Slot
    requires slot.data.MintData?
  {
    slot.(data := slot.data.(mint := m))
  }

  function WithAccountExt(slot: Slot, e: AccountExt): Slot
    requires slot.data.AccountData?
  {
    slot.(data := slot.data.(accountExt := e))
  }

  function WithMintExt(slot: Slot, e: MintExt): Slot
    requires slot.data.MintData?
  {
    slot.(data := slot.data.(mintExt := e))
  }

  predicate Guarded(e: AccountExt) { e.cpiGuard == Some(true) }
  predicate OwnedBySystemOrIncinerator(a: Account) { a.owner == SYSTEM_PROGRAM || a.owner == INCINERATOR }
  function CloseAuthorityOf(a: Account): Pubkey {
    if a.closeAuthority.Some? then a.closeAuthority.value else a.owner
  }
  function PermanentDelegateOf(e: MintExt): Option<Pubkey> {
    if e.permanentDelegate.Some? then e.permanentDelegate.value else None
  }

  // ---- initialisation ----

  function HandleInitializeMint(s: State, env: Env, k: Pubkey, decimals: u8, mintAuthority: Pubkey,
                                freezeAuthority: Option<Pubkey>): Result<State, Error> {
    var slot := Get(s, k);
    if slot.lamports < env.rent(slot.len) then Err(NotRentExempt) else
    var ext :- UnpackBlankMint(slot);
    if RequiredLen(MINT_LEN, MintTlv(ext)) != slot.len then Err(InvalidAccountData) else
    if ext.defaultState == Some(Frozen) && freezeAuthority.None? then Err(MintCannotFreeze) else
    Ok(Put(s, k, slot.(data := MintData(Mint(Some(mintAuthority), 0, decimals, true, freezeAuthority), ext))))
  }

  /** The account extensions a mint's own extensions call for, in their initial state. */
  function AddRequired(e: AccountExt, mintExt: MintExt): AccountExt {
    e.(withheld := if mintExt.fee.Some? then Some(0) else e.withheld,
       nonTransferable := e.nonTransferable || mintExt.nonTransferable)
  }

  function HandleInitializeAccount(s: State, env: Env, k: Pubkey, mintKey: Pubkey, owner: Pubkey)
    : Result<State, Error>
  {
    var slot := Get(s, k);
    var ext0 :- UnpackBlankAccount(slot);
    if slot.lamports < env.rent(slot.len) then Err(NotRentExempt) else
    if k == mintKey then Err(AccountBorrowFailed) else
    var mintSlot := Get(s, mintKey);
    if !mintSlot.data.MintData? then Err(InvalidMint) else
    if !Live(mintSlot) then Err(IncorrectProgramId) else
    var mintExt := mintSlot.data.mintExt;
    if RequiredLen(ACCOUNT_LEN, AccountTlv(AddRequired(NO_ACCOUNT_EXT, mintExt))) > slot.len
    then Err(InvalidAccountData) else
    var ext := AddRequired(ext0, mintExt);
    if !HasRoom(slot.len, AccountTlv(ext)) then Err(InvalidAccountData) else
    var state := if mintExt.defaultState.Some? then mintExt.defaultState.value else Initialized;
    var native := mintKey == NATIVE_MINT;
    var reserve := env.rent(slot.len);
    var a := Account(mintKey, owner, if native then slot.lamports - reserve else 0, None, state,
                     if native then Some(reserve) else None, 0, None);
    Ok(Put(s, k, slot.(data := AccountData(a, ext))))
  }

  function Padded(keys: seq<Pubkey>): SignerTable
    requires |keys| <= MAX_SIGNERS
  {
    keys + seq(MAX_SIGNERS - |keys|, _ => 0)
  }

  function HandleInitializeMultisig(s: State, env: Env, k: Pubkey, m: u8, keys: seq<Pubkey>): Result<State, Error> {
    var slot := Get(s, k);
    if slot.len != MULTISIG_LEN then Err(InvalidAccountData) else
    if slot.data.MultisigData? && slot.data.multisig.isInitialized then Err(AlreadyInUse) else
    if slot.data != Blank(NoExtension) then Err(InvalidAccountData) else
    if slot.lamports < env.rent(slot.len) then Err(NotRentExempt) else
    var n := |keys| % 256;
    if n < 1 || n > MAX_SIGNERS then Err(InvalidNumberOfProvidedSigners) else
    if m < 1 || m > MAX_SIGNERS then Err(InvalidNumberOfRequiredSigners) else
    if |keys| > MAX_SIGNERS then Err(Panic) else
    Ok(Put(s, k, slot.(data := MultisigData(Multisig(m, n, true, Padded(keys))))))
  }

  // ---- moving tokens ----

  datatype Branch = ByPermanentDelegate | ByDelegate | ByOwner

  /** Which of the three arms of the authority match a key takes. */
  function BranchOf(a: Account, permanent: Option<Pubkey>, key: Pubkey): Branch {
    if permanent == Some(key) then ByPermanentDelegate
    else if a.delegate == Some(key) then ByDelegate
    else ByOwner
  }

  function SpendAllowance(a: Account, amount: u64): Account
    requires amount <= a.delegatedAmount
  {
    a.(delegatedAmount := a.delegatedAmount - amount,
       delegate := if a.delegatedAmount == amount then None else a.delegate)
  }

  /** The authority match of transfer and burn: the account as the chosen arm leaves it. */
  function Authorise(s: State, env: Env, a: Account, e: AccountExt, permanent: Option<Pubkey>, authority: Info,
                     signers: seq<Info>, amount: u64, spend: bool, blocked: Error): Result<Account, Error> {
    match BranchOf(a, permanent, authority.key)
    case ByPermanentDelegate =>
      :- ValidateOwner(s, authority.key, authority, signers);
      Ok(a)
    case ByDelegate =>
      :- ValidateOwner(s, authority.key, authority, signers);
      if a.delegatedAmount < amount then Err(InsufficientFunds) else
      Ok(if spend then SpendAllowance(a, amount) else a)
    case ByOwner =>
      :- ValidateOwner(s, a.owner, authority, signers);
      if Guarded(e) && env.inCpi then Err(blocked) else
      Ok(a)
  }

  datatype MintTerms = MintTerms(fee: u64, permanent: Option<Pubkey>)

  /** The fee and permanent delegate that the mint imposes on a transfer. */
  function TransferTerms(s: State, env: Env, source: Pubkey, a: Account, e: AccountExt, checked: Option<Checked>,
                         amount: u64): Result<MintTerms, Error> {
    match checked
    case Some(c) =>
      if a.mint != c.mint then Err(MintMismatch) else
      if c.mint == source then Err(AccountBorrowFailed) else
      var mintSlot := Get(s, c.mint);
      var mint :- UnpackMint(mintSlot);
      if c.decimals != mint.decimals then Err(MintDecimalsMismatch) else
      var ext := mintSlot.data.mintExt;
      var fee := if ext.fee.Some? then CalculateEpochFee(ext.fee.value, env.epoch, amount) else Some(0);
      if fee.None? then Err(Overflow) else
      Ok(MintTerms(fee.value, PermanentDelegateOf(ext)))
    case None =>
      if e.withheld.Some? then Err(MintRequiredForTransfer) else
      Ok(MintTerms(0, None))
  }

  function HandleTransfer(s: State, env: Env, source: Pubkey, checked: Option<Checked>, destination: Pubkey,
                          authority: Info, signers: seq<Info>, amount: u64, expectedFee: Option<u64>)
    : Result<State, Error>
  {
    var src := Get(s, source);
    var a :- UnpackAccount(src);
    if a.state == Frozen then Err(AccountFrozen) else
    if a.amount < amount then Err(InsufficientFunds) else
    if src.data.accountExt.nonTransferable then Err(NonTransferable) else
    var terms :- TransferTerms(s, env, source, a, src.data.accountExt, checked, amount);
    if expectedFee.Some? && expectedFee.value != terms.fee then Err(FeeMismatch) else
    var self := source == destination;
    var a1 :- Authorise(s, env, a, src.data.accountExt, terms.permanent, authority, signers, amount, !self,
                        CpiGuardTransferBlocked);
    if !Live(src) then Err(IncorrectProgramId) else
    if !Live(Get(s, destination)) then Err(IncorrectProgramId) else
    if self then Ok(s) else Credit(s, env, source, destination, a1, amount, terms.fee)
  }

  /** The second half of a transfer, after every check on the source. */
  function Credit(s: State, env: Env, source: Pubkey, destination: Pubkey, a: Account, amount: u64, fee: u64)
    : Result<State, Error>
    requires Get(s, source).data.AccountData? && amount <= a.amount
  {
    var src, dst := Get(s, source), Get(s, destination);
    var b :- UnpackAccount(dst);
    var e := dst.data.accountExt;
    if b.state == Frozen then Err(AccountFrozen) else
    if a.mint != b.mint then Err(MintMismatch) else
    if e.memo == Some(true) && !env.memo then Err(NoMemo) else
    if fee > amount then Err(Overflow) else
    if b.amount + (amount - fee) > U64_MAX then Err(Overflow) else
    if fee > 0 && e.withheld.None? then Err(InvalidState) else
    if fee > 0 && e.withheld.value + fee > U64_MAX then Err(Overflow) else
    var native := a.isNative.Some?;
    if native && src.lamports < amount then Err(Overflow) else
    if native && dst.lamports + amount > U64_MAX then Err(Overflow) else
    var moved := if native then amount else 0;
    var src' := src.(lamports := src.lamports - moved,
                     data := src.data.(account := a.(amount := a.amount - amount)));
    var dst' := dst.(lamports := dst.lamports + moved,
                     data := AccountData(b.(amount := b.amount + (amount - fee)),
                                         if fee == 0 then e else e.(withheld := Some(e.withheld.value + fee))));
    Ok(Put(Put(s, source, src'), destination, dst'))
  }

  function HandleMintTo(s: State, mintKey: Pubkey, destination: Pubkey, authority: Info, signers: seq<Info>,
                        amount: u64, expectedDecimals: Option<u8>): Result<State, Error> {
    var dst := Get(s, destination);
    var b :- UnpackAccount(dst);
    if b.state == Frozen then Err(AccountFrozen) else
    if b.isNative.Some? then Err(NativeNotSupported) else
    if mintKey != b.mint then Err(MintMismatch) else
    if mintKey == destination then Err(AccountBorrowFailed) else
    var mintSlot := Get(s, mintKey);
    var mint :- UnpackMint(mintSlot);
    if mintSlot.data.mintExt.nonTransferable && !dst.data.accountExt.immutableOwner
    then Err(NonTransferableNeedsImmutableOwnership) else
    if expectedDecimals.Some? && expectedDecimals.value != mint.decimals then Err(MintDecimalsMismatch) else
    if mint.mintAuthority.None? then Err(FixedSupply) else
    :- ValidateOwner(s, mint.mintAuthority.value, authority, signers);
    if !Live(mintSlot) then Err(IncorrectProgramId) else
    if !Live(dst) then Err(IncorrectProgramId) else
    if b.amount + amount > U64_MAX then Err(Overflow) else
    if mint.supply + amount > U64_MAX then Err(Overflow) else
    Ok(Put(Put(s, mintKey, WithMint(mintSlot, mint.(supply := mint.supply + amount))),
           destination, WithAccount(dst, b.(amount := b.amount + amount))))
  }

  function HandleBurn(s: State, env: Env, source: Pubkey, mintKey: Pubkey, authority: Info, signers: seq<Info>,
                      amount: u64, expectedDecimals: Option<u8>): Result<State, Error> {
    var src := Get(s, source);
    var a :- UnpackAccount(src);
    if source == mintKey then Err(AccountBorrowFailed) else
    var mintSlot := Get(s, mintKey);
    var mint :- UnpackMint(mintSlot);
    if a.state == Frozen then Err(AccountFrozen) else
    if a.isNative.Some? then Err(NativeNotSupported) else
    if a.amount < amount then Err(InsufficientFunds) else
    if mintKey != a.mint then Err(MintMismatch) else
    if expectedDecimals.Some? && expectedDecimals.value != mint.decimals then Err(MintDecimalsMismatch) else
    var a1 :- if OwnedBySystemOrIncinerator(a) then Ok(a)
              else Authorise(s, env, a, src.data.accountExt, PermanentDelegateOf(mintSlot.data.mintExt), authority,
                             signers, amount, true, CpiGuardBurnBlocked);
    if !Live(src) then Err(IncorrectProgramId) else
    if !Live(mintSlot) then Err(IncorrectProgramId) else
    if mint.supply < amount then Err(Overflow) else
    Ok(Put(Put(s, source, WithAccount(src, a1.(amount := a1.amount - amount))),
           mintKey, WithMint(mintSlot, mint.(supply := mint.supply - amount))))
  }

  // ---- delegation and authorities ----

  function HandleApprove(s: State, env: Env, source: Pubkey, checked: Option<Checked>, delegate: Pubkey,
                         authority: Info, signers: seq<Info>, amount: u64): Result<State, Error> {
    var src := Get(s, source);
    var a :- UnpackAccount(src);
    if a.state == Frozen then Err(AccountFrozen) else
    if checked.Some? && a.mint != checked.value.mint then Err(MintMismatch) else
    if checked.Some? && checked.value.mint == source then Err(AccountBorrowFailed) else
    if checked.Some? && !Get(s, checked.value.mint).data.MintData? then Err(InvalidAccountData) else
    if checked.Some? && Get(s, checked.value.mint).data.mint.decimals != checked.value.decimals
    then Err(MintDecimalsMismatch) else
    :- ValidateOwner(s, a.owner, authority, signers);
    if Guarded(src.data.accountExt) && env.inCpi then Err(CpiGuardApproveBlocked) else
    Ok(Put(s, source, WithAccount(src, a.(delegate := Some(delegate), delegatedAmount := amount))))
  }

  function HandleRevoke(s: State, source: Pubkey, authority: Info, signers: seq<Info>): Result<State, Error> {
    var src := Get(s, source);
    var a :- UnpackAccount(src);
    if a.state == Frozen then Err(AccountFrozen) else
    :- ValidateOwner(s, if a.delegate == Some(authority.key) then authority.key else a.owner, authority, signers);
    Ok(Put(s, source, WithAccount(src, a.(delegate := None, delegatedAmount := 0))))
  }

  function HandleSetAuthority(s: State, env: Env, target: Pubkey, authority: Info, signers: seq<Info>,
                              kind: AuthorityType, newAuthority: Option<Pubkey>): Result<State, Error> {
    var slot := Get(s, target);
    if slot.data.AccountData? then
      var a :- SetAccountAuthority(s, env, slot.data.account, slot.data.accountExt, authority, signers, kind,
                                   newAuthority);
      Ok(Put(s, target, WithAccount(slot, a)))
    else if slot.data.MintData? then
      var data :- SetMintAuthority(s, slot.data.mint, slot.data.mintExt, authority, signers, kind, newAuthority);
      Ok(Put(s, target, slot.(data := data)))
    else
      Err(InvalidAccountData)
  }

  function SetAccountAuthority(s: State, env: Env, a: Account, e: AccountExt, authority: Info, signers: seq<Info>,
                               kind: AuthorityType, newAuthority: Option<Pubkey>): Result<Account, Error> {
    var guarded := Guarded(e);
    if a.state == Frozen then Err(AccountFrozen) else
    match kind
    case AccountOwner =>
      :- ValidateOwner(s, a.owner, authority, signers);
      if e.immutableOwner then Err(ImmutableOwner) else
      if guarded && env.inCpi then Err(CpiGuardSetAuthorityBlocked) else
      if guarded then Err(CpiGuardOwnerChangeBlocked) else
      if newAuthority.None? then Err(InvalidInstruction) else
      Ok(a.(owner := newAuthority.value, delegate := None, delegatedAmount := 0,
            closeAuthority := if a.isNative.Some? then None else a.closeAuthority))
    case CloseAccountAuthority =>
      :- ValidateOwner(s, CloseAuthorityOf(a), authority, signers);
      if guarded && env.inCpi && newAuthority.Some? then Err(CpiGuardSetAuthorityBlocked) else
      Ok(a.(closeAuthority := newAuthority))
    case _ => Err(AuthorityTypeNotSupported)
  }

  function SetMintAuthority(s: State, mint: Mint, e: MintExt, authority: Info, signers: seq<Info>,
                            kind: AuthorityType, newAuthority: Option<Pubkey>): (r: Result<Data, Error>)
    ensures r.Ok? ==> r.value.MintData?
  {
    match kind
    case MintTokens =>
      if mint.mintAuthority.None? then Err(FixedSupply) else
      :- ValidateOwner(s, mint.mintAuthority.value, authority, signers);
      Ok(MintData(mint.(mintAuthority := newAuthority), e))
    case FreezeAccountAuthority =>
      if mint.freezeAuthority.None? then Err(MintCannotFreeze) else
      :- ValidateOwner(s, mint.freezeAuthority.value, authority, signers);
      Ok(MintData(mint.(freezeAuthority := newAuthority), e))
    case CloseMint =>
      if e.closeAuthority.None? then Err(ExtensionNotFound) else
      var key :- ReplaceExtensionKey(s, e.closeAuthority.value, authority, signers, newAuthority);
      Ok(MintData(mint, e.(closeAuthority := Some(key))))
    case TransferFeeConfigAuthority =>
      if e.fee.None? then Err(ExtensionNotFound) else
      var key :- ReplaceExtensionKey(s, e.fee.value.configAuthority, authority, signers, newAuthority);
      Ok(MintData(mint, e.(fee := Some(e.fee.value.(configAuthority := key)))))
    case WithheldWithdraw =>
      if e.fee.None? then Err(ExtensionNotFound) else
      var key :- ReplaceExtensionKey(s, e.fee.value.withdrawAuthority, authority, signers, newAuthority);
      Ok(MintData(mint, e.(fee := Some(e.fee.value.(withdrawAuthority := key)))))
    case PermanentDelegateAuthority =>
      if e.permanentDelegate.None? then Err(ExtensionNotFound) else
      var key :- ReplaceExtensionKey(s, e.permanentDelegate.value, authority, signers, newAuthority);
      Ok(MintData(mint, e.(permanentDelegate := Some(key))))
    case InterestRate => Err(ExtensionNotFound)
    case ConfidentialTransferMint => Err(ExtensionNotFound)
    case TransferHookProgramId => Err(ExtensionNotFound)
    case ConfidentialTransferFeeConfig => Err(ExtensionNotFound)
    case MetadataPointer => Err(ExtensionNotFound)
    case _ => Err(AuthorityTypeNotSupported)
  }

  /** The shared arm of the mint-extension authorities: the current key must sign to be replaced. */
  function ReplaceExtensionKey(s: State, current: Option<Pubkey>, authority: Info, signers: seq<Info>,
                               newAuthority: Option<Pubkey>): Result<Option<Pubkey>, Error> {
    var replacement := NonZero(newAuthority);
    if current.None? then Err(AuthorityTypeNotSupported) else
    :- ValidateOwner(s, current.value, authority, signers);
    replacement
  }

  function HandleToggleFreeze(s: State, source: Pubkey, mintKey: Pubkey, authority: Info, signers: seq<Info>,
                              freeze: bool): Result<State, Error> {
    var src := Get(s, source);
    var a :- UnpackAccount(src);
    if freeze == (a.state == Frozen) then Err(InvalidState) else
    if a.isNative.Some? then Err(NativeNotSupported) else
    if mintKey != a.mint then Err(MintMismatch) else
    if mintKey == source then Err(AccountBorrowFailed) else
    var mint :- UnpackMint(Get(s, mintKey));
    if mint.freezeAuthority.None? then Err(MintCannotFreeze) else
    :- ValidateOwner(s, mint.freezeAuthority.value, authority, signers);
    Ok(Put(s, source, WithAccount(src, a.(state := if freeze then Frozen else Initialized))))
  }

  // ---- lamports ----

  /** May the authority close this slot towards `destination`? */
  function CloseAllowed(s: State, env: Env, slot: Slot, destination: Pubkey, authority: Info, signers: seq<Info>)
    : Outcome<Error>
  {
    match slot.data
    case AccountData(a, e) =>
      if a.isNative.None? && a.amount != 0 then Fail(NonNativeHasBalance)
      else
        var allowed :=
          if OwnedBySystemOrIncinerator(a) then
            if destination != INCINERATOR then Fail(InvalidAccountData) else Pass
          else if Guarded(e) && env.inCpi && destination != a.owner then Fail(CpiGuardCloseAccountBlocked)
          else ValidateOwner(s, CloseAuthorityOf(a), authority, signers);
        if allowed.Fail? then allowed
        else if Withheld(e) != 0 then Fail(AccountHasWithheldTransferFees)
        else Pass
    case MintData(mint, e) =>
      if e.closeAuthority.None? then Fail(ExtensionNotFound)
      else if e.closeAuthority.value.None? then Fail(AuthorityTypeNotSupported)
      else
        var allowed := ValidateOwner(s, e.closeAuthority.value.value, authority, signers);
        if allowed.Fail? then allowed
        else if mint.supply != 0 then Fail(MintHasSupply)
        else Pass
    case _ => Fail(UninitializedAccount)
  }

  function HandleCloseAccount(s: State, env: Env, source: Pubkey, destination: Pubkey, authority: Info,
                              signers: seq<Info>): Result<State, Error> {
    var src, dst := Get(s, source), Get(s, destination);
    if source == destination then Err(InvalidAccountData) else
    :- CloseAllowed(s, env, src, destination, authority, signers);
    if dst.lamports + src.lamports > U64_MAX then Err(Overflow) else
    Ok(Put(Put(s, destination, dst.(lamports := dst.lamports + src.lamports)), source, EMPTY_SLOT))
  }

  function HandleSyncNative(s: State, k: Pubkey): Result<State, Error> {
    var slot := Get(s, k);
    if !Live(slot) then Err(IncorrectProgramId) else
    var a :- UnpackAccount(slot);
    if a.isNative.None? then Err(NonNativeNotSupported) else
    if slot.lamports < a.isNative.value then Err(Overflow) else
    if slot.lamports - a.isNative.value < a.amount then Err(InvalidState) else
    Ok(Put(s, k, WithAccount(slot, a.(amount := slot.lamports - a.isNative.value))))
  }

  /** Who may take the excess lamports out of a slot. */
  function ExcessAllowed(s: State, source: Pubkey, slot: Slot, authority: Info, signers: seq<Info>): Outcome<Error> {
    if slot.data.AccountData? then
      if slot.data.account.isNative.Some? then Fail(NativeNotSupported)
      else ValidateOwner(s, slot.data.account.owner, authority, signers)
    else if slot.data.MintData? then
      if slot.data.mint.mintAuthority.None? then Fail(AuthorityTypeNotSupported)
      else ValidateOwner(s, slot.data.mint.mintAuthority.value, authority, signers)
    else if slot.len == MULTISIG_LEN then ValidateOwner(s, source, authority, signers)
    else Fail(InvalidState)
  }

  function HandleWithdrawExcess(s: State, env: Env, source: Pubkey, destination: Pubkey, authority: Info,
                                signers: seq<Info>): Result<State, Error> {
    var src, dst := Get(s, source), Get(s, destination);
    :- ExcessAllowed(s, source, src, authority, signers);
    var reserve := env.rent(src.len);
    if src.lamports < reserve then Err(NotRentExempt) else
    if source == destination then Ok(s)
    else
      var excess := src.lamports - reserve;
      if dst.lamports + excess > U64_MAX then Err(Overflow) else
      Ok(Put(Put(s, source, src.(lamports := reserve)), destination, dst.(lamports := dst.lamports + excess)))
  }

  /** The system program's transfer: a signing, data-less system account pays. */
  function SystemTransfer(s: State, payer: Info, to: Pubkey, amount: u64): Result<State, Error> {
    var from := Get(s, payer.key);
    if !payer.isSigner then Err(MissingRequiredSignature) else
    if from.owner != SYSTEM_PROGRAM || from.len != 0 || payer.key == to then Err(InvalidAccountData) else
    if from.lamports < amount then Err(InsufficientFunds) else
    if Get(s, to).lamports + amount > U64_MAX then Err(Overflow) else
    Ok(Put(Put(s, payer.key, from.(lamports := from.lamports - amount)),
           to, Get(s, to).(lamports := Get(s, to).lamports + amount)))
  }

  const NATIVE_MINT_DATA := MintData(Mint(None, 0, NATIVE_DECIMALS, true, None), NO_MINT_EXT)

  /** Create the mint at its program-derived address: only the token program can sign for it. */
  function HandleCreateNativeMint(s: State, env: Env, payer: Info): Result<State, Error> {
    var minimum, have := env.rent(MINT_LEN), Get(s, NATIVE_MINT).lamports;
    var s1 :- SystemTransfer(s, payer, NATIVE_MINT, if minimum > have then minimum - have else 0);
    var slot := Get(s1, NATIVE_MINT);
    if slot.owner != SYSTEM_PROGRAM || slot.len != 0 then Err(AccountAlreadyInUse) else
    Ok(Put(s1, NATIVE_MINT, Slot(slot.lamports, TOKEN_PROGRAM, MINT_LEN, NATIVE_MINT_DATA)))
  }

  // ---- extensions ----

  /** The mint extension written into `e`, or the reason its arguments are refused. */
  function AddMintExtension(env: Env, e: MintExt, x: MintExtension): Result<MintExt, Error> {
    match x
    case WithCloseAuthority(key) =>
      var stored :- NonZero(key);
      Ok(e.(closeAuthority := Some(stored)))
    case WithNonTransferable => Ok(e.(nonTransferable := true))
    case WithPermanentDelegate(key) =>
      var stored :- NonZero(Some(key));
      Ok(e.(permanentDelegate := Some(stored)))
    case WithTransferFee(config, withdraw, basisPoints, maximumFee) =>
      var configKey :- NonZero(config);
      var withdrawKey :- NonZero(withdraw);
      if basisPoints > MAX_FEE_BASIS_POINTS then Err(TransferFeeExceedsMaximum) else
      var fee := Fee(env.epoch, maximumFee, basisPoints);
      Ok(e.(fee := Some(FeeConfig(configKey, withdrawKey, 0, fee, fee))))
    case WithDefaultState(state) =>
      if state == Uninitialized then Err(InvalidState) else
      Ok(e.(defaultState := Some(state)))
  }

  function HandleInitializeMintExtension(s: State, env: Env, k: Pubkey, x: MintExtension): Result<State, Error> {
    var slot := Get(s, k);
    var e :- UnpackBlankMint(slot);
    var added :- AddMintExtension(env, e, x);
    if !HasRoom(slot.len, MintTlv(added)) then Err(InvalidAccountData) else
    Ok(Put(s, k, slot.(data := Blank(ForMint(added)))))
  }

  function HandleInitializeImmutableOwner(s: State, k: Pubkey): Result<State, Error> {
    var slot := Get(s, k);
    var e :- UnpackBlankAccount(slot);
    var added := e.(immutableOwner := true);
    if !HasRoom(slot.len, AccountTlv(added)) then Err(InvalidAccountData) else
    Ok(Put(s, k, slot.(data := Blank(ForAccount(added)))))
  }

  function HandleUpdateDefaultState(s: State, k: Pubkey, authority: Info, signers: seq<Info>, state: AccountState)
    : Result<State, Error>
  {
    var slot := Get(s, k);
    if state == Uninitialized then Err(InvalidState) else
    var mint :- UnpackMint(slot);
    if mint.freezeAuthority.None? then Err(NoAuthorityExists) else
    :- ValidateOwner(s, mint.freezeAuthority.value, authority, signers);
    if slot.data.mintExt.defaultState.None? then Err(ExtensionNotFound) else
    Ok(Put(s, k, WithMintExt(slot, slot.data.mintExt.(defaultState := Some(state)))))
  }

  function HandleSetTransferFee(s: State, env: Env, k: Pubkey, authority: Info, signers: seq<Info>,
                                basisPoints: u16, maximumFee: u64): Result<State, Error> {
    var slot := Get(s, k);
    var mint :- UnpackMint(slot);
    var e := slot.data.mintExt;
    if e.fee.None? then Err(ExtensionNotFound) else
    var c := e.fee.value;
    if c.configAuthority.None? then Err(NoAuthorityExists) else
    :- ValidateOwner(s, c.configAuthority.value, authority, signers);
    if basisPoints > MAX_FEE_BASIS_POINTS then Err(TransferFeeExceedsMaximum) else
    var start := if env.epoch + 2 <= U64_MAX then env.epoch + 2 else U64_MAX;
    var c' := c.(older := if c.newer.epoch <= env.epoch then c.newer else c.older,
                 newer := Fee(start, maximumFee, basisPoints));
    Ok(Put(s, k, WithMintExt(slot, e.(fee := Some(c')))))
  }

  /** The fee receiver's account, once the withdraw authority has signed. */
  function WithdrawAllowed(s: State, mintKey: Pubkey, destination: Pubkey, authority: Info, signers: seq<Info>)
    : Outcome<Error>
  {
    var mintSlot, dst := Get(s, mintKey), Get(s, destination);
    if !Live(mintSlot) then Fail(IncorrectProgramId)
    else if !mintSlot.data.MintData? then Fail(InvalidAccountData)
    else if mintSlot.data.mintExt.fee.None? then Fail(ExtensionNotFound)
    else if mintSlot.data.mintExt.fee.value.withdrawAuthority.None? then Fail(NoAuthorityExists)
    else
      var allowed := ValidateOwner(s, mintSlot.data.mintExt.fee.value.withdrawAuthority.value, authority, signers);
      if allowed.Fail? then allowed
      else if destination == mintKey then Fail(AccountBorrowFailed)
      else if !dst.data.AccountData? then Fail(InvalidAccountData)
      else if dst.data.account.mint != mintKey then Fail(MintMismatch)
      else if dst.data.account.state == Frozen then Fail(AccountFrozen)
      else Pass
  }

  function HandleWithdrawFromMint(s: State, mintKey: Pubkey, destination: Pubkey, authority: Info,
                                  signers: seq<Info>): Result<State, Error> {
    var mintSlot, dst := Get(s, mintKey), Get(s, destination);
    :- WithdrawAllowed(s, mintKey, destination, authority, signers);
    var e, b := mintSlot.data.mintExt, dst.data.account;
    var c := e.fee.value;
    if b.amount + c.withheld > U64_MAX then Err(Overflow) else
    Ok(Put(Put(s, mintKey, WithMintExt(mintSlot, e.(fee := Some(c.(withheld := 0))))),
           destination, WithAccount(dst, b.(amount := b.amount + c.withheld))))
  }

  /** Whether an account's withheld fees can be collected for `mintKey`; others are skipped. */
  predicate Harvestable(slot: Slot, mintKey: Pubkey) {
    LiveAccount(slot) && slot.data.account.mint == mintKey && slot.data.accountExt.withheld.Some?
  }

  function Emptied(slot: Slot): Slot
    requires slot.data.AccountData?
  {
    WithAccountExt(slot, slot.data.accountExt.(withheld := Some(0)))
  }

  predicate FeeMint(slot: Slot) { slot.data.MintData? && slot.data.mintExt.fee.Some? }

  /** One turn of the harvest loop. */
  function HarvestOne(s: State, mintKey: Pubkey, k: Pubkey): (r: Result<State, Error>)
    requires FeeMint(Get(s, mintKey))
    ensures r.Ok? ==> FeeMint(Get(r.value, mintKey))
  {
    var slot := Get(s, k);
    if k == mintKey then Err(AccountBorrowFailed) else
    if !Harvestable(slot, mintKey) then Ok(s)
    else
      var mintSlot := Get(s, mintKey);
      var e := mintSlot.data.mintExt;
      var total := e.fee.value.withheld + slot.data.accountExt.withheld.value;
      if total > U64_MAX then Err(Overflow) else
      var fee := e.fee.value.(withheld := total);
      Ok(Put(Put(s, k, Emptied(slot)), mintKey, WithMintExt(mintSlot, e.(fee := Some(fee)))))
  }

  function HarvestAll(s: State, mintKey: Pubkey, sources: seq<Pubkey>): (r: Result<State, Error>)
    requires FeeMint(Get(s, mintKey))
    ensures r.Ok? ==> FeeMint(Get(r.value, mintKey))
  {
    if sources == [] then Ok(s)
    else
      var s1 :- HarvestAll(s, mintKey, sources[..|sources| - 1]);
      HarvestOne(s1, mintKey, sources[|sources| - 1])
  }

  function HandleHarvest(s: State, mintKey: Pubkey, sources: seq<Pubkey>): Result<State, Error> {
    var mint :- UnpackMint(Get(s, mintKey));
    if Get(s, mintKey).data.mintExt.fee.None? then Err(ExtensionNotFound) else
    HarvestAll(s, mintKey, sources)
  }

  /** One turn of the withdraw-from-accounts loop, the receiver itself included. */
  function CollectOne(s: State, mintKey: Pubkey, destination: Pubkey, k: Pubkey): (r: Result<State, Error>)
    requires Get(s, destination).data.AccountData?
    ensures r.Ok? ==> Get(r.value, destination).data.AccountData?
  {
    var dst := Get(s, destination);
    if k == destination then
      if dst.data.accountExt.withheld.None? then Err(InvalidState) else
      var total := dst.data.account.amount + dst.data.accountExt.withheld.value;
      if total > U64_MAX then Err(Overflow) else
      Ok(Put(s, k, WithAccount(Emptied(dst), dst.data.account.(amount := total))))
    else
      if k == mintKey then Err(AccountBorrowFailed) else
      var slot := Get(s, k);
      if !Harvestable(slot, mintKey) then Ok(s)
      else
        var total := dst.data.account.amount + slot.data.accountExt.withheld.value;
        if total > U64_MAX then Err(Overflow) else
        Ok(Put(Put(s, k, Emptied(slot)), destination, WithAccount(dst, dst.data.account.(amount := total))))
  }

  function CollectAll(s: State, mintKey: Pubkey, destination: Pubkey, sources: seq<Pubkey>): (r: Result<State, Error>)
    requires Get(s, destination).data.AccountData?
    ensures r.Ok? ==> Get(r.value, destination).data.AccountData?
  {
    if sources == [] then Ok(s)
    else
      var s1 :- CollectAll(s, mintKey, destination, sources[..|sources| - 1]);
      CollectOne(s1, mintKey, destination, sources[|sources| - 1])
  }

  function HandleWithdrawFromAccounts(s: State, mintKey: Pubkey, destination: Pubkey, authority: Info,
                                      signers: seq<Info>, sources: seq<Pubkey>): Result<State, Error> {
    var allowed := WithdrawAllowed(s, mintKey, destination, authority, signers);
    if allowed.Fail? then Err(allowed.error) else CollectAll(s, mintKey, destination, sources)
  }

  function HandleToggleFlag(s: State, env: Env, k: Pubkey, authority: Info, signers: seq<Info>, cpiGuard: bool,
                            enable: bool): Result<State, Error> {
    var slot := Get(s, k);
    var a :- UnpackAccount(slot);
    :- ValidateOwner(s, a.owner, authority, signers);
    if cpiGuard && env.inCpi then Err(CpiGuardSettingsLocked) else
    var e := slot.data.accountExt;
    var e' := if cpiGuard then e.(cpiGuard := Some(enable)) else e.(memo := Some(enable));
    var present := if cpiGuard then e.cpiGuard.Some? else e.memo.Some?;
    if !present && !HasRoom(slot.len, AccountTlv(e')) then Err(InvalidAccountData) else
    Ok(Put(s, k, WithAccountExt(slot, e')))
  }

  /** The lamports a reallocated account lacks for its new length, beyond the tokens a native one stands for. */
  function Shortfall(slot: Slot, reserve: u64): Result<u64, Error>
    requires slot.data.AccountData?
  {
    var tokens := NativeTokens(slot.data.account);
    if slot.lamports < tokens then Err(Overflow) else
    Ok(if reserve > slot.lamports - tokens then reserve - (slot.lamports - tokens) else 0)
  }

  function NativeTokens(a: Account): u64 {
    if a.isNative.Some? then a.amount else 0
  }

  function HandleReallocate(s: State, env: Env, k: Pubkey, payer: Info, authority: Info, signers: seq<Info>,
                            requested: seq<ExtensionKind>): Result<State, Error> {
    var slot := Get(s, k);
    var a :- UnpackAccount(slot);
    :- ValidateOwner(s, a.owner, authority, signers);
    if NotForAccounts in requested then Err(InvalidState) else
    GrowTo(s, env, k, payer, NeededLen(slot.data.accountExt, requested))
  }

  /** Make the account at least `needed` bytes long, the payer adding the rent it lacks. */
  function GrowTo(s: State, env: Env, k: Pubkey, payer: Info, needed: nat): Result<State, Error>
    requires Get(s, k).data.AccountData?
  {
    var slot := Get(s, k);
    if slot.len >= needed then Ok(s)
    else
      if !Live(slot) then Err(ExternalAccountModified) else
      var reserve := env.rent(needed);
      var missing :- Shortfall(slot, reserve);
      if missing > 0 then
        var s1 :- SystemTransfer(s, payer, k, missing);
        Resize(s1, k, needed, reserve)
      else
        Resize(s, k, needed, reserve)
  }

  /** The account in its new length, a native one with its new reserve noted. */
  function Resize(s: State, k: Pubkey, needed: nat, reserve: u64): Result<State, Error> {
    var slot := Get(s, k);
    var a :- UnpackAccount(slot);
    if needed == MULTISIG_LEN || needed <= ACCOUNT_LEN + 1 then Err(InvalidAccountData) else
    var a' := if a.isNative.Some? then a.(isNative := Some(reserve)) else a;
    if a.isNative.Some? && reserve + a.amount > U64_MAX then Err(Overflow) else
    if a.isNative.Some? && slot.lamports < reserve + a.amount then Err(InvalidState) else
    Ok(Put(s, k, WithAccount(slot, a').(len := needed)))
  }

  // ---- dispatch ----

  function Handle(s: State, env: Env, ix: Instruction): Result<State, Error> {
    match ix
    case InitializeMint(k, decimals, ma, fa) => HandleInitializeMint(s, env, k, decimals, ma, fa)
    case InitializeAccount(k, m, owner) => HandleInitializeAccount(s, env, k, m, owner)
    case InitializeMultisig(k, m, keys) => HandleInitializeMultisig(s, env, k, m, keys)
    case Transfer(src, checked, dst, auth, signers, amount, fee) =>
      HandleTransfer(s, env, src, checked, dst, auth, signers, amount, fee)
    case Approve(src, checked, delegate, auth, signers, amount) =>
      HandleApprove(s, env, src, checked, delegate, auth, signers, amount)
    case Revoke(src, auth, signers) => HandleRevoke(s, src, auth, signers)
    case SetAuthority(k, auth, signers, kind, newAuth) => HandleSetAuthority(s, env, k, auth, signers, kind, newAuth)
    case MintTo(m, dst, auth, signers, amount, d) => HandleMintTo(s, m, dst, auth, signers, amount, d)
    case Burn(src, m, auth, signers, amount, d) => HandleBurn(s, env, src, m, auth, signers, amount, d)
    case CloseAccount(src, dst, auth, signers) => HandleCloseAccount(s, env, src, dst, auth, signers)
    case ToggleFreeze(src, m, auth, signers, freeze) => HandleToggleFreeze(s, src, m, auth, signers, freeze)
    case SyncNative(k) => HandleSyncNative(s, k)
    case WithdrawExcessLamports(src, dst, auth, signers) => HandleWithdrawExcess(s, env, src, dst, auth, signers)
    case CreateNativeMint(payer) => HandleCreateNativeMint(s, env, payer)
    case InitializeMintExtension(k, x) => HandleInitializeMintExtension(s, env, k, x)
    case InitializeImmutableOwner(k) => HandleInitializeImmutableOwner(s, k)
    case UpdateDefaultState(k, auth, signers, state) => HandleUpdateDefaultState(s, k, auth, signers, state)
    case SetTransferFee(k, auth, signers, bps, max) => HandleSetTransferFee(s, env, k, auth, signers, bps, max)
    case WithdrawWithheldFromMint(m, dst, auth, signers) => HandleWithdrawFromMint(s, m, dst, auth, signers)
    case HarvestToMint(m, sources) => HandleHarvest(s, m, sources)
    case WithdrawWithheldFromAccounts(m, dst, auth, signers, sources) =>
      HandleWithdrawFromAccounts(s, m, dst, auth, signers, sources)
    case ToggleCpiGuard(k, auth, signers, enable) => HandleToggleFlag(s, env, k, auth, signers, true, enable)
    case ToggleMemo(k, auth, signers, enable) => HandleToggleFlag(s, env, k, auth, signers, false, enable)
    case Reallocate(k, payer, auth, signers, kinds) => HandleReallocate(s, env, k, payer, auth, signers, kinds)
  }

  /** One instruction as the runtime runs it: the handler, then the ownership rule on what it changed.
      `CreateNativeMint` and `Reallocate` also invoke the system program on slots it owns, so for them the rule
      stands in the handler, slot by slot. */
  function Execute(s: State, env: Env, ix: Instruction): Result<State, Error> {
    var s' :- Handle(s, env, ix);
    if !ix.CreateNativeMint? && !ix.Reallocate? && !RuntimeAccepts(s, s') then Err(ExternalAccountModified) else
    Ok(s')
  }
}

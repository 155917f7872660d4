/** The rules of the token program, instruction by instruction and slot by slot: what is admitted, in signatures and
    amounts and in no order, and what each slot holds afterwards. `Conformance` proves that the handlers obey them. */
module Rules {
  import opened Base
  import opened TokenState
  import opened Ledger
  import opened Authority
  import opened Handlers
  import opened FeeCollection

  // ---- fees ----

  /** The schedule entry in force: the newer one from its epoch on, the older one before. */
  function InForce(c: FeeConfig, epoch: u64): Fee {
    if epoch < c.newer.epoch then c.older else c.newer
  }

  /** The rate on an amount, in whole tokens, rounded up. */
  function RoundedUp(f: Fee, amount: u64): nat {
    (amount * f.basisPoints + 9_999) / 10_000
  }

  /** That, or the cap. */
  function Due(f: Fee, amount: u64): nat {
    if RoundedUp(f, amount) < f.maximumFee then RoundedUp(f, amount) else f.maximumFee
  }

  /** The fee on a transfer: none unless a mint that charges fees was passed. */
  function FeeOn(s: State, env: Env, checked: Option<Checked>, amount: u64): nat {
    if checked.Some? && FeeMint(Get(s, checked.value.mint))
    then Due(InForce(Get(s, checked.value.mint).data.mintExt.fee.value, env.epoch), amount)
    else 0
  }

  // ---- who may spend ----

  function PermanentOf(slot: Slot): Option<Pubkey> {
    if slot.data.MintData? && slot.data.mintExt.permanentDelegate.Some? then slot.data.mintExt.permanentDelegate.value
    else None
  }

  /** The mint's permanent delegate, else the account's delegate within its allowance, else the owner, unless the
      account is guarded against calls from other programs. */
  predicate MayTake(s: State, env: Env, a: Account, e: AccountExt, permanent: Option<Pubkey>, authority: Info,
                    signers: seq<Info>, amount: u64) {
    if permanent == Some(authority.key) then Consents(s, authority.key, authority, signers)
    else if a.delegate == Some(authority.key)
    then Consents(s, authority.key, authority, signers) && amount <= a.delegatedAmount
    else Consents(s, a.owner, authority, signers) && !(e.cpiGuard == Some(true) && env.inCpi)
  }

  /** What is left of a record when its delegate spent some of the allowance; anyone else leaves it alone. */
  function AllowanceSpent(a: Account, permanent: Option<Pubkey>, key: Pubkey, amount: u64): Account
    requires permanent != Some(key) && a.delegate == Some(key) ==> amount <= a.delegatedAmount
  {
    if permanent != Some(key) && a.delegate == Some(key) then
      a.(delegatedAmount := a.delegatedAmount - amount,
         delegate := if amount == a.delegatedAmount then None else a.delegate)
    else a
  }

  // ---- transfer ----

  function PermanentFor(s: State, checked: Option<Checked>): Option<Pubkey> {
    if checked.Some? then PermanentOf(Get(s, checked.value.mint)) else None
  }

  /** The mint passed is the account's, with the decimals stated and a fee of 64 bits; without a mint the account must
      not withhold fees. */
  predicate TermsHold(s: State, env: Env, source: Pubkey, checked: Option<Checked>, amount: u64)
    requires Get(s, source).data.AccountData?
  {
    var src := Get(s, source);
    match checked
    case None => src.data.accountExt.withheld.None?
    case Some(c) =>
      var slot := Get(s, c.mint);
      && src.data.account.mint == c.mint && c.mint != source && slot.data.MintData?
      && slot.data.mint.decimals == c.decimals
      && (slot.data.mintExt.fee.Some? ==>
            RoundedUp(InForce(slot.data.mintExt.fee.value, env.epoch), amount) <= U64_MAX)
  }

  /** The destination can take the amount less the fee, and withhold the fee. */
  predicate CanReceive(s: State, env: Env, source: Pubkey, destination: Pubkey, amount: u64, fee: nat)
    requires Get(s, source).data.AccountData?
  {
    var src, dst := Get(s, source), Get(s, destination);
    && dst.data.AccountData? && dst.data.account.state != Frozen && dst.data.account.mint == src.data.account.mint
    && (dst.data.accountExt.memo == Some(true) ==> env.memo)
    && fee <= amount && dst.data.account.amount + amount - fee <= U64_MAX
    && (fee > 0 ==> dst.data.accountExt.withheld.Some? && dst.data.accountExt.withheld.value + fee <= U64_MAX)
    && (src.data.account.isNative.Some? ==> amount <= src.lamports && dst.lamports + amount <= U64_MAX)
  }

  predicate AdmitsTransfer(s: State, env: Env, ix: Instruction)
    requires ix.Transfer?
  {
    var src, fee := Get(s, ix.source), FeeOn(s, env, ix.checked, ix.amount);
    && LiveAccount(src) && Live(Get(s, ix.destination))
    && src.data.account.state != Frozen && ix.amount <= src.data.account.amount && !src.data.accountExt.nonTransferable
    && TermsHold(s, env, ix.source, ix.checked, ix.amount)
    && (ix.expectedFee.Some? ==> ix.expectedFee.value == fee)
    && MayTake(s, env, src.data.account, src.data.accountExt, PermanentFor(s, ix.checked), ix.authority, ix.signers,
               ix.amount)
    && (ix.source != ix.destination ==> CanReceive(s, env, ix.source, ix.destination, ix.amount, fee))
  }

  function AfterTransfer(s: State, env: Env, ix: Instruction, k: Pubkey): Slot
    requires ix.Transfer? && AdmitsTransfer(s, env, ix)
  {
    var slot, fee := Get(s, k), FeeOn(s, env, ix.checked, ix.amount);
    var moved := if Get(s, ix.source).data.account.isNative.Some? then ix.amount else 0;
    if ix.source == ix.destination || (k != ix.source && k != ix.destination) then slot
    else if k == ix.source then
      var a := AllowanceSpent(slot.data.account, PermanentFor(s, ix.checked), ix.authority.key, ix.amount);
      slot.(lamports := slot.lamports - moved,
            data := AccountData(a.(amount := a.amount - ix.amount), slot.data.accountExt))
    else
      var b, e := slot.data.account, slot.data.accountExt;
      slot.(lamports := slot.lamports + moved,
            data := AccountData(b.(amount := b.amount + ix.amount - fee),
                                if fee > 0 then e.(withheld := Some(e.withheld.value + fee)) else e))
  }

  // ---- minting and burning ----

  predicate AdmitsMintTo(s: State, ix: Instruction)
    requires ix.MintTo?
  {
    var slot, dst := Get(s, ix.mint), Get(s, ix.destination);
    && LiveAccount(dst) && LiveMint(slot) && dst.data.account.mint == ix.mint
    && dst.data.account.state != Frozen && dst.data.account.isNative.None?
    && (slot.data.mintExt.nonTransferable ==> dst.data.accountExt.immutableOwner)
    && (ix.expectedDecimals.Some? ==> ix.expectedDecimals.value == slot.data.mint.decimals)
    && slot.data.mint.mintAuthority.Some? && Consents(s, slot.data.mint.mintAuthority.value, ix.authority, ix.signers)
    && dst.data.account.amount + ix.amount <= U64_MAX && slot.data.mint.supply + ix.amount <= U64_MAX
  }

  predicate AdmitsBurn(s: State, env: Env, ix: Instruction)
    requires ix.Burn?
  {
    var src, slot := Get(s, ix.source), Get(s, ix.mint);
    && LiveAccount(src) && LiveMint(slot) && src.data.account.mint == ix.mint
    && src.data.account.state != Frozen && src.data.account.isNative.None?
    && ix.amount <= src.data.account.amount && ix.amount <= slot.data.mint.supply
    && (ix.expectedDecimals.Some? ==> ix.expectedDecimals.value == slot.data.mint.decimals)
    && (src.data.account.owner == SYSTEM_PROGRAM || src.data.account.owner == INCINERATOR
        || MayTake(s, env, src.data.account, src.data.accountExt, PermanentOf(slot), ix.authority, ix.signers,
                   ix.amount))
  }

  function AfterMintTo(s: State, ix: Instruction, k: Pubkey): Slot
    requires ix.MintTo? && AdmitsMintTo(s, ix)
  {
    var slot := Get(s, k);
    if k == ix.mint then
      slot.(data := slot.data.(mint := slot.data.mint.(supply := slot.data.mint.supply + ix.amount)))
    else if k == ix.destination then
      slot.(data := slot.data.(account := slot.data.account.(amount := slot.data.account.amount + ix.amount)))
    else slot
  }

  function AfterBurn(s: State, env: Env, ix: Instruction, k: Pubkey): Slot
    requires ix.Burn? && AdmitsBurn(s, env, ix)
  {
    var slot := Get(s, k);
    if k == ix.mint then
      slot.(data := slot.data.(mint := slot.data.mint.(supply := slot.data.mint.supply - ix.amount)))
    else if k == ix.source then
      var unowned := slot.data.account.owner == SYSTEM_PROGRAM || slot.data.account.owner == INCINERATOR;
      var a := if unowned then slot.data.account
               else AllowanceSpent(slot.data.account, PermanentOf(Get(s, ix.mint)), ix.authority.key, ix.amount);
      slot.(data := slot.data.(account := a.(amount := a.amount - ix.amount)))
    else slot
  }

  // ---- delegation and freezing ----

  predicate AdmitsApprove(s: State, env: Env, ix: Instruction)
    requires ix.Approve?
  {
    var src := Get(s, ix.source);
    && src.data.AccountData? && src.data.account.state != Frozen
    && (ix.checked.Some? ==>
          var slot := Get(s, ix.checked.value.mint);
          && src.data.account.mint == ix.checked.value.mint && ix.checked.value.mint != ix.source
          && slot.data.MintData? && slot.data.mint.decimals == ix.checked.value.decimals)
    && Consents(s, src.data.account.owner, ix.authority, ix.signers)
    && !(src.data.accountExt.cpiGuard == Some(true) && env.inCpi)
  }

  predicate AdmitsRevoke(s: State, ix: Instruction)
    requires ix.Revoke?
  {
    var src := Get(s, ix.source);
    && src.data.AccountData? && src.data.account.state != Frozen
    && (Consents(s, src.data.account.owner, ix.authority, ix.signers)
        || (src.data.account.delegate == Some(ix.authority.key)
            && Consents(s, ix.authority.key, ix.authority, ix.signers)))
  }

  predicate AdmitsToggleFreeze(s: State, ix: Instruction)
    requires ix.ToggleFreeze?
  {
    var src, slot := Get(s, ix.source), Get(s, ix.mint);
    && src.data.AccountData? && slot.data.MintData? && src.data.account.mint == ix.mint
    && src.data.account.isNative.None? && (if ix.freeze then src.data.account.state != Frozen
                                           else src.data.account.state == Frozen)
    && slot.data.mint.freezeAuthority.Some?
    && Consents(s, slot.data.mint.freezeAuthority.value, ix.authority, ix.signers)
  }

  function AfterDelegation(s: State, ix: Instruction, k: Pubkey): Slot
    requires ix.Approve? || ix.Revoke? || ix.ToggleFreeze?
    requires Get(s, ix.source).data.AccountData?
  {
    var slot := Get(s, k);
    if k != ix.source then slot
    else
      var a := slot.data.account;
      var b := match ix
        case Approve(_, _, delegate, _, _, amount) => a.(delegate := Some(delegate), delegatedAmount := amount)
        case Revoke(_, _, _) => a.(delegate := None, delegatedAmount := 0)
        case _ => a.(state := if ix.freeze then Frozen else Initialized);
      slot.(data := AccountData(b, slot.data.accountExt))
  }

  // ---- authorities ----

  predicate AdmitsAccountAuthority(s: State, env: Env, ix: Instruction)
    requires ix.SetAuthority? && Get(s, ix.target).data.AccountData?
  {
    var a, e := Get(s, ix.target).data.account, Get(s, ix.target).data.accountExt;
    a.state != Frozen &&
    if ix.kind == AccountOwner then
      && Consents(s, a.owner, ix.authority, ix.signers) && !e.immutableOwner && e.cpiGuard != Some(true)
      && ix.newAuthority.Some?
    else
      && ix.kind == CloseAccountAuthority
      && Consents(s, if a.closeAuthority.Some? then a.closeAuthority.value else a.owner, ix.authority, ix.signers)
      && !(e.cpiGuard == Some(true) && env.inCpi && ix.newAuthority.Some?)
  }

  /** The key a mint holds under an authority type: nothing if it has no such place, or the place is empty. */
  function MintKey(data: Data, kind: AuthorityType): Option<Pubkey>
    requires data.MintData?
  {
    var e := data.mintExt;
    match kind
    case MintTokens => data.mint.mintAuthority
    case FreezeAccountAuthority => data.mint.freezeAuthority
    case CloseMint => if e.closeAuthority.Some? then e.closeAuthority.value else None
    case TransferFeeConfigAuthority => if e.fee.Some? then e.fee.value.configAuthority else None
    case WithheldWithdraw => if e.fee.Some? then e.fee.value.withdrawAuthority else None
    case PermanentDelegateAuthority => if e.permanentDelegate.Some? then e.permanentDelegate.value else None
    case _ => None
  }

  /** The current key agrees to be replaced; an extension cannot hold the all-zero key. */
  predicate AdmitsMintAuthority(s: State, ix: Instruction)
    requires ix.SetAuthority? && Get(s, ix.target).data.MintData?
  {
    var key := MintKey(Get(s, ix.target).data, ix.kind);
    && key.Some? && Consents(s, key.value, ix.authority, ix.signers)
    && (ix.newAuthority == Some(0) ==> ix.kind == MintTokens || ix.kind == FreezeAccountAuthority)
  }

  function AfterSetAuthority(s: State, ix: Instruction, k: Pubkey): Slot
    requires ix.SetAuthority?
    requires Get(s, ix.target).data.AccountData? && ix.kind == AccountOwner ==> ix.newAuthority.Some?
    requires Get(s, ix.target).data.MintData? ==> MintKey(Get(s, ix.target).data, ix.kind).Some?
  {
    var slot, key := Get(s, k), ix.newAuthority;
    if k != ix.target then slot
    else match slot.data
      case AccountData(a, e) =>
        slot.(data := AccountData(
                if ix.kind == AccountOwner then
                  a.(owner := key.value, delegate := None, delegatedAmount := 0,
                     closeAuthority := if a.isNative.Some? then None else a.closeAuthority)
                else a.(closeAuthority := key), e))
      case MintData(m, e) => slot.(data := AfterMintAuthority(slot.data, ix.kind, key))
      case _ => slot
  }

  /** One key replaced, everything else of the mint as it was. */
  function AfterMintAuthority(data: Data, kind: AuthorityType, key: Option<Pubkey>): Data
    requires data.MintData? && MintKey(data, kind).Some?
  {
    var m, e := data.mint, data.mintExt;
    match kind
    case MintTokens => MintData(m.(mintAuthority := key), e)
    case FreezeAccountAuthority => MintData(m.(freezeAuthority := key), e)
    case CloseMint => MintData(m, e.(closeAuthority := Some(key)))
    case TransferFeeConfigAuthority => MintData(m, e.(fee := Some(e.fee.value.(configAuthority := key))))
    case WithheldWithdraw => MintData(m, e.(fee := Some(e.fee.value.(withdrawAuthority := key))))
    case _ => MintData(m, e.(permanentDelegate := Some(key)))
  }

  // ---- lamports ----

  predicate AdmitsClose(s: State, env: Env, ix: Instruction)
    requires ix.CloseAccount?
  {
    var src, dst := Get(s, ix.source), Get(s, ix.destination);
    && ix.source != ix.destination && dst.lamports + src.lamports <= U64_MAX
    && match src.data
       case AccountData(a, e) =>
         && (a.isNative.Some? || a.amount == 0) && (e.withheld.None? || e.withheld.value == 0)
         && (if a.owner == SYSTEM_PROGRAM || a.owner == INCINERATOR then ix.destination == INCINERATOR
             else && Consents(s, if a.closeAuthority.Some? then a.closeAuthority.value else a.owner, ix.authority,
                              ix.signers)
                  && (e.cpiGuard == Some(true) && env.inCpi ==> ix.destination == a.owner))
       case MintData(m, e) =>
         && m.supply == 0 && e.closeAuthority.Some? && e.closeAuthority.value.Some?
         && Consents(s, e.closeAuthority.value.value, ix.authority, ix.signers)
       case _ => false
  }

  function AfterClose(s: State, ix: Instruction, k: Pubkey): Slot
    requires ix.CloseAccount? && Get(s, ix.destination).lamports + Get(s, ix.source).lamports <= U64_MAX
  {
    if k == ix.source then Slot(0, SYSTEM_PROGRAM, 0, Blank(NoExtension))
    else if k == ix.destination then Get(s, k).(lamports := Get(s, k).lamports + Get(s, ix.source).lamports)
    else Get(s, k)
  }

  /** A live native account whose lamports cover its reserve and its amount. */
  predicate AdmitsSync(s: State, ix: Instruction)
    requires ix.SyncNative?
  {
    var slot := Get(s, ix.account);
    && LiveAccount(slot) && slot.data.account.isNative.Some?
    && slot.data.account.isNative.value + slot.data.account.amount <= slot.lamports
  }

  function AfterSync(s: State, ix: Instruction, k: Pubkey): Slot
    requires ix.SyncNative? && AdmitsSync(s, ix)
  {
    var slot := Get(s, k);
    if k != ix.account then slot
    else slot.(data := slot.data.(account :=
                 slot.data.account.(amount := slot.lamports - slot.data.account.isNative.value)))
  }

  /** The owner of an account that is not native, the mint authority, or a multisig for itself. */
  predicate ReleasesExcess(s: State, source: Pubkey, authority: Info, signers: seq<Info>) {
    var slot := Get(s, source);
    match slot.data
    case AccountData(a, _) => a.isNative.None? && Consents(s, a.owner, authority, signers)
    case MintData(m, _) => m.mintAuthority.Some? && Consents(s, m.mintAuthority.value, authority, signers)
    case _ => slot.len == MULTISIG_LEN && Consents(s, source, authority, signers)
  }

  predicate AdmitsExcess(s: State, env: Env, ix: Instruction)
    requires ix.WithdrawExcessLamports?
  {
    var src, dst := Get(s, ix.source), Get(s, ix.destination);
    && ReleasesExcess(s, ix.source, ix.authority, ix.signers) && env.rent(src.len) <= src.lamports
    && (ix.source != ix.destination ==> dst.lamports + src.lamports - env.rent(src.len) <= U64_MAX)
  }

  function AfterExcess(s: State, env: Env, ix: Instruction, k: Pubkey): Slot
    requires ix.WithdrawExcessLamports? && AdmitsExcess(s, env, ix)
  {
    var src, slot := Get(s, ix.source), Get(s, k);
    if ix.source == ix.destination then slot
    else if k == ix.source then slot.(lamports := env.rent(src.len))
    else if k == ix.destination then slot.(lamports := slot.lamports + src.lamports - env.rent(src.len))
    else slot
  }

  /** A signing system account without data pays `amount` to another slot. */
  predicate CanPay(s: State, payer: Info, to: Pubkey, amount: int) {
    var from := Get(s, payer.key);
    && payer.isSigner && payer.key != to && from.owner == SYSTEM_PROGRAM && from.len == 0 && amount <= from.lamports
    && Get(s, to).lamports + amount <= U64_MAX
  }

  function Lacking(reserve: int, have: int): nat { if reserve > have then reserve - have else 0 }

  predicate AdmitsCreateNativeMint(s: State, env: Env, ix: Instruction)
    requires ix.CreateNativeMint?
  {
    var slot := Get(s, NATIVE_MINT);
    && slot.owner == SYSTEM_PROGRAM && slot.len == 0
    && CanPay(s, ix.payer, NATIVE_MINT, Lacking(env.rent(82), slot.lamports))
  }

  /** The native mint: nine decimals, nobody's, rent-exempt. */
  function AfterCreateNativeMint(s: State, env: Env, ix: Instruction, k: Pubkey): Slot
    requires ix.CreateNativeMint? && AdmitsCreateNativeMint(s, env, ix)
  {
    var slot, paid := Get(s, k), Lacking(env.rent(82), Get(s, NATIVE_MINT).lamports);
    if k == NATIVE_MINT then
      Slot(slot.lamports + paid, TOKEN_PROGRAM, 82,
           MintData(Mint(None, 0, 9, true, None), MintExt(None, None, None, false, None)))
    else if k == ix.payer.key then slot.(lamports := slot.lamports - paid)
    else slot
  }

  /** The length an account grows to, if it is too short for what it has and what is asked for. */
  predicate Grows(s: State, ix: Instruction)
    requires ix.Reallocate? && Get(s, ix.account).data.AccountData?
  {
    Get(s, ix.account).len < NeededLen(Get(s, ix.account).data.accountExt, ix.requested)
  }

  /** Lamports beyond the tokens a native account stands for. */
  function Free(slot: Slot): int
    requires slot.data.AccountData?
  {
    slot.lamports - if slot.data.account.isNative.Some? then slot.data.account.amount else 0
  }

  predicate AdmitsReallocate(s: State, env: Env, ix: Instruction)
    requires ix.Reallocate?
  {
    var slot := Get(s, ix.account);
    && slot.data.AccountData? && NotForAccounts !in ix.requested
    && Consents(s, slot.data.account.owner, ix.authority, ix.signers)
    && (Grows(s, ix) ==>
          var needed := NeededLen(slot.data.accountExt, ix.requested);
          var lacking := Lacking(env.rent(needed), Free(slot));
          && Live(slot) && needed > ACCOUNT_LEN + 1 && Free(slot) >= 0
          && (lacking > 0 ==> CanPay(s, ix.payer, ix.account, lacking))
          && (slot.data.account.isNative.Some? ==> env.rent(needed) + slot.data.account.amount <= U64_MAX))
  }

  function AfterReallocate(s: State, env: Env, ix: Instruction, k: Pubkey): Slot
    requires ix.Reallocate? && AdmitsReallocate(s, env, ix)
  {
    var slot, target := Get(s, k), Get(s, ix.account);
    if !Grows(s, ix) then slot
    else
      var needed := NeededLen(target.data.accountExt, ix.requested);
      var lacking := Lacking(env.rent(needed), Free(target));
      if k == ix.account then
        var a := slot.data.account;
        Slot(slot.lamports + lacking, slot.owner, needed,
             AccountData(if a.isNative.Some? then a.(isNative := Some(env.rent(needed))) else a, slot.data.accountExt))
      else if k == ix.payer.key && lacking > 0 then slot.(lamports := slot.lamports - lacking)
      else slot
  }

  // ---- initialisation ----

  function PendingMint(slot: Slot): MintExt {
    if slot.data.Blank? && slot.data.pending.ForMint? then slot.data.pending.mintExt
    else MintExt(None, None, None, false, None)
  }

  function PendingAccount(slot: Slot): AccountExt {
    if slot.data.Blank? && slot.data.pending.ForAccount? then slot.data.pending.accountExt
    else AccountExt(None, false, false, None, None)
  }

  /** A zeroed slot of a length a mint can have, with nothing of an account in it. */
  predicate BlankMint(slot: Slot) {
    slot.data.Blank? && !slot.data.pending.ForAccount? && slot.len != 355 && (slot.len == 82 || slot.len > 166)
  }

  predicate BlankAccount(slot: Slot) {
    slot.data.Blank? && !slot.data.pending.ForMint? && slot.len != 355 && (slot.len == 165 || slot.len > 166)
  }

  predicate AdmitsInitializeMint(s: State, env: Env, ix: Instruction)
    requires ix.InitializeMint?
  {
    var slot := Get(s, ix.mint);
    && BlankMint(slot) && env.rent(slot.len) <= slot.lamports
    && RequiredLen(MINT_LEN, MintTlv(PendingMint(slot))) == slot.len
    && (PendingMint(slot).defaultState == Some(Frozen) ==> ix.freezeAuthority.Some?)
  }

  function AfterInitializeMint(s: State, ix: Instruction, k: Pubkey): Slot
    requires ix.InitializeMint?
  {
    var slot := Get(s, k);
    if k != ix.mint then slot
    else slot.(data := MintData(Mint(Some(ix.mintAuthority), 0, ix.decimals, true, ix.freezeAuthority),
                                PendingMint(slot)))
  }

  /** The extensions of an account with those its mint calls for. */
  function UnderMint(e: AccountExt, mintExt: MintExt): AccountExt {
    AccountExt(if mintExt.fee.Some? then Some(0) else e.withheld, e.immutableOwner,
               e.nonTransferable || mintExt.nonTransferable, e.cpiGuard, e.memo)
  }

  predicate AdmitsInitializeAccount(s: State, env: Env, ix: Instruction)
    requires ix.InitializeAccount?
  {
    var slot, mint := Get(s, ix.account), Get(s, ix.mint);
    && BlankAccount(slot) && env.rent(slot.len) <= slot.lamports && LiveMint(mint)
    && RequiredLen(ACCOUNT_LEN, AccountTlv(UnderMint(AccountExt(None, false, false, None, None), mint.data.mintExt)))
       <= slot.len
    && HasRoom(slot.len, AccountTlv(UnderMint(PendingAccount(slot), mint.data.mintExt)))
  }

  function AfterInitializeAccount(s: State, env: Env, ix: Instruction, k: Pubkey): Slot
    requires ix.InitializeAccount? && AdmitsInitializeAccount(s, env, ix)
  {
    var slot, mint := Get(s, k), Get(s, ix.mint);
    if k != ix.account then slot
    else
      var state := if mint.data.mintExt.defaultState.Some? then mint.data.mintExt.defaultState.value else Initialized;
      var reserve := env.rent(slot.len);
      slot.(data := AccountData(
              if ix.mint == NATIVE_MINT
              then Account(ix.mint, ix.owner, slot.lamports - reserve, None, state, Some(reserve), 0, None)
              else Account(ix.mint, ix.owner, 0, None, state, None, 0, None),
              UnderMint(PendingAccount(slot), mint.data.mintExt)))
  }

  predicate AdmitsInitializeMultisig(s: State, env: Env, ix: Instruction)
    requires ix.InitializeMultisig?
  {
    var slot := Get(s, ix.multisig);
    && slot.len == 355 && slot.data == Blank(NoExtension) && env.rent(slot.len) <= slot.lamports
    && 1 <= |ix.signerKeys| <= 11 && 1 <= ix.m <= 11
  }

  function AfterInitializeMultisig(s: State, env: Env, ix: Instruction, k: Pubkey): Slot
    requires ix.InitializeMultisig? && AdmitsInitializeMultisig(s, env, ix)
  {
    var slot := Get(s, k);
    if k != ix.multisig then slot
    else slot.(data := MultisigData(Multisig(ix.m, |ix.signerKeys|, true,
                 seq(11, i requires 0 <= i < 11 => if i < |ix.signerKeys| then ix.signerKeys[i] else 0))))
  }

  /** The extension has room, its keys are not all-zero, a rate is at most the whole, a default state is one. */
  predicate LegalExtension(x: MintExtension) {
    match x
    case WithCloseAuthority(key) => key != Some(0)
    case WithNonTransferable => true
    case WithPermanentDelegate(key) => key != 0
    case WithTransferFee(config, withdraw, rate, _) => config != Some(0) && withdraw != Some(0) && rate <= 10_000
    case WithDefaultState(state) => state != Uninitialized
  }

  function Extended(env: Env, e: MintExt, x: MintExtension): MintExt {
    match x
    case WithCloseAuthority(key) => e.(closeAuthority := Some(key))
    case WithNonTransferable => e.(nonTransferable := true)
    case WithPermanentDelegate(key) => e.(permanentDelegate := Some(Some(key)))
    case WithTransferFee(config, withdraw, rate, cap) =>
      e.(fee := Some(FeeConfig(config, withdraw, 0, Fee(env.epoch, cap, rate), Fee(env.epoch, cap, rate))))
    case WithDefaultState(state) => e.(defaultState := Some(state))
  }

  predicate AdmitsExtension(s: State, env: Env, ix: Instruction)
    requires ix.InitializeMintExtension? || ix.InitializeImmutableOwner?
  {
    match ix
    case InitializeMintExtension(k, x) =>
      var slot := Get(s, k);
      && BlankMint(slot) && LegalExtension(x) && HasRoom(slot.len, MintTlv(Extended(env, PendingMint(slot), x)))
    case InitializeImmutableOwner(k) =>
      var slot := Get(s, k);
      && BlankAccount(slot) && HasRoom(slot.len, AccountTlv(PendingAccount(slot).(immutableOwner := true)))
  }

  function AfterExtension(s: State, env: Env, ix: Instruction, k: Pubkey): Slot
    requires ix.InitializeMintExtension? || ix.InitializeImmutableOwner?
  {
    var slot := Get(s, k);
    match ix
    case InitializeMintExtension(m, x) =>
      if k == m then slot.(data := Blank(ForMint(Extended(env, PendingMint(slot), x)))) else slot
    case InitializeImmutableOwner(a) =>
      if k == a then slot.(data := Blank(ForAccount(PendingAccount(slot).(immutableOwner := true)))) else slot
  }

  // ---- updates of extensions ----

  predicate AdmitsUpdate(s: State, env: Env, ix: Instruction)
    requires ix.UpdateDefaultState? || ix.SetTransferFee? || ix.ToggleCpiGuard? || ix.ToggleMemo?
  {
    match ix
    case UpdateDefaultState(m, authority, signers, state) =>
      var slot := Get(s, m);
      && slot.data.MintData? && slot.data.mintExt.defaultState.Some? && state != Uninitialized
      && slot.data.mint.freezeAuthority.Some? && Consents(s, slot.data.mint.freezeAuthority.value, authority, signers)
    case SetTransferFee(m, authority, signers, rate, _) =>
      var slot := Get(s, m);
      && FeeMint(slot) && rate <= 10_000 && slot.data.mintExt.fee.value.configAuthority.Some?
      && Consents(s, slot.data.mintExt.fee.value.configAuthority.value, authority, signers)
    case ToggleCpiGuard(a, authority, signers, enable) =>
      var slot := Get(s, a);
      && slot.data.AccountData? && Consents(s, slot.data.account.owner, authority, signers) && !env.inCpi
      && (slot.data.accountExt.cpiGuard.Some?
          || HasRoom(slot.len, AccountTlv(slot.data.accountExt.(cpiGuard := Some(enable)))))
    case ToggleMemo(a, authority, signers, enable) =>
      var slot := Get(s, a);
      && slot.data.AccountData? && Consents(s, slot.data.account.owner, authority, signers)
      && (slot.data.accountExt.memo.Some?
          || HasRoom(slot.len, AccountTlv(slot.data.accountExt.(memo := Some(enable)))))
  }

  /** Two epochs on, unless the clock ends before. */
  function TwoEpochsOn(epoch: u64): u64 { if epoch + 2 <= U64_MAX then epoch + 2 else U64_MAX }

  function AfterUpdate(s: State, env: Env, ix: Instruction, k: Pubkey): Slot
    requires ix.UpdateDefaultState? || ix.SetTransferFee? || ix.ToggleCpiGuard? || ix.ToggleMemo?
    requires AdmitsUpdate(s, env, ix)
  {
    var slot := Get(s, k);
    match ix
    case UpdateDefaultState(m, _, _, state) =>
      if k != m then slot else slot.(data := slot.data.(mintExt := slot.data.mintExt.(defaultState := Some(state))))
    case SetTransferFee(m, _, _, rate, cap) =>
      if k != m then slot
      else
        var c := slot.data.mintExt.fee.value;
        var next := FeeConfig(c.configAuthority, c.withdrawAuthority, c.withheld, InForce(c, env.epoch),
                              Fee(TwoEpochsOn(env.epoch), cap, rate));
        slot.(data := slot.data.(mintExt := slot.data.mintExt.(fee := Some(next))))
    case ToggleCpiGuard(a, _, _, enable) =>
      if k != a then slot
      else slot.(data := slot.data.(accountExt := slot.data.accountExt.(cpiGuard := Some(enable))))
    case ToggleMemo(a, _, _, enable) =>
      if k != a then slot else slot.(data := slot.data.(accountExt := slot.data.accountExt.(memo := Some(enable))))
  }

  // ---- fees collected ----

  predicate MayWithdraw(s: State, mint: Pubkey, destination: Pubkey, authority: Info, signers: seq<Info>) {
    var slot, dst := Get(s, mint), Get(s, destination);
    && LiveMint(slot) && FeeMint(slot) && slot.data.mintExt.fee.value.withdrawAuthority.Some?
    && Consents(s, slot.data.mintExt.fee.value.withdrawAuthority.value, authority, signers)
    && dst.data.AccountData? && dst.data.account.mint == mint && dst.data.account.state != Frozen
  }

  ghost predicate AdmitsFees(s: State, ix: Instruction)
    requires ix.HarvestToMint? || ix.WithdrawWithheldFromMint? || ix.WithdrawWithheldFromAccounts?
  {
    match ix
    case HarvestToMint(m, sources) =>
      && FeeMint(Get(s, m)) && m !in sources
      && Get(s, m).data.mintExt.fee.value.withheld + Takings(s, m, sources) <= U64_MAX
    case WithdrawWithheldFromMint(m, destination, authority, signers) =>
      && MayWithdraw(s, m, destination, authority, signers)
      && Get(s, destination).data.account.amount + Get(s, m).data.mintExt.fee.value.withheld <= U64_MAX
    case WithdrawWithheldFromAccounts(m, destination, authority, signers, sources) =>
      && MayWithdraw(s, m, destination, authority, signers) && Clean(s, m, destination, sources)
      && Get(s, destination).data.account.amount + Gathered(s, m, destination, sources) <= U64_MAX
  }

  ghost function AfterFees(s: State, ix: Instruction, k: Pubkey): Slot
    requires ix.HarvestToMint? || ix.WithdrawWithheldFromMint? || ix.WithdrawWithheldFromAccounts?
    requires AdmitsFees(s, ix)
  {
    var slot := Get(s, k);
    match ix
    case HarvestToMint(m, sources) =>
      if k == m then WithWithheld(slot, Takings(s, m, sources), true)
      else if k in sources then WithoutFees(slot, m) else slot
    case WithdrawWithheldFromMint(m, destination, _, _) =>
      if k == m then WithWithheld(slot, 0, false)
      else if k == destination then WithAmount(slot, Get(s, m).data.mintExt.fee.value.withheld)
      else slot
    case WithdrawWithheldFromAccounts(m, destination, _, _, sources) =>
      if k == destination then
        WithAmount(if k in sources then WithoutOwnFees(slot) else slot, Gathered(s, m, destination, sources))
      else if k in sources then WithoutFees(slot, m) else slot
  }

  /** The mint with that many fees, on top of those it has or instead. */
  ghost function WithWithheld(slot: Slot, fees: int, more: bool): Slot {
    if !FeeMint(slot) then slot
    else
      var c := slot.data.mintExt.fee.value;
      var total := fees + if more then c.withheld else 0;
      if total < 0 || total > U64_MAX then slot
      else slot.(data := slot.data.(mintExt := slot.data.mintExt.(fee := Some(c.(withheld := total)))))
  }

  /** An account of the mint without the fees withheld in it. */
  function WithoutFees(slot: Slot, mint: Pubkey): Slot {
    if LiveAccount(slot) && slot.data.account.mint == mint && slot.data.accountExt.withheld.Some?
    then WithoutOwnFees(slot) else slot
  }

  function WithoutOwnFees(slot: Slot): Slot {
    if slot.data.AccountData? then slot.(data := slot.data.(accountExt := slot.data.accountExt.(withheld := Some(0))))
    else slot
  }

  ghost function WithAmount(slot: Slot, more: int): Slot {
    if !slot.data.AccountData? || slot.data.account.amount + more < 0 || slot.data.account.amount + more > U64_MAX
    then slot
    else slot.(data := slot.data.(account := slot.data.account.(amount := slot.data.account.amount + more)))
  }

  // ---- every instruction ----

  /** What the program admits. */
  ghost predicate Admits(s: State, env: Env, ix: Instruction) {
    match ix
    case Transfer(_, _, _, _, _, _, _) => AdmitsTransfer(s, env, ix)
    case MintTo(_, _, _, _, _, _) => AdmitsMintTo(s, ix)
    case Burn(_, _, _, _, _, _) => AdmitsBurn(s, env, ix)
    case Approve(_, _, _, _, _, _) => AdmitsApprove(s, env, ix)
    case Revoke(_, _, _) => AdmitsRevoke(s, ix)
    case ToggleFreeze(_, _, _, _, _) => AdmitsToggleFreeze(s, ix)
    case SetAuthority(k, _, _, _, _) =>
      if Get(s, k).data.AccountData? then AdmitsAccountAuthority(s, env, ix)
      else Get(s, k).data.MintData? && AdmitsMintAuthority(s, ix)
    case CloseAccount(_, _, _, _) => AdmitsClose(s, env, ix)
    case SyncNative(_) => AdmitsSync(s, ix)
    case WithdrawExcessLamports(_, _, _, _) => AdmitsExcess(s, env, ix)
    case CreateNativeMint(_) => AdmitsCreateNativeMint(s, env, ix)
    case Reallocate(_, _, _, _, _) => AdmitsReallocate(s, env, ix)
    case InitializeMint(_, _, _, _) => AdmitsInitializeMint(s, env, ix)
    case InitializeAccount(_, _, _) => AdmitsInitializeAccount(s, env, ix)
    case InitializeMultisig(_, _, _) => AdmitsInitializeMultisig(s, env, ix)
    case InitializeMintExtension(_, _) => AdmitsExtension(s, env, ix)
    case InitializeImmutableOwner(_) => AdmitsExtension(s, env, ix)
    case UpdateDefaultState(_, _, _, _) => AdmitsUpdate(s, env, ix)
    case SetTransferFee(_, _, _, _, _) => AdmitsUpdate(s, env, ix)
    case ToggleCpiGuard(_, _, _, _) => AdmitsUpdate(s, env, ix)
    case ToggleMemo(_, _, _, _) => AdmitsUpdate(s, env, ix)
    case HarvestToMint(_, _) => AdmitsFees(s, ix)
    case WithdrawWithheldFromMint(_, _, _, _) => AdmitsFees(s, ix)
    case WithdrawWithheldFromAccounts(_, _, _, _, _) => AdmitsFees(s, ix)
  }

  /** What slot `k` holds after an admitted instruction. */
  ghost function After(s: State, env: Env, ix: Instruction, k: Pubkey): Slot
    requires Admits(s, env, ix)
  {
    match ix
    case Transfer(_, _, _, _, _, _, _) => AfterTransfer(s, env, ix, k)
    case MintTo(_, _, _, _, _, _) => AfterMintTo(s, ix, k)
    case Burn(_, _, _, _, _, _) => AfterBurn(s, env, ix, k)
    case Approve(_, _, _, _, _, _) => AfterDelegation(s, ix, k)
    case Revoke(_, _, _) => AfterDelegation(s, ix, k)
    case ToggleFreeze(_, _, _, _, _) => AfterDelegation(s, ix, k)
    case SetAuthority(_, _, _, _, _) => AfterSetAuthority(s, ix, k)
    case CloseAccount(_, _, _, _) => AfterClose(s, ix, k)
    case SyncNative(_) => AfterSync(s, ix, k)
    case WithdrawExcessLamports(_, _, _, _) => AfterExcess(s, env, ix, k)
    case CreateNativeMint(_) => AfterCreateNativeMint(s, env, ix, k)
    case Reallocate(_, _, _, _, _) => AfterReallocate(s, env, ix, k)
    case InitializeMint(_, _, _, _) => AfterInitializeMint(s, ix, k)
    case InitializeAccount(_, _, _) => AfterInitializeAccount(s, env, ix, k)
    case InitializeMultisig(_, _, _) => AfterInitializeMultisig(s, env, ix, k)
    case InitializeMintExtension(_, _) => AfterExtension(s, env, ix, k)
    case InitializeImmutableOwner(_) => AfterExtension(s, env, ix, k)
    case UpdateDefaultState(_, _, _, _) => AfterUpdate(s, env, ix, k)
    case SetTransferFee(_, _, _, _, _) => AfterUpdate(s, env, ix, k)
    case ToggleCpiGuard(_, _, _, _) => AfterUpdate(s, env, ix, k)
    case ToggleMemo(_, _, _, _) => AfterUpdate(s, env, ix, k)
    case HarvestToMint(_, _) => AfterFees(s, ix, k)
    case WithdrawWithheldFromMint(_, _, _, _) => AfterFees(s, ix, k)
    case WithdrawWithheldFromAccounts(_, _, _, _, _) => AfterFees(s, ix, k)
  }
}

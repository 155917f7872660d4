/** Every handler obeys its rule: it accepts exactly what the rule admits, and leaves in every slot what the rule
    says. */
module Conformance {
  import opened Base
  import opened TokenState
  import opened TransferFees
  import opened Ledger
  import opened Authority
  import opened Handlers
  import opened FeeCollection
  import opened Rules

  /** The result of a handler is what the rules say of the instruction. */
  ghost predicate Obeys(s: State, env: Env, ix: Instruction, r: Result<State, Error>) {
    && (r.Ok? <==> Admits(s, env, ix))
    && (r.Ok? ==> forall k: Pubkey :: Get(r.value, k) == After(s, env, ix, k))
  }

  lemma EntryAgrees(c: FeeConfig, epoch: u64)
    ensures EpochFee(c, epoch) == InForce(c, epoch)
  {}

  lemma FeeAgrees(s: State, env: Env, checked: Option<Checked>, amount: u64)
    requires checked.Some? && FeeMint(Get(s, checked.value.mint))
    ensures var c := Get(s, checked.value.mint).data.mintExt.fee.value;
            && (CalculateEpochFee(c, env.epoch, amount).Some? <==> RoundedUp(InForce(c, env.epoch), amount) <= U64_MAX)
            && (CalculateEpochFee(c, env.epoch, amount).Some? ==>
                  CalculateEpochFee(c, env.epoch, amount).value == FeeOn(s, env, checked, amount))
  {
    var f := InForce(Get(s, checked.value.mint).data.mintExt.fee.value, env.epoch);
    EntryAgrees(Get(s, checked.value.mint).data.mintExt.fee.value, env.epoch);
    if f.basisPoints == 0 || amount == 0 { assert amount * f.basisPoints == 0; }
  }

  lemma TermsAgree(s: State, env: Env, ix: Instruction)
    requires ix.Transfer? && Get(s, ix.source).data.AccountData?
    ensures var src := Get(s, ix.source);
            var r := TransferTerms(s, env, ix.source, src.data.account, src.data.accountExt, ix.checked, ix.amount);
            && (r.Ok? <==> TermsHold(s, env, ix.source, ix.checked, ix.amount))
            && (r.Ok? ==> r.value.fee == FeeOn(s, env, ix.checked, ix.amount)
                          && r.value.permanent == PermanentFor(s, ix.checked))
  {
    if ix.checked.Some? && FeeMint(Get(s, ix.checked.value.mint)) { FeeAgrees(s, env, ix.checked, ix.amount); }
  }

  lemma AuthoriseAgrees(s: State, env: Env, a: Account, e: AccountExt, permanent: Option<Pubkey>, authority: Info,
                        signers: seq<Info>, amount: u64, spend: bool, blocked: Error)
    ensures var r := Authorise(s, env, a, e, permanent, authority, signers, amount, spend, blocked);
            && (r.Ok? <==> MayTake(s, env, a, e, permanent, authority, signers, amount))
            && (r.Ok? ==> r.value == if spend then AllowanceSpent(a, permanent, authority.key, amount) else a)
  {
    AllValidated(s, authority, signers);
  }

  lemma CreditAgrees(s: State, env: Env, source: Pubkey, destination: Pubkey, a: Account, amount: u64, fee: u64)
    requires Get(s, source).data.AccountData? && source != destination && amount <= a.amount
    requires var b := Get(s, source).data.account; a == b.(delegate := a.delegate, delegatedAmount := a.delegatedAmount)
    ensures Credit(s, env, source, destination, a, amount, fee).Ok? <==>
            CanReceive(s, env, source, destination, amount, fee)
  {}

  lemma TransferObeys(s: State, env: Env, ix: Instruction)
    requires ix.Transfer?
    ensures Obeys(s, env, ix, HandleTransfer(s, env, ix.source, ix.checked, ix.destination, ix.authority, ix.signers,
                                             ix.amount, ix.expectedFee))
  {
    var src := Get(s, ix.source);
    if src.data.AccountData? && ix.amount <= src.data.account.amount {
      TermsAgree(s, env, ix);
      var terms := TransferTerms(s, env, ix.source, src.data.account, src.data.accountExt, ix.checked, ix.amount);
      if terms.Ok? {
        AuthoriseAgrees(s, env, src.data.account, src.data.accountExt, terms.value.permanent, ix.authority, ix.signers,
                        ix.amount, ix.source != ix.destination, CpiGuardTransferBlocked);
        var a := Authorise(s, env, src.data.account, src.data.accountExt, terms.value.permanent, ix.authority,
                           ix.signers, ix.amount, ix.source != ix.destination, CpiGuardTransferBlocked);
        if a.Ok? && ix.source != ix.destination {
          CreditAgrees(s, env, ix.source, ix.destination, a.value, ix.amount, terms.value.fee);
        }
      }
    }
  }

  lemma MintToObeys(s: State, env: Env, ix: Instruction)
    requires ix.MintTo?
    ensures Obeys(s, env, ix, HandleMintTo(s, ix.mint, ix.destination, ix.authority, ix.signers, ix.amount,
                                           ix.expectedDecimals))
  {
    AllValidated(s, ix.authority, ix.signers);
  }

  lemma BurnObeys(s: State, env: Env, ix: Instruction)
    requires ix.Burn?
    ensures Obeys(s, env, ix, HandleBurn(s, env, ix.source, ix.mint, ix.authority, ix.signers, ix.amount,
                                         ix.expectedDecimals))
  {
    var src, slot := Get(s, ix.source), Get(s, ix.mint);
    if src.data.AccountData? && slot.data.MintData? {
      AuthoriseAgrees(s, env, src.data.account, src.data.accountExt, PermanentDelegateOf(slot.data.mintExt),
                      ix.authority, ix.signers, ix.amount, true, CpiGuardBurnBlocked);
    }
  }

  lemma ApproveObeys(s: State, env: Env, ix: Instruction)
    requires ix.Approve?
    ensures Obeys(s, env, ix, HandleApprove(s, env, ix.source, ix.checked, ix.delegate, ix.authority, ix.signers,
                                            ix.amount))
  {
    AllValidated(s, ix.authority, ix.signers);
  }

  lemma RevokeObeys(s: State, env: Env, ix: Instruction)
    requires ix.Revoke?
    ensures Obeys(s, env, ix, HandleRevoke(s, ix.source, ix.authority, ix.signers))
  {
    AllValidated(s, ix.authority, ix.signers);
  }

  lemma ToggleFreezeObeys(s: State, env: Env, ix: Instruction)
    requires ix.ToggleFreeze?
    ensures Obeys(s, env, ix, HandleToggleFreeze(s, ix.source, ix.mint, ix.authority, ix.signers, ix.freeze))
  {
    AllValidated(s, ix.authority, ix.signers);
  }

  lemma SetAuthorityObeys(s: State, env: Env, ix: Instruction)
    requires ix.SetAuthority?
    ensures Obeys(s, env, ix, HandleSetAuthority(s, env, ix.target, ix.authority, ix.signers, ix.kind, ix.newAuthority))
  {
    AllValidated(s, ix.authority, ix.signers);
  }

  lemma CloseObeys(s: State, env: Env, ix: Instruction)
    requires ix.CloseAccount?
    ensures Obeys(s, env, ix, HandleCloseAccount(s, env, ix.source, ix.destination, ix.authority, ix.signers))
  {
    AllValidated(s, ix.authority, ix.signers);
  }

  lemma SyncObeys(s: State, env: Env, ix: Instruction)
    requires ix.SyncNative?
    ensures Obeys(s, env, ix, HandleSyncNative(s, ix.account))
  {}

  lemma ExcessObeys(s: State, env: Env, ix: Instruction)
    requires ix.WithdrawExcessLamports?
    ensures Obeys(s, env, ix, HandleWithdrawExcess(s, env, ix.source, ix.destination, ix.authority, ix.signers))
  {
    AllValidated(s, ix.authority, ix.signers);
  }

  lemma CreateNativeMintObeys(s: State, env: Env, ix: Instruction)
    requires ix.CreateNativeMint?
    ensures Obeys(s, env, ix, HandleCreateNativeMint(s, env, ix.payer))
  {}

  lemma PayAgrees(s: State, payer: Info, to: Pubkey, amount: u64)
    ensures var r := SystemTransfer(s, payer, to, amount);
            && (r.Ok? <==> CanPay(s, payer, to, amount))
            && (r.Ok? ==> forall k: Pubkey ::
                  Get(r.value, k) == if k == to then Get(s, k).(lamports := Get(s, k).lamports + amount)
                                     else if k == payer.key then Get(s, k).(lamports := Get(s, k).lamports - amount)
                                     else Get(s, k))
  {}

  lemma GrowAgrees(s: State, env: Env, ix: Instruction)
    requires ix.Reallocate? && Get(s, ix.account).data.AccountData? && NotForAccounts !in ix.requested
    requires Consents(s, Get(s, ix.account).data.account.owner, ix.authority, ix.signers)
    ensures var r := GrowTo(s, env, ix.account, ix.payer,
                            NeededLen(Get(s, ix.account).data.accountExt, ix.requested));
            && (r.Ok? <==> AdmitsReallocate(s, env, ix))
            && (r.Ok? ==> forall k: Pubkey :: Get(r.value, k) == AfterReallocate(s, env, ix, k))
  {
    var slot := Get(s, ix.account);
    var needed := NeededLen(slot.data.accountExt, ix.requested);
    var missing := Shortfall(slot, env.rent(needed));
    if missing.Ok? && missing.value > 0 { PayAgrees(s, ix.payer, ix.account, missing.value); }
  }

  lemma ReallocateObeys(s: State, env: Env, ix: Instruction)
    requires ix.Reallocate?
    ensures Obeys(s, env, ix, HandleReallocate(s, env, ix.account, ix.payer, ix.authority, ix.signers, ix.requested))
  {
    AllValidated(s, ix.authority, ix.signers);
    var slot := Get(s, ix.account);
    if slot.data.AccountData? && NotForAccounts !in ix.requested
       && Consents(s, slot.data.account.owner, ix.authority, ix.signers) {
      GrowAgrees(s, env, ix);
    }
  }

  lemma InitializeMintObeys(s: State, env: Env, ix: Instruction)
    requires ix.InitializeMint?
    ensures Obeys(s, env, ix, HandleInitializeMint(s, env, ix.mint, ix.decimals, ix.mintAuthority, ix.freezeAuthority))
  {}

  lemma InitializeAccountObeys(s: State, env: Env, ix: Instruction)
    requires ix.InitializeAccount?
    ensures Obeys(s, env, ix, HandleInitializeAccount(s, env, ix.account, ix.mint, ix.owner))
  {}

  lemma InitializeMultisigObeys(s: State, env: Env, ix: Instruction)
    requires ix.InitializeMultisig?
    ensures Obeys(s, env, ix, HandleInitializeMultisig(s, env, ix.multisig, ix.m, ix.signerKeys))
  {
    if 1 <= |ix.signerKeys| <= 11 {
      assert Padded(ix.signerKeys) ==
             seq(11, i requires 0 <= i < 11 => if i < |ix.signerKeys| then ix.signerKeys[i] else 0);
    }
  }

  lemma ExtensionAgrees(env: Env, e: MintExt, x: MintExtension)
    ensures AddMintExtension(env, e, x).Ok? <==> LegalExtension(x)
    ensures AddMintExtension(env, e, x).Ok? ==> AddMintExtension(env, e, x).value == Extended(env, e, x)
  {}

  lemma MintExtensionObeys(s: State, env: Env, ix: Instruction)
    requires ix.InitializeMintExtension?
    ensures Obeys(s, env, ix, HandleInitializeMintExtension(s, env, ix.mint, ix.extension))
  {
    ExtensionAgrees(env, PendingMint(Get(s, ix.mint)), ix.extension);
  }

  lemma ImmutableOwnerObeys(s: State, env: Env, ix: Instruction)
    requires ix.InitializeImmutableOwner?
    ensures Obeys(s, env, ix, HandleInitializeImmutableOwner(s, ix.account))
  {}

  lemma MintUpdateObeys(s: State, env: Env, ix: Instruction)
    requires ix.UpdateDefaultState? || ix.SetTransferFee?
    ensures Obeys(s, env, ix, if ix.UpdateDefaultState? then
                                HandleUpdateDefaultState(s, ix.mint, ix.authority, ix.signers, ix.state)
                              else HandleSetTransferFee(s, env, ix.mint, ix.authority, ix.signers, ix.basisPoints,
                                                        ix.maximumFee))
  {
    AllValidated(s, ix.authority, ix.signers);
  }

  lemma ToggleObeys(s: State, env: Env, ix: Instruction)
    requires ix.ToggleCpiGuard? || ix.ToggleMemo?
    ensures Obeys(s, env, ix, HandleToggleFlag(s, env, ix.account, ix.authority, ix.signers, ix.ToggleCpiGuard?,
                                               ix.enable))
  {
    AllValidated(s, ix.authority, ix.signers);
  }

  // ---- fees ----

  lemma WithdrawAgrees(s: State, mint: Pubkey, destination: Pubkey, authority: Info, signers: seq<Info>)
    ensures WithdrawAllowed(s, mint, destination, authority, signers).Pass? <==>
            MayWithdraw(s, mint, destination, authority, signers)
  {
    AllValidated(s, authority, signers);
  }

  lemma HarvestObeys(s: State, env: Env, ix: Instruction)
    requires ix.HarvestToMint?
    ensures Obeys(s, env, ix, HandleHarvest(s, ix.mint, ix.sources))
  {
    if FeeMint(Get(s, ix.mint)) {
      HarvestSucceeds(s, ix.mint, ix.sources);
      var r := HarvestAll(s, ix.mint, ix.sources);
      if r.Ok? { HarvestExactly(s, ix.mint, ix.sources, r.value); }
    }
  }

  lemma WithdrawFromMintObeys(s: State, env: Env, ix: Instruction)
    requires ix.WithdrawWithheldFromMint?
    ensures Obeys(s, env, ix, HandleWithdrawFromMint(s, ix.mint, ix.destination, ix.authority, ix.signers))
  {
    WithdrawAgrees(s, ix.mint, ix.destination, ix.authority, ix.signers);
  }

  lemma WithdrawFromAccountsObeys(s: State, env: Env, ix: Instruction)
    requires ix.WithdrawWithheldFromAccounts?
    ensures Obeys(s, env, ix, HandleWithdrawFromAccounts(s, ix.mint, ix.destination, ix.authority, ix.signers,
                                                         ix.sources))
  {
    WithdrawAgrees(s, ix.mint, ix.destination, ix.authority, ix.signers);
    if MayWithdraw(s, ix.mint, ix.destination, ix.authority, ix.signers) {
      CollectSucceeds(s, ix.mint, ix.destination, ix.sources);
      var r := CollectAll(s, ix.mint, ix.destination, ix.sources);
      if r.Ok? { CollectExactly(s, ix.mint, ix.destination, ix.sources, r.value); }
    }
  }

  // ---- every instruction ----

  lemma SetupObeys(s: State, env: Env, ix: Instruction)
    requires ix.InitializeMint? || ix.InitializeAccount? || ix.InitializeMultisig? || ix.InitializeMintExtension?
             || ix.InitializeImmutableOwner? || ix.CreateNativeMint? || ix.Reallocate?
    ensures Obeys(s, env, ix, Handle(s, env, ix))
  {
    match ix {
      case InitializeMint(_, _, _, _) => InitializeMintObeys(s, env, ix);
      case InitializeAccount(_, _, _) => InitializeAccountObeys(s, env, ix);
      case InitializeMultisig(_, _, _) => InitializeMultisigObeys(s, env, ix);
      case InitializeMintExtension(_, _) => MintExtensionObeys(s, env, ix);
      case InitializeImmutableOwner(_) => ImmutableOwnerObeys(s, env, ix);
      case CreateNativeMint(_) => CreateNativeMintObeys(s, env, ix);
      case Reallocate(_, _, _, _, _) => ReallocateObeys(s, env, ix);
    }
  }

  lemma ChangeObeys(s: State, env: Env, ix: Instruction)
    requires ix.Approve? || ix.Revoke? || ix.ToggleFreeze? || ix.SetAuthority? || ix.UpdateDefaultState?
             || ix.SetTransferFee? || ix.ToggleCpiGuard? || ix.ToggleMemo?
    ensures Obeys(s, env, ix, Handle(s, env, ix))
  {
    match ix {
      case Approve(_, _, _, _, _, _) => ApproveObeys(s, env, ix);
      case Revoke(_, _, _) => RevokeObeys(s, env, ix);
      case ToggleFreeze(_, _, _, _, _) => ToggleFreezeObeys(s, env, ix);
      case SetAuthority(_, _, _, _, _) => SetAuthorityObeys(s, env, ix);
      case UpdateDefaultState(_, _, _, _) => MintUpdateObeys(s, env, ix);
      case SetTransferFee(_, _, _, _, _) => MintUpdateObeys(s, env, ix);
      case ToggleCpiGuard(_, _, _, _) => ToggleObeys(s, env, ix);
      case ToggleMemo(_, _, _, _) => ToggleObeys(s, env, ix);
    }
  }

  lemma MoveObeys(s: State, env: Env, ix: Instruction)
    requires ix.Transfer? || ix.MintTo? || ix.Burn? || ix.CloseAccount? || ix.SyncNative? || ix.WithdrawExcessLamports?
             || ix.HarvestToMint? || ix.WithdrawWithheldFromMint? || ix.WithdrawWithheldFromAccounts?
    ensures Obeys(s, env, ix, Handle(s, env, ix))
  {
    match ix {
      case Transfer(_, _, _, _, _, _, _) => TransferObeys(s, env, ix);
      case MintTo(_, _, _, _, _, _) => MintToObeys(s, env, ix);
      case Burn(_, _, _, _, _, _) => BurnObeys(s, env, ix);
      case CloseAccount(_, _, _, _) => CloseObeys(s, env, ix);
      case SyncNative(_) => SyncObeys(s, env, ix);
      case WithdrawExcessLamports(_, _, _, _) => ExcessObeys(s, env, ix);
      case HarvestToMint(_, _) => HarvestObeys(s, env, ix);
      case WithdrawWithheldFromMint(_, _, _, _) => WithdrawFromMintObeys(s, env, ix);
      case WithdrawWithheldFromAccounts(_, _, _, _, _) => WithdrawFromAccountsObeys(s, env, ix);
    }
  }

  /** Every instruction, in every state: its handler accepts exactly what its rule admits, and leaves in every slot what
      its rule says. */
  lemma HandlersObey(s: State, env: Env, ix: Instruction)
    ensures Handle(s, env, ix).Ok? <==> Admits(s, env, ix)
    ensures Handle(s, env, ix).Ok? ==> forall k: Pubkey :: Get(Handle(s, env, ix).value, k) == After(s, env, ix, k)
  {
    match ix {
      case Transfer(_, _, _, _, _, _, _) => MoveObeys(s, env, ix);
      case MintTo(_, _, _, _, _, _) => MoveObeys(s, env, ix);
      case Burn(_, _, _, _, _, _) => MoveObeys(s, env, ix);
      case CloseAccount(_, _, _, _) => MoveObeys(s, env, ix);
      case SyncNative(_) => MoveObeys(s, env, ix);
      case WithdrawExcessLamports(_, _, _, _) => MoveObeys(s, env, ix);
      case HarvestToMint(_, _) => MoveObeys(s, env, ix);
      case WithdrawWithheldFromMint(_, _, _, _) => MoveObeys(s, env, ix);
      case WithdrawWithheldFromAccounts(_, _, _, _, _) => MoveObeys(s, env, ix);
      case InitializeMint(_, _, _, _) => SetupObeys(s, env, ix);
      case InitializeAccount(_, _, _) => SetupObeys(s, env, ix);
      case InitializeMultisig(_, _, _) => SetupObeys(s, env, ix);
      case InitializeMintExtension(_, _) => SetupObeys(s, env, ix);
      case InitializeImmutableOwner(_) => SetupObeys(s, env, ix);
      case CreateNativeMint(_) => SetupObeys(s, env, ix);
      case Reallocate(_, _, _, _, _) => SetupObeys(s, env, ix);
      case _ => ChangeObeys(s, env, ix);
    }
  }
}

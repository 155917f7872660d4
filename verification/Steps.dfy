/** Every instruction keeps the invariant and moves no lamport in or out of the ledger. */
module Steps {
  import opened Base
  import opened TokenState
  import opened Ledger
  import opened Handlers
  import opened Invariants

  ghost predicate Kept(s: State, s': State) {
    Inv(s') && TotalLamports(s') == TotalLamports(s)
  }

  /** A change of one slot that leaves its lamports and its books alone. */
  lemma QuietPut(s: State, k: Pubkey, slot: Slot)
    requires Inv(s) && RuntimeAccepts(s, Put(s, k, slot))
    requires slot.lamports == Get(s, k).lamports && slot.owner == Get(s, k).owner
    requires Live(Get(s, k)) ==> SlotOk(k, slot, NativeLive(s))
    requires Live(Get(s, k)) ==> forall m: Pubkey :: m != NATIVE_MINT ==> Delta(k, Get(s, k), slot, m) == 0
    ensures Kept(s, Put(s, k, slot))
  {
    var s' := Put(s, k, slot);
    TotalPut(s, k, slot);
    assert SlotChangeAllowed(Get(s, k), s'[k]);
    assert SlotOk(k, Get(s, k), NativeLive(s));
    OnePut(s, k, slot);
  }

  lemma InitializeMintKeeps(s: State, env: Env, k: Pubkey, decimals: u8, ma: Pubkey, fa: Option<Pubkey>, s': State)
    requires Inv(s) && HandleInitializeMint(s, env, k, decimals, ma, fa) == Ok(s') && RuntimeAccepts(s, s')
    ensures Kept(s, s')
  {
    assert SlotOk(k, Get(s, k), NativeLive(s));
    QuietPut(s, k, s'[k]);
  }

  lemma InitializeAccountKeeps(s: State, env: Env, k: Pubkey, m: Pubkey, owner: Pubkey, s': State)
    requires Inv(s) && HandleInitializeAccount(s, env, k, m, owner) == Ok(s') && RuntimeAccepts(s, s')
    ensures Kept(s, s')
  {
    assert SlotOk(k, Get(s, k), NativeLive(s));
    assert SlotOk(m, Get(s, m), NativeLive(s));
    QuietPut(s, k, s'[k]);
  }

  lemma InitializeMultisigKeeps(s: State, env: Env, k: Pubkey, m: u8, keys: seq<Pubkey>, s': State)
    requires Inv(s) && HandleInitializeMultisig(s, env, k, m, keys) == Ok(s') && RuntimeAccepts(s, s')
    ensures Kept(s, s')
  {
    assert SlotOk(k, Get(s, k), NativeLive(s));
    QuietPut(s, k, s'[k]);
  }

  lemma CreditKeeps(s: State, env: Env, source: Pubkey, destination: Pubkey, a: Account, amount: u64, fee: u64,
                    s': State)
    requires Inv(s) && source != destination
    requires LiveAccount(Get(s, source)) && LiveAccount(Get(s, destination))
    requires a.amount == Get(s, source).data.account.amount >= amount
    requires a == Get(s, source).data.account.(delegate := a.delegate, delegatedAmount := a.delegatedAmount)
    requires a.delegate.None? ==> a.delegatedAmount == 0
    requires Credit(s, env, source, destination, a, amount, fee) == Ok(s')
    ensures Kept(s, s')
  {
    assert SlotOk(source, Get(s, source), NativeLive(s));
    assert SlotOk(destination, Get(s, destination), NativeLive(s));
    TwoPuts(s, source, s'[source], destination, s'[destination]);
  }

  lemma TransferKeeps(s: State, env: Env, source: Pubkey, checked: Option<Checked>, destination: Pubkey,
                      authority: Info, signers: seq<Info>, amount: u64, expectedFee: Option<u64>, s': State)
    requires Inv(s)
    requires HandleTransfer(s, env, source, checked, destination, authority, signers, amount, expectedFee) == Ok(s')
    ensures Kept(s, s')
  {
    assert SlotOk(source, Get(s, source), NativeLive(s));
    if source != destination {
      var src := Get(s, source);
      var terms := TransferTerms(s, env, source, src.data.account, src.data.accountExt, checked, amount).value;
      var a := Authorise(s, env, src.data.account, src.data.accountExt, terms.permanent, authority, signers, amount,
                         true, CpiGuardTransferBlocked).value;
      assert Get(s, destination).data.AccountData?;
      CreditKeeps(s, env, source, destination, a, amount, terms.fee, s');
    }
  }

  lemma MintToKeeps(s: State, mint: Pubkey, destination: Pubkey, authority: Info, signers: seq<Info>, amount: u64,
                    d: Option<u8>, s': State)
    requires Inv(s) && HandleMintTo(s, mint, destination, authority, signers, amount, d) == Ok(s')
    ensures Kept(s, s')
  {
    assert SlotOk(mint, Get(s, mint), NativeLive(s));
    assert SlotOk(destination, Get(s, destination), NativeLive(s));
    TwoPuts(s, mint, s'[mint], destination, s'[destination]);
  }

  lemma BurnKeeps(s: State, env: Env, source: Pubkey, mint: Pubkey, authority: Info, signers: seq<Info>, amount: u64,
                  d: Option<u8>, s': State)
    requires Inv(s) && HandleBurn(s, env, source, mint, authority, signers, amount, d) == Ok(s')
    ensures Kept(s, s')
  {
    assert SlotOk(source, Get(s, source), NativeLive(s));
    assert SlotOk(mint, Get(s, mint), NativeLive(s));
    TwoPuts(s, source, s'[source], mint, s'[mint]);
  }

  lemma ApproveKeeps(s: State, env: Env, source: Pubkey, checked: Option<Checked>, delegate: Pubkey, authority: Info,
                     signers: seq<Info>, amount: u64, s': State)
    requires Inv(s) && HandleApprove(s, env, source, checked, delegate, authority, signers, amount) == Ok(s')
    requires RuntimeAccepts(s, s')
    ensures Kept(s, s')
  {
    assert SlotOk(source, Get(s, source), NativeLive(s));
    QuietPut(s, source, s'[source]);
  }

  lemma RevokeKeeps(s: State, source: Pubkey, authority: Info, signers: seq<Info>, s': State)
    requires Inv(s) && HandleRevoke(s, source, authority, signers) == Ok(s') && RuntimeAccepts(s, s')
    ensures Kept(s, s')
  {
    assert SlotOk(source, Get(s, source), NativeLive(s));
    QuietPut(s, source, s'[source]);
  }

  lemma SetAuthorityKeeps(s: State, env: Env, target: Pubkey, authority: Info, signers: seq<Info>,
                          kind: AuthorityType, newAuthority: Option<Pubkey>, s': State)
    requires Inv(s) && HandleSetAuthority(s, env, target, authority, signers, kind, newAuthority) == Ok(s')
    requires RuntimeAccepts(s, s')
    ensures Kept(s, s')
  {
    assert SlotOk(target, Get(s, target), NativeLive(s));
    QuietPut(s, target, s'[target]);
  }

  lemma CloseKeeps(s: State, env: Env, source: Pubkey, destination: Pubkey, authority: Info, signers: seq<Info>,
                   s': State)
    requires Inv(s) && HandleCloseAccount(s, env, source, destination, authority, signers) == Ok(s')
    requires RuntimeAccepts(s, s')
    ensures Kept(s, s')
  {
    var src := Get(s, source);
    assert SlotOk(source, src, NativeLive(s));
    assert SlotOk(destination, Get(s, destination), NativeLive(s));
    assert SlotChangeAllowed(src, s'[source]);
    if LiveMint(src) && source != NATIVE_MINT {
      WithinSupply(s, source, source);
    }
    TwoPuts(s, destination, s'[destination], source, EMPTY_SLOT);
  }

  lemma ToggleFreezeKeeps(s: State, source: Pubkey, mint: Pubkey, authority: Info, signers: seq<Info>, freeze: bool,
                          s': State)
    requires Inv(s) && HandleToggleFreeze(s, source, mint, authority, signers, freeze) == Ok(s')
    requires RuntimeAccepts(s, s')
    ensures Kept(s, s')
  {
    assert SlotOk(source, Get(s, source), NativeLive(s));
    QuietPut(s, source, s'[source]);
  }

  lemma SyncNativeKeeps(s: State, k: Pubkey, s': State)
    requires Inv(s) && HandleSyncNative(s, k) == Ok(s') && RuntimeAccepts(s, s')
    ensures Kept(s, s')
  {
    assert SlotOk(k, Get(s, k), NativeLive(s));
    QuietPut(s, k, s'[k]);
  }

  lemma WithdrawExcessKeeps(s: State, env: Env, source: Pubkey, destination: Pubkey, authority: Info,
                            signers: seq<Info>, s': State)
    requires Inv(s) && HandleWithdrawExcess(s, env, source, destination, authority, signers) == Ok(s')
    requires RuntimeAccepts(s, s')
    ensures Kept(s, s')
  {
    if source != destination {
      assert SlotOk(source, Get(s, source), NativeLive(s));
      assert SlotOk(destination, Get(s, destination), NativeLive(s));
      TwoPuts(s, source, s'[source], destination, s'[destination]);
    }
  }

  lemma SystemTransferKeeps(s: State, payer: Info, to: Pubkey, amount: u64, s': State)
    requires Inv(s) && SystemTransfer(s, payer, to, amount) == Ok(s')
    ensures Kept(s, s') && NativeLive(s') == NativeLive(s)
  {
    assert SlotOk(payer.key, Get(s, payer.key), NativeLive(s));
    assert SlotOk(to, Get(s, to), NativeLive(s));
    TwoPuts(s, payer.key, s'[payer.key], to, s'[to]);
  }

  lemma CreateNativeMintKeeps(s: State, env: Env, payer: Info, s': State)
    requires Inv(s) && HandleCreateNativeMint(s, env, payer) == Ok(s')
    ensures Kept(s, s')
  {
    var minimum, have := env.rent(MINT_LEN), Get(s, NATIVE_MINT).lamports;
    var s1 := SystemTransfer(s, payer, NATIVE_MINT, if minimum > have then minimum - have else 0).value;
    SystemTransferKeeps(s, payer, NATIVE_MINT, if minimum > have then minimum - have else 0, s1);
    TotalPut(s1, NATIVE_MINT, s'[NATIVE_MINT]);
    OnePut(s1, NATIVE_MINT, s'[NATIVE_MINT]);
  }

  lemma InitializeMintExtensionKeeps(s: State, env: Env, k: Pubkey, x: MintExtension, s': State)
    requires Inv(s) && HandleInitializeMintExtension(s, env, k, x) == Ok(s') && RuntimeAccepts(s, s')
    ensures Kept(s, s')
  {
    assert SlotOk(k, Get(s, k), NativeLive(s));
    QuietPut(s, k, s'[k]);
  }

  lemma InitializeImmutableOwnerKeeps(s: State, k: Pubkey, s': State)
    requires Inv(s) && HandleInitializeImmutableOwner(s, k) == Ok(s') && RuntimeAccepts(s, s')
    ensures Kept(s, s')
  {
    assert SlotOk(k, Get(s, k), NativeLive(s));
    QuietPut(s, k, s'[k]);
  }

  lemma UpdateDefaultStateKeeps(s: State, k: Pubkey, authority: Info, signers: seq<Info>, state: AccountState,
                                s': State)
    requires Inv(s) && HandleUpdateDefaultState(s, k, authority, signers, state) == Ok(s') && RuntimeAccepts(s, s')
    ensures Kept(s, s')
  {
    assert SlotOk(k, Get(s, k), NativeLive(s));
    QuietPut(s, k, s'[k]);
  }

  lemma SetTransferFeeKeeps(s: State, env: Env, k: Pubkey, authority: Info, signers: seq<Info>, bps: u16, max: u64,
                            s': State)
    requires Inv(s) && HandleSetTransferFee(s, env, k, authority, signers, bps, max) == Ok(s')
    requires RuntimeAccepts(s, s')
    ensures Kept(s, s')
  {
    assert SlotOk(k, Get(s, k), NativeLive(s));
    QuietPut(s, k, s'[k]);
  }

  lemma WithdrawFromMintKeeps(s: State, mint: Pubkey, destination: Pubkey, authority: Info, signers: seq<Info>,
                              s': State)
    requires Inv(s) && HandleWithdrawFromMint(s, mint, destination, authority, signers) == Ok(s')
    requires RuntimeAccepts(s, s')
    ensures Kept(s, s')
  {
    assert SlotOk(mint, Get(s, mint), NativeLive(s));
    assert SlotOk(destination, Get(s, destination), NativeLive(s));
    assert SlotChangeAllowed(Get(s, destination), s'[destination]);
    TwoPuts(s, mint, s'[mint], destination, s'[destination]);
  }

  lemma ToggleFlagKeeps(s: State, env: Env, k: Pubkey, authority: Info, signers: seq<Info>, guard: bool, enable: bool,
                        s': State)
    requires Inv(s) && HandleToggleFlag(s, env, k, authority, signers, guard, enable) == Ok(s')
    requires RuntimeAccepts(s, s')
    ensures Kept(s, s')
  {
    assert SlotOk(k, Get(s, k), NativeLive(s));
    QuietPut(s, k, s'[k]);
  }

  lemma ResizeKeeps(s: State, k: Pubkey, needed: nat, reserve: u64, s': State)
    requires Inv(s) && Live(Get(s, k)) && Resize(s, k, needed, reserve) == Ok(s')
    ensures Kept(s, s')
  {
    assert SlotOk(k, Get(s, k), NativeLive(s));
    TotalPut(s, k, s'[k]);
    OnePut(s, k, s'[k]);
  }

  lemma ReallocateKeeps(s: State, env: Env, k: Pubkey, payer: Info, authority: Info, signers: seq<Info>,
                        requested: seq<ExtensionKind>,
                        s': State)
    requires Inv(s) && HandleReallocate(s, env, k, payer, authority, signers, requested) == Ok(s')
    ensures Kept(s, s')
  {
    var slot := Get(s, k);
    var needed := NeededLen(slot.data.accountExt, requested);
    if slot.len < needed {
      var reserve := env.rent(needed);
      var missing := Shortfall(slot, reserve).value;
      if missing > 0 {
        var s1 := SystemTransfer(s, payer, k, missing).value;
        SystemTransferKeeps(s, payer, k, missing, s1);
        ResizeKeeps(s1, k, needed, reserve, s');
      } else {
        ResizeKeeps(s, k, needed, reserve, s');
      }
    }
  }

  // ---- the fee-collecting loops ----

  lemma HarvestOneKeeps(s: State, mint: Pubkey, k: Pubkey, s': State)
    requires Inv(s) && FeeMint(Get(s, mint)) && HarvestOne(s, mint, k) == Ok(s')
    ensures Kept(s, s')
  {
    assert SlotOk(mint, Get(s, mint), NativeLive(s));
    assert SlotOk(k, Get(s, k), NativeLive(s));
    if Harvestable(Get(s, k), mint) {
      WithinSupply(s, k, mint);
      TwoPuts(s, k, s'[k], mint, s'[mint]);
    }
  }

  lemma {:induction false} HarvestAllKeeps(s: State, mint: Pubkey, sources: seq<Pubkey>, s': State)
    requires Inv(s) && FeeMint(Get(s, mint)) && HarvestAll(s, mint, sources) == Ok(s')
    ensures Kept(s, s')
  {
    if sources != [] {
      var front := sources[..|sources| - 1];
      var s1 := HarvestAll(s, mint, front).value;
      HarvestAllKeeps(s, mint, front, s1);
      HarvestOneKeeps(s1, mint, sources[|sources| - 1], s');
    }
  }

  /** The receiver of collected fees: a live account of a live fee mint. */
  predicate Receiving(s: State, mint: Pubkey, destination: Pubkey) {
    && LiveMint(Get(s, mint)) && FeeMint(Get(s, mint)) && destination != mint
    && LiveAccount(Get(s, destination)) && Get(s, destination).data.account.mint == mint
  }

  lemma CollectOneKeeps(s: State, mint: Pubkey, destination: Pubkey, k: Pubkey, s': State)
    requires Inv(s) && Receiving(s, mint, destination) && CollectOne(s, mint, destination, k) == Ok(s')
    ensures Kept(s, s') && Receiving(s', mint, destination)
  {
    assert SlotOk(mint, Get(s, mint), NativeLive(s));
    assert SlotOk(k, Get(s, k), NativeLive(s));
    assert SlotOk(destination, Get(s, destination), NativeLive(s));
    if k == destination {
      TotalPut(s, k, s'[k]);
      OnePut(s, k, s'[k]);
    } else if Harvestable(Get(s, k), mint) {
      TwoPuts(s, k, s'[k], destination, s'[destination]);
    }
  }

  lemma {:induction false} CollectAllKeeps(s: State, mint: Pubkey, destination: Pubkey, sources: seq<Pubkey>, s': State)
    requires Inv(s) && Receiving(s, mint, destination) && CollectAll(s, mint, destination, sources) == Ok(s')
    ensures Kept(s, s') && Receiving(s', mint, destination)
  {
    if sources != [] {
      var front := sources[..|sources| - 1];
      var s1 := CollectAll(s, mint, destination, front).value;
      CollectAllKeeps(s, mint, destination, front, s1);
      CollectOneKeeps(s1, mint, destination, sources[|sources| - 1], s');
    }
  }

  /** Collecting never lowers the receiver's amount, and leaving it as it was means nothing moved. */
  lemma {:induction false} CollectAllGrows(s: State, mint: Pubkey, destination: Pubkey, sources: seq<Pubkey>, s': State)
    requires Get(s, destination).data.AccountData? && CollectAll(s, mint, destination, sources) == Ok(s')
    ensures Get(s', destination).data.account.amount >= Get(s, destination).data.account.amount
    ensures Get(s', destination).data.account.amount == Get(s, destination).data.account.amount ==> s' == s
  {
    if sources != [] {
      var front := sources[..|sources| - 1];
      var s1 := CollectAll(s, mint, destination, front).value;
      CollectAllGrows(s, mint, destination, front, s1);
    }
  }

  lemma WithdrawFromAccountsKeeps(s: State, mint: Pubkey, destination: Pubkey, authority: Info, signers: seq<Info>,
                                  sources: seq<Pubkey>, s': State)
    requires Inv(s) && HandleWithdrawFromAccounts(s, mint, destination, authority, signers, sources) == Ok(s')
    requires RuntimeAccepts(s, s')
    ensures Kept(s, s')
  {
    if Live(Get(s, destination)) {
      CollectAllKeeps(s, mint, destination, sources, s');
    } else {
      CollectAllGrows(s, mint, destination, sources, s');
      if destination in s' { assert SlotChangeAllowed(Get(s, destination), s'[destination]); }
    }
  }

  // ---- all of them ----

  /** The initialisers and the extensions written before them. */
  predicate IsInitialiser(ix: Instruction) {
    ix.InitializeMint? || ix.InitializeAccount? || ix.InitializeMultisig? || ix.InitializeMintExtension?
    || ix.InitializeImmutableOwner?
  }

  /** Changes of one account's or mint's authorities and states. */
  predicate IsChange(ix: Instruction) {
    ix.Approve? || ix.Revoke? || ix.SetAuthority? || ix.ToggleFreeze?
  }

  /** Changes of an extension. */
  predicate IsUpdate(ix: Instruction) {
    ix.UpdateDefaultState? || ix.SetTransferFee? || ix.ToggleCpiGuard? || ix.ToggleMemo?
  }

  lemma InitialisersKeep(s: State, env: Env, ix: Instruction, s': State)
    requires Inv(s) && Execute(s, env, ix) == Ok(s') && IsInitialiser(ix)
    ensures Kept(s, s')
  {
    match ix {
      case InitializeMint(k, decimals, ma, fa) => InitializeMintKeeps(s, env, k, decimals, ma, fa, s');
      case InitializeAccount(k, m, owner) => InitializeAccountKeeps(s, env, k, m, owner, s');
      case InitializeMultisig(k, m, keys) => InitializeMultisigKeeps(s, env, k, m, keys, s');
      case InitializeMintExtension(k, x) => InitializeMintExtensionKeeps(s, env, k, x, s');
      case InitializeImmutableOwner(k) => InitializeImmutableOwnerKeeps(s, k, s');
    }
  }

  lemma ChangesKeep(s: State, env: Env, ix: Instruction, s': State)
    requires Inv(s) && Execute(s, env, ix) == Ok(s') && IsChange(ix)
    ensures Kept(s, s')
  {
    match ix {
      case Approve(src, checked, delegate, auth, signers, amount) =>
        ApproveKeeps(s, env, src, checked, delegate, auth, signers, amount, s');
      case Revoke(src, auth, signers) => RevokeKeeps(s, src, auth, signers, s');
      case SetAuthority(k, auth, signers, kind, newAuth) =>
        SetAuthorityKeeps(s, env, k, auth, signers, kind, newAuth, s');
      case ToggleFreeze(src, m, auth, signers, freeze) => ToggleFreezeKeeps(s, src, m, auth, signers, freeze, s');
    }
  }

  lemma UpdatesKeep(s: State, env: Env, ix: Instruction, s': State)
    requires Inv(s) && Execute(s, env, ix) == Ok(s') && IsUpdate(ix)
    ensures Kept(s, s')
  {
    match ix {
      case UpdateDefaultState(k, auth, signers, state) => UpdateDefaultStateKeeps(s, k, auth, signers, state, s');
      case SetTransferFee(k, auth, signers, bps, max) => SetTransferFeeKeeps(s, env, k, auth, signers, bps, max, s');
      case ToggleCpiGuard(k, auth, signers, enable) => ToggleFlagKeeps(s, env, k, auth, signers, true, enable, s');
      case ToggleMemo(k, auth, signers, enable) => ToggleFlagKeeps(s, env, k, auth, signers, false, enable, s');
    }
  }

  lemma MovesKeep(s: State, env: Env, ix: Instruction, s': State)
    requires Inv(s) && Execute(s, env, ix) == Ok(s') && !IsInitialiser(ix) && !IsChange(ix) && !IsUpdate(ix)
    ensures Kept(s, s')
  {
    match ix {
      case Transfer(src, checked, dst, auth, signers, amount, fee) =>
        TransferKeeps(s, env, src, checked, dst, auth, signers, amount, fee, s');
      case MintTo(m, dst, auth, signers, amount, d) => MintToKeeps(s, m, dst, auth, signers, amount, d, s');
      case Burn(src, m, auth, signers, amount, d) => BurnKeeps(s, env, src, m, auth, signers, amount, d, s');
      case CloseAccount(src, dst, auth, signers) => CloseKeeps(s, env, src, dst, auth, signers, s');
      case SyncNative(k) => SyncNativeKeeps(s, k, s');
      case WithdrawExcessLamports(src, dst, auth, signers) =>
        WithdrawExcessKeeps(s, env, src, dst, auth, signers, s');
      case CreateNativeMint(payer) => CreateNativeMintKeeps(s, env, payer, s');
      case WithdrawWithheldFromMint(m, dst, auth, signers) => WithdrawFromMintKeeps(s, m, dst, auth, signers, s');
      case HarvestToMint(m, sources) => HarvestAllKeeps(s, m, sources, s');
      case WithdrawWithheldFromAccounts(m, dst, auth, signers, sources) =>
        WithdrawFromAccountsKeeps(s, m, dst, auth, signers, sources, s');
      case Reallocate(k, payer, auth, signers, kinds) =>
        ReallocateKeeps(s, env, k, payer, auth, signers, kinds, s');
    }
  }

  /** Every accepted instruction keeps the invariant and the total of lamports. */
  lemma ExecuteKeeps(s: State, env: Env, ix: Instruction, s': State)
    requires Inv(s) && Execute(s, env, ix) == Ok(s')
    ensures Inv(s')
    ensures TotalLamports(s') == TotalLamports(s)
  {
    if IsInitialiser(ix) {
      InitialisersKeep(s, env, ix, s');
    } else if IsChange(ix) {
      ChangesKeep(s, env, ix, s');
    } else if IsUpdate(ix) {
      UpdatesKeep(s, env, ix, s');
    } else {
      MovesKeep(s, env, ix, s');
    }
  }
}

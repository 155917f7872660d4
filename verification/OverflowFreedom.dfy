/** In every state that satisfies the invariant the checked arithmetic of the handlers cannot fail on the program's own
    slots, except where a mint's supply would pass 2^64 - 1; and exactly when slots of other programs make it fail. */
module OverflowFreedom {
  import opened Base
  import opened TokenState
  import opened TransferFees
  import opened Ledger
  import opened Handlers
  import opened Invariants
  import opened Steps
  import opened FeeCollection

  /** The fee of a live source is defined and at most the amount, even when a foreign slot has taken the place
      of its closed mint: the source then holds nothing. */
  lemma TermsNeverOverflow(s: State, env: Env, source: Pubkey, checked: Option<Checked>, amount: u64)
    requires Inv(s) && LiveAccount(Get(s, source)) && amount <= Get(s, source).data.account.amount
    ensures var src := Get(s, source);
            var r := TransferTerms(s, env, source, src.data.account, src.data.accountExt, checked, amount);
            r != Err(Overflow) && (r.Ok? ==> r.value.fee <= amount)
  {
    var a := Get(s, source).data.account;
    assert SlotOk(source, Get(s, source), NativeLive(s));
    match checked {
      case None =>
      case Some(c) =>
        var mintSlot := Get(s, c.mint);
        if a.mint == c.mint && mintSlot.data.MintData? && mintSlot.data.mintExt.fee.Some? {
          assert SlotOk(c.mint, mintSlot, NativeLive(s));
          if c.mint != NATIVE_MINT { WithinSupply(s, source, c.mint); }
          FeeWithinAmount(EpochFee(mintSlot.data.mintExt.fee.value, env.epoch), amount);
        }
    }
  }

  /** Two live accounts of one mint: nothing the second half of a transfer adds or takes can overflow. */
  lemma CreditNeverOverflows(s: State, env: Env, source: Pubkey, destination: Pubkey, a: Account, amount: u64,
                             fee: u64)
    requires Inv(s) && source != destination && LiveAccount(Get(s, source)) && Live(Get(s, destination))
    requires fee <= amount <= a.amount
    requires a == Get(s, source).data.account.(delegate := a.delegate, delegatedAmount := a.delegatedAmount)
    ensures Credit(s, env, source, destination, a, amount, fee) != Err(Overflow)
  {
    var src, dst := Get(s, source), Get(s, destination);
    assert SlotOk(source, src, NativeLive(s));
    assert SlotOk(destination, dst, NativeLive(s));
    TotalBoundsPair(s, source, destination);
    if a.mint != NATIVE_MINT { PairWithinSupply(s, source, destination, a.mint); }
  }

  lemma TransferNeverOverflows(s: State, env: Env, source: Pubkey, checked: Option<Checked>, destination: Pubkey,
                               authority: Info, signers: seq<Info>, amount: u64, expectedFee: Option<u64>)
    requires Inv(s) && Live(Get(s, source))
    ensures HandleTransfer(s, env, source, checked, destination, authority, signers, amount, expectedFee)
            != Err(Overflow)
  {
    var src := Get(s, source);
    if src.data.AccountData? && src.data.account.amount >= amount {
      TermsNeverOverflow(s, env, source, checked, amount);
      var terms := TransferTerms(s, env, source, src.data.account, src.data.accountExt, checked, amount);
      if terms.Ok? {
        var a := Authorise(s, env, src.data.account, src.data.accountExt, terms.value.permanent, authority, signers,
                           amount, source != destination, CpiGuardTransferBlocked);
        if a.Ok? && source != destination && Live(Get(s, destination)) {
          CreditNeverOverflows(s, env, source, destination, a.value, amount, terms.value.fee);
        }
      }
    }
  }

  /** A foreign account is handed in together with a foreign mint whose fee on the amount has no 64-bit value. */
  predicate ForeignFeeFails(s: State, env: Env, source: Pubkey, checked: Option<Checked>, amount: u64) {
    var src := Get(s, source);
    && !Live(src) && src.data.AccountData? && src.data.account.state != Frozen && amount <= src.data.account.amount
    && !src.data.accountExt.nonTransferable && checked.Some?
    && var mint, slot := checked.value.mint, Get(s, checked.value.mint);
       && src.data.account.mint == mint && mint != source && !Live(slot) && FeeMint(slot)
       && slot.data.mint.decimals == checked.value.decimals
       && CalculateEpochFee(slot.data.mintExt.fee.value, env.epoch, amount).None?
  }

  /** Exactly when a transfer reports an overflow, whoever owns the slots it is handed. */
  lemma TransferOverflowsExactly(s: State, env: Env, source: Pubkey, checked: Option<Checked>, destination: Pubkey,
                                 authority: Info, signers: seq<Info>, amount: u64, expectedFee: Option<u64>)
    requires Inv(s)
    ensures HandleTransfer(s, env, source, checked, destination, authority, signers, amount, expectedFee)
            == Err(Overflow)
       <==> ForeignFeeFails(s, env, source, checked, amount)
  {
    if Live(Get(s, source)) {
      TransferNeverOverflows(s, env, source, checked, destination, authority, signers, amount, expectedFee);
    } else if checked.Some? {
      var slot := Get(s, checked.value.mint);
      assert SlotOk(checked.value.mint, slot, NativeLive(s));
      if LiveMint(slot) && FeeMint(slot) {
        FeeWithinAmount(EpochFee(slot.data.mintExt.fee.value, env.epoch), amount);
      }
    }
  }

  lemma BurnNeverOverflows(s: State, env: Env, source: Pubkey, mint: Pubkey, authority: Info, signers: seq<Info>,
                           amount: u64, d: Option<u8>)
    requires Inv(s)
    ensures HandleBurn(s, env, source, mint, authority, signers, amount, d) != Err(Overflow)
  {
    assert SlotOk(source, Get(s, source), NativeLive(s));
    assert SlotOk(mint, Get(s, mint), NativeLive(s));
    if mint != NATIVE_MINT { WithinSupply(s, source, mint); }
  }

  /** Minting overflows exactly when everything else about it is in order and the supply has no room. */
  lemma MintOverflowsExactlyAtCap(s: State, mint: Pubkey, destination: Pubkey, authority: Info, signers: seq<Info>,
                                  amount: u64, d: Option<u8>)
    requires Inv(s)
    ensures HandleMintTo(s, mint, destination, authority, signers, amount, d) == Err(Overflow)
       <==> (HandleMintTo(s, mint, destination, authority, signers, 0, d).Ok?
             && Get(s, mint).data.mint.supply + amount > U64_MAX)
  {
    assert SlotOk(destination, Get(s, destination), NativeLive(s));
    if mint != NATIVE_MINT { WithinSupply(s, destination, mint); }
  }

  lemma LamportMovesNeverOverflow(s: State, env: Env, source: Pubkey, destination: Pubkey, authority: Info,
                                  signers: seq<Info>)
    requires Inv(s)
    ensures HandleCloseAccount(s, env, source, destination, authority, signers) != Err(Overflow)
    ensures HandleWithdrawExcess(s, env, source, destination, authority, signers) != Err(Overflow)
  {
    if source != destination { TotalBoundsPair(s, source, destination); }
  }

  lemma SystemTransferNeverOverflows(s: State, payer: Info, to: Pubkey, amount: u64)
    requires Inv(s)
    ensures SystemTransfer(s, payer, to, amount) != Err(Overflow)
  {
    if payer.key != to { TotalBoundsPair(s, payer.key, to); }
  }

  lemma ReallocateNeverOverflows(s: State, env: Env, k: Pubkey, payer: Info, authority: Info, signers: seq<Info>,
                                 requested: seq<ExtensionKind>)
    requires Inv(s)
    ensures HandleReallocate(s, env, k, payer, authority, signers, requested) != Err(Overflow)
  {
    var slot := Get(s, k);
    assert SlotOk(k, slot, NativeLive(s));
    if slot.data.AccountData? && Live(slot) {
      var missing := Shortfall(slot, env.rent(NeededLen(slot.data.accountExt, requested)));
      if missing.Ok? && missing.value > 0 {
        SystemTransferNeverOverflows(s, payer, k, missing.value);
      }
    }
  }

  /** Withdrawing overflows only into the slot of another program. */
  lemma WithdrawFromMintOverflowsExactly(s: State, mint: Pubkey, destination: Pubkey, authority: Info,
                                         signers: seq<Info>)
    requires Inv(s)
    ensures HandleWithdrawFromMint(s, mint, destination, authority, signers) == Err(Overflow)
       <==> && WithdrawAllowed(s, mint, destination, authority, signers).Pass? && !Live(Get(s, destination))
            && Get(s, destination).data.account.amount + MintWithheld(Get(s, mint).data.mintExt) > U64_MAX
  {
    assert SlotOk(mint, Get(s, mint), NativeLive(s));
    if mint != NATIVE_MINT { WithinSupply(s, destination, mint); }
  }

  lemma {:induction false} HarvestNeverOverflows(s: State, mint: Pubkey, sources: seq<Pubkey>)
    requires Inv(s) && FeeMint(Get(s, mint))
    ensures HarvestAll(s, mint, sources) != Err(Overflow)
  {
    if sources != [] {
      var front, k := sources[..|sources| - 1], sources[|sources| - 1];
      HarvestNeverOverflows(s, mint, front);
      var r := HarvestAll(s, mint, front);
      if r.Ok? {
        HarvestAllKeeps(s, mint, front, r.value);
        assert SlotOk(mint, Get(r.value, mint), NativeLive(r.value));
        assert SlotOk(k, Get(r.value, k), NativeLive(r.value));
        if mint != NATIVE_MINT { WithinSupply(r.value, k, mint); }
      }
    }
  }

  lemma {:induction false} CollectNeverOverflows(s: State, mint: Pubkey, destination: Pubkey, sources: seq<Pubkey>)
    requires Inv(s) && Receiving(s, mint, destination)
    ensures CollectAll(s, mint, destination, sources) != Err(Overflow)
  {
    if sources != [] {
      var front, k := sources[..|sources| - 1], sources[|sources| - 1];
      CollectNeverOverflows(s, mint, destination, front);
      var r := CollectAll(s, mint, destination, front);
      if r.Ok? {
        CollectAllKeeps(s, mint, destination, front, r.value);
        assert SlotOk(mint, Get(r.value, mint), NativeLive(r.value));
        if k == destination { WithinSupply(r.value, k, mint); }
        else { PairWithinSupply(r.value, k, destination, mint); }
      }
    }
  }

  lemma WithdrawFromAccountsOverflowsExactly(s: State, mint: Pubkey, destination: Pubkey, authority: Info,
                                             signers: seq<Info>, sources: seq<Pubkey>)
    requires Inv(s)
    ensures HandleWithdrawFromAccounts(s, mint, destination, authority, signers, sources) == Err(Overflow)
       <==> && WithdrawAllowed(s, mint, destination, authority, signers).Pass? && !Live(Get(s, destination))
            && FeesExceed(s, mint, destination, sources)
  {
    if WithdrawAllowed(s, mint, destination, authority, signers).Pass? {
      CollectOverflows(s, mint, destination, sources);
      if Live(Get(s, destination)) { CollectNeverOverflows(s, mint, destination, sources); }
    }
  }

  lemma SetAuthorityNeverOverflows(s: State, env: Env, target: Pubkey, authority: Info, signers: seq<Info>,
                                   kind: AuthorityType, newAuthority: Option<Pubkey>)
    ensures HandleSetAuthority(s, env, target, authority, signers, kind, newAuthority) != Err(Overflow)
  {}

  /** The instructions that do no checked arithmetic. */
  predicate NoArithmetic(ix: Instruction) {
    ix.InitializeMint? || ix.InitializeAccount? || ix.InitializeMultisig? || ix.Approve? || ix.Revoke?
    || ix.ToggleFreeze? || ix.InitializeMintExtension? || ix.InitializeImmutableOwner? || ix.UpdateDefaultState?
    || ix.SetTransferFee? || ix.ToggleCpiGuard? || ix.ToggleMemo?
  }

  lemma NoArithmeticNeverOverflows(s: State, env: Env, ix: Instruction)
    requires NoArithmetic(ix)
    ensures Handle(s, env, ix) != Err(Overflow)
  {}

  /** The only reasons for an overflow: minting past the cap, or a foreign slot in the place of a token account. */
  ghost predicate Overflows(s: State, env: Env, ix: Instruction) {
    match ix
    case MintTo(mint, destination, authority, signers, amount, d) =>
      && HandleMintTo(s, mint, destination, authority, signers, 0, d).Ok?
      && Get(s, mint).data.mint.supply + amount > U64_MAX
    case Transfer(source, checked, _, _, _, amount, _) => ForeignFeeFails(s, env, source, checked, amount)
    case WithdrawWithheldFromMint(mint, destination, authority, signers) =>
      && WithdrawAllowed(s, mint, destination, authority, signers).Pass? && !Live(Get(s, destination))
      && Get(s, destination).data.account.amount + MintWithheld(Get(s, mint).data.mintExt) > U64_MAX
    case WithdrawWithheldFromAccounts(mint, destination, authority, signers, sources) =>
      && WithdrawAllowed(s, mint, destination, authority, signers).Pass? && !Live(Get(s, destination))
      && FeesExceed(s, mint, destination, sources)
    case _ => false
  }

  lemma FeesNeverOverflow(s: State, env: Env, ix: Instruction)
    requires Inv(s) && (ix.CreateNativeMint? || ix.Reallocate? || ix.HarvestToMint?)
    ensures Handle(s, env, ix) != Err(Overflow)
  {
    match ix {
      case CreateNativeMint(payer) =>
        var minimum, have := env.rent(MINT_LEN), Get(s, NATIVE_MINT).lamports;
        SystemTransferNeverOverflows(s, payer, NATIVE_MINT, if minimum > have then minimum - have else 0);
      case Reallocate(k, payer, auth, signers, kinds) =>
        ReallocateNeverOverflows(s, env, k, payer, auth, signers, kinds);
      case HarvestToMint(m, sources) =>
        if FeeMint(Get(s, m)) { HarvestNeverOverflows(s, m, sources); }
    }
  }

  lemma OthersNeverOverflow(s: State, env: Env, ix: Instruction)
    requires Inv(s) && !ix.Transfer? && !ix.MintTo?
    requires !ix.WithdrawWithheldFromMint? && !ix.WithdrawWithheldFromAccounts?
    ensures Handle(s, env, ix) != Err(Overflow)
  {
    match ix {
      case Burn(src, m, auth, signers, amount, d) => BurnNeverOverflows(s, env, src, m, auth, signers, amount, d);
      case CloseAccount(src, dst, auth, signers) => LamportMovesNeverOverflow(s, env, src, dst, auth, signers);
      case WithdrawExcessLamports(src, dst, auth, signers) =>
        LamportMovesNeverOverflow(s, env, src, dst, auth, signers);
      case SyncNative(k) => assert SlotOk(k, Get(s, k), NativeLive(s));
      case SetAuthority(k, auth, signers, kind, newAuth) =>
        SetAuthorityNeverOverflows(s, env, k, auth, signers, kind, newAuth);
      case _ =>
        if NoArithmetic(ix) { NoArithmeticNeverOverflows(s, env, ix); } else { FeesNeverOverflow(s, env, ix); }
    }
  }

  lemma WithdrawOverflowsExactly(s: State, env: Env, ix: Instruction)
    requires Inv(s) && (ix.WithdrawWithheldFromMint? || ix.WithdrawWithheldFromAccounts?)
    ensures Handle(s, env, ix) == Err(Overflow) <==> Overflows(s, env, ix)
  {
    match ix {
      case WithdrawWithheldFromMint(m, dst, auth, signers) =>
        WithdrawFromMintOverflowsExactly(s, m, dst, auth, signers);
      case WithdrawWithheldFromAccounts(m, dst, auth, signers, sources) =>
        WithdrawFromAccountsOverflowsExactly(s, m, dst, auth, signers, sources);
    }
  }

  /** Exactly when an instruction reports an overflow, whatever slots it is handed. */
  lemma OverflowsExactly(s: State, env: Env, ix: Instruction)
    requires Inv(s)
    ensures Handle(s, env, ix) == Err(Overflow) <==> Overflows(s, env, ix)
  {
    match ix {
      case Transfer(src, checked, dst, auth, signers, amount, fee) =>
        TransferOverflowsExactly(s, env, src, checked, dst, auth, signers, amount, fee);
      case MintTo(m, dst, auth, signers, amount, d) => MintOverflowsExactlyAtCap(s, m, dst, auth, signers, amount, d);
      case WithdrawWithheldFromMint(_, _, _, _) => WithdrawOverflowsExactly(s, env, ix);
      case WithdrawWithheldFromAccounts(_, _, _, _, _) => WithdrawOverflowsExactly(s, env, ix);
      case _ => OthersNeverOverflow(s, env, ix);
    }
  }
}

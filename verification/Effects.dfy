/** What an instruction can do to one token account: who may lower its balance, what a frozen account keeps, how a
    delegate's allowance is spent, and the facts that never come back. */
module Effects {
  import opened Base
  import opened TokenState
  import opened Ledger
  import opened Authority
  import opened Handlers
  import opened Invariants
  import opened Runs
  import opened FeeCollection
  import opened Rules
  import opened Conformance

  /** Equal records, up to the rent reserve noted in a native account. */
  predicate SameBase(a: Account, b: Account) { b == a.(isNative := b.isNative) }

  /** The slot still holds the account, with the same record and the same immutable-owner mark. */
  predicate KeepsAccount(before: Slot, after: Slot)
    requires before.data.AccountData?
  {
    LiveAccount(after) && SameBase(before.data.account, after.data.account)
    && after.data.accountExt.immutableOwner == before.data.accountExt.immutableOwner
  }

  /** Instructions that never touch an existing account's record. */
  predicate Quiet(ix: Instruction) {
    ix.InitializeMint? || ix.InitializeAccount? || ix.InitializeMultisig? || ix.WithdrawExcessLamports?
    || ix.CreateNativeMint? || ix.InitializeMintExtension? || ix.InitializeImmutableOwner? || ix.UpdateDefaultState?
    || ix.SetTransferFee? || ix.HarvestToMint? || ix.ToggleCpiGuard? || ix.ToggleMemo? || ix.Reallocate?
  }

  /** Collecting fees touches only the receiver's record, and only to raise its amount. */
  lemma {:induction false} CollectEffect(s: State, mint: Pubkey, destination: Pubkey, sources: seq<Pubkey>, s': State,
                                         k: Pubkey)
    requires Get(s, destination).data.AccountData? && CollectAll(s, mint, destination, sources) == Ok(s')
    requires LiveAccount(Get(s, k))
    ensures k != destination ==> KeepsAccount(Get(s, k), Get(s', k))
    ensures LiveAccount(Get(s', k))
    ensures var a, b := Get(s, k).data.account, Get(s', k).data.account;
            b == a.(amount := b.amount) && b.amount >= a.amount
    ensures Get(s', k).data.accountExt.immutableOwner == Get(s, k).data.accountExt.immutableOwner
  {
    if sources != [] {
      var front := sources[..|sources| - 1];
      var s1 := CollectAll(s, mint, destination, front).value;
      CollectEffect(s, mint, destination, front, s1, k);
    }
  }

  lemma InitialisersKeepAccount(s: State, env: Env, ix: Instruction, s': State, k: Pubkey)
    requires ix.InitializeMint? || ix.InitializeAccount? || ix.InitializeMultisig? || ix.InitializeMintExtension?
             || ix.InitializeImmutableOwner?
    requires Handle(s, env, ix) == Ok(s') && LiveAccount(Get(s, k))
    ensures Get(s', k) == Get(s, k)
  {}

  lemma MintUpdatesKeepAccount(s: State, env: Env, ix: Instruction, s': State, k: Pubkey)
    requires ix.UpdateDefaultState? || ix.SetTransferFee?
    requires Handle(s, env, ix) == Ok(s') && LiveAccount(Get(s, k))
    ensures Get(s', k) == Get(s, k)
  {}

  lemma FlagsKeepAccount(s: State, env: Env, ix: Instruction, s': State, k: Pubkey)
    requires ix.ToggleCpiGuard? || ix.ToggleMemo? || ix.WithdrawExcessLamports?
    requires Handle(s, env, ix) == Ok(s') && LiveAccount(Get(s, k))
    ensures KeepsAccount(Get(s, k), Get(s', k))
  {}

  lemma SystemTransferKeepsAccount(s: State, payer: Info, to: Pubkey, amount: u64, s': State, k: Pubkey)
    requires SystemTransfer(s, payer, to, amount) == Ok(s')
    ensures Get(s', k) == Get(s, k).(lamports := Get(s', k).lamports)
  {}

  lemma ReallocateKeepsAccount(s: State, env: Env, k0: Pubkey, payer: Info, authority: Info, signers: seq<Info>,
                               requested: seq<ExtensionKind>, s': State, k: Pubkey)
    requires HandleReallocate(s, env, k0, payer, authority, signers, requested) == Ok(s') && LiveAccount(Get(s, k))
    ensures KeepsAccount(Get(s, k), Get(s', k))
  {
    var slot := Get(s, k0);
    var needed := NeededLen(slot.data.accountExt, requested);
    if slot.len < needed {
      var missing := Shortfall(slot, env.rent(needed)).value;
      if missing > 0 {
        var s1 := SystemTransfer(s, payer, k0, missing).value;
        SystemTransferKeepsAccount(s, payer, k0, missing, s1, k);
        SystemTransferKeepsAccount(s, payer, k0, missing, s1, k0);
      }
    }
  }

  lemma CreateNativeMintKeepsAccount(s: State, env: Env, payer: Info, s': State, k: Pubkey)
    requires HandleCreateNativeMint(s, env, payer) == Ok(s') && LiveAccount(Get(s, k))
    ensures KeepsAccount(Get(s, k), Get(s', k))
  {}

  lemma QuietEffect(s: State, env: Env, ix: Instruction, s': State, k: Pubkey)
    requires Quiet(ix) && Execute(s, env, ix) == Ok(s') && LiveAccount(Get(s, k))
    ensures KeepsAccount(Get(s, k), Get(s', k))
  {
    match ix {
      case HarvestToMint(m, sources) => HarvestExactly(s, m, sources, s');
      case Reallocate(k0, payer, auth, signers, kinds) =>
        ReallocateKeepsAccount(s, env, k0, payer, auth, signers, kinds, s', k);
      case CreateNativeMint(payer) => CreateNativeMintKeepsAccount(s, env, payer, s', k);
      case UpdateDefaultState(_, _, _, _) => MintUpdatesKeepAccount(s, env, ix, s', k);
      case SetTransferFee(_, _, _, _, _) => MintUpdatesKeepAccount(s, env, ix, s', k);
      case ToggleCpiGuard(_, _, _, _) => FlagsKeepAccount(s, env, ix, s', k);
      case ToggleMemo(_, _, _, _) => FlagsKeepAccount(s, env, ix, s', k);
      case WithdrawExcessLamports(_, _, _, _) => FlagsKeepAccount(s, env, ix, s', k);
      case _ => InitialisersKeepAccount(s, env, ix, s', k);
    }
  }

  // ---- the table of effects ----

  predicate Becomes(before: Slot, after: Slot, b: Account)
    requires before.data.AccountData?
  {
    LiveAccount(after) && after.data.account == b
    && after.data.accountExt.immutableOwner == before.data.accountExt.immutableOwner
  }

  /** Only the amount moved, upwards, and only in an account that was not frozen. */
  predicate Credited(before: Slot, after: Slot)
    requires before.data.AccountData?
  {
    var a := before.data.account;
    LiveAccount(after) && Becomes(before, after, a.(amount := after.data.account.amount))
    && after.data.account.amount >= a.amount && a.state != Frozen
  }

  /** The authority arm passed and `amount` left the account, out of the allowance when a delegate spent it. */
  predicate Debited(s: State, before: Slot, after: Slot, permanent: Option<Pubkey>, authority: Info,
                    signers: seq<Info>, amount: u64)
    requires before.data.AccountData?
  {
    var a := before.data.account;
    amount <= a.amount && a.state != Frozen &&
    match BranchOf(a, permanent, authority.key)
    case ByPermanentDelegate =>
      Consents(s, authority.key, authority, signers)
      && Becomes(before, after, a.(amount := a.amount - amount))
    case ByDelegate =>
      Consents(s, authority.key, authority, signers) && amount <= a.delegatedAmount
      && Becomes(before, after, SpendAllowance(a, amount).(amount := a.amount - amount))
    case ByOwner =>
      Consents(s, a.owner, authority, signers) && Becomes(before, after, a.(amount := a.amount - amount))
  }

  /** The permanent delegate a transfer sees: none unless the mint was passed. */
  function PermanentSeen(s: State, checked: Option<Checked>): Option<Pubkey> {
    if checked.Some? && Get(s, checked.value.mint).data.MintData? then
      PermanentDelegateOf(Get(s, checked.value.mint).data.mintExt)
    else None
  }

  function PermanentAt(s: State, mint: Pubkey): Option<Pubkey> {
    PermanentSeen(s, Some(Checked(mint, 0)))
  }

  // ---- the keys a mint names ----

  function MintAuthorityAt(s: State, m: Pubkey): Option<Pubkey> {
    if Get(s, m).data.MintData? then Get(s, m).data.mint.mintAuthority else None
  }

  function FreezeAuthorityAt(s: State, m: Pubkey): Option<Pubkey> {
    if Get(s, m).data.MintData? then Get(s, m).data.mint.freezeAuthority else None
  }

  function WithdrawAuthorityAt(s: State, m: Pubkey): Option<Pubkey> {
    if FeeMint(Get(s, m)) then Get(s, m).data.mintExt.fee.value.withdrawAuthority else None
  }

  /** There is such an authority and it agrees. */
  predicate Signed(s: State, key: Option<Pubkey>, authority: Info, signers: seq<Info>) {
    key.Some? && Consents(s, key.value, authority, signers)
  }

  /** Who a revocation must be signed by: the delegate may revoke itself, anyone else acts for the owner. */
  function RevokerOf(a: Account, key: Pubkey): Pubkey {
    if a.delegate == Some(key) then key else a.owner
  }

  /** A new owner takes over with no delegate, in an account whose owner may change. */
  predicate OwnerReplaced(s: State, before: Slot, after: Slot, authority: Info, signers: seq<Info>,
                          newAuthority: Option<Pubkey>)
    requires before.data.AccountData?
  {
    var a := before.data.account;
    a.state != Frozen && newAuthority.Some? && !before.data.accountExt.immutableOwner
    && Consents(s, a.owner, authority, signers)
    && Becomes(before, after, a.(owner := newAuthority.value, delegate := None, delegatedAmount := 0,
                                 closeAuthority := if a.isNative.Some? then None else a.closeAuthority))
  }

  /** What instruction `ix` did to the live account in slot `k`. */
  predicate Effect(s: State, ix: Instruction, k: Pubkey, before: Slot, after: Slot)
    requires before.data.AccountData?
  {
    var a := before.data.account;
    match ix
    case Transfer(source, checked, destination, authority, signers, amount, _) =>
      if source == destination || (k != source && k != destination) then KeepsAccount(before, after)
      else if k == source then
        (checked.Some? ==> checked.value.mint == a.mint)
        && Debited(s, before, after, PermanentSeen(s, checked), authority, signers, amount)
      else Credited(before, after)
    case Burn(source, mint, authority, signers, amount, _) =>
      if k != source then KeepsAccount(before, after)
      else if OwnedBySystemOrIncinerator(a) then
        amount <= a.amount && a.state != Frozen && Becomes(before, after, a.(amount := a.amount - amount))
      else mint == a.mint && Debited(s, before, after, PermanentAt(s, mint), authority, signers, amount)
    case MintTo(mint, destination, authority, signers, _, _) =>
      if k != destination then KeepsAccount(before, after)
      else mint == a.mint && Signed(s, MintAuthorityAt(s, mint), authority, signers) && Credited(before, after)
    case WithdrawWithheldFromMint(mint, destination, authority, signers) =>
      if k != destination then KeepsAccount(before, after)
      else mint == a.mint && Signed(s, WithdrawAuthorityAt(s, mint), authority, signers) && Credited(before, after)
    case WithdrawWithheldFromAccounts(mint, destination, authority, signers, _) =>
      if k != destination then KeepsAccount(before, after)
      else mint == a.mint && Signed(s, WithdrawAuthorityAt(s, mint), authority, signers) && Credited(before, after)
    case Approve(source, _, delegate, authority, signers, amount) =>
      if k != source then KeepsAccount(before, after)
      else a.state != Frozen && Consents(s, a.owner, authority, signers)
           && Becomes(before, after, a.(delegate := Some(delegate), delegatedAmount := amount))
    case Revoke(source, authority, signers) =>
      if k != source then KeepsAccount(before, after)
      else a.state != Frozen && Consents(s, RevokerOf(a, authority.key), authority, signers)
           && Becomes(before, after, a.(delegate := None, delegatedAmount := 0))
    case SetAuthority(target, authority, signers, kind, newAuthority) =>
      if k != target then KeepsAccount(before, after)
      else if kind.AccountOwner? then OwnerReplaced(s, before, after, authority, signers, newAuthority)
      else a.state != Frozen && kind.CloseAccountAuthority?
           && Consents(s, CloseAuthorityOf(a), authority, signers)
           && Becomes(before, after, a.(closeAuthority := newAuthority))
    case CloseAccount(source, destination, authority, signers) =>
      if k != source then KeepsAccount(before, after)
      else after == EMPTY_SLOT && (a.isNative.Some? || a.amount == 0) &&
           (if OwnedBySystemOrIncinerator(a) then destination == INCINERATOR
            else Consents(s, CloseAuthorityOf(a), authority, signers))
    case ToggleFreeze(source, mint, authority, signers, freeze) =>
      if k != source then KeepsAccount(before, after)
      else mint == a.mint && freeze != (a.state == Frozen)
           && Signed(s, FreezeAuthorityAt(s, mint), authority, signers)
           && Becomes(before, after, a.(state := if freeze then Frozen else Initialized))
    case SyncNative(account) =>
      if k != account then KeepsAccount(before, after)
      else && a.isNative.Some? && Credited(before, after)
           && after.data.account.amount + a.isNative.value == before.lamports
    case _ => KeepsAccount(before, after)
  }

  lemma TransferEffect(s: State, env: Env, ix: Instruction, s': State, k: Pubkey)
    requires ix.Transfer? && Handle(s, env, ix) == Ok(s') && LiveAccount(Get(s, k))
    ensures Effect(s, ix, k, Get(s, k), Get(s', k))
  {
    AllValidated(s, ix.authority, ix.signers);
    var src := Get(s, ix.source);
    var terms := TransferTerms(s, env, ix.source, src.data.account, src.data.accountExt, ix.checked, ix.amount).value;
    var a := Authorise(s, env, src.data.account, src.data.accountExt, terms.permanent, ix.authority, ix.signers,
                       ix.amount, ix.source != ix.destination, CpiGuardTransferBlocked).value;
    if ix.source != ix.destination {
      assert Credit(s, env, ix.source, ix.destination, a, ix.amount, terms.fee) == Ok(s');
    }
  }

  lemma BurnEffect(s: State, env: Env, ix: Instruction, s': State, k: Pubkey)
    requires ix.Burn? && Handle(s, env, ix) == Ok(s') && LiveAccount(Get(s, k))
    ensures Effect(s, ix, k, Get(s, k), Get(s', k))
  {
    AllValidated(s, ix.authority, ix.signers);
  }

  lemma CreditingEffect(s: State, env: Env, ix: Instruction, s': State, k: Pubkey)
    requires ix.MintTo? || ix.WithdrawWithheldFromMint? || ix.WithdrawWithheldFromAccounts?
    requires Handle(s, env, ix) == Ok(s') && LiveAccount(Get(s, k))
    ensures Effect(s, ix, k, Get(s, k), Get(s', k))
  {
    AllValidated(s, ix.authority, ix.signers);
    if ix.WithdrawWithheldFromAccounts? { CollectEffect(s, ix.mint, ix.destination, ix.sources, s', k); }
  }

  lemma DelegationEffect(s: State, env: Env, ix: Instruction, s': State, k: Pubkey)
    requires ix.Approve? || ix.Revoke?
    requires Handle(s, env, ix) == Ok(s') && LiveAccount(Get(s, k))
    ensures Effect(s, ix, k, Get(s, k), Get(s', k))
  {
    AllValidated(s, ix.authority, ix.signers);
  }

  lemma SetAuthorityEffect(s: State, env: Env, ix: Instruction, s': State, k: Pubkey)
    requires ix.SetAuthority? && Handle(s, env, ix) == Ok(s') && LiveAccount(Get(s, k))
    ensures Effect(s, ix, k, Get(s, k), Get(s', k))
  {
    AllValidated(s, ix.authority, ix.signers);
  }

  lemma CloseEffect(s: State, env: Env, ix: Instruction, s': State, k: Pubkey)
    requires ix.CloseAccount? && Handle(s, env, ix) == Ok(s') && LiveAccount(Get(s, k))
    ensures Effect(s, ix, k, Get(s, k), Get(s', k))
  {
    AllValidated(s, ix.authority, ix.signers);
  }

  lemma FreezeEffect(s: State, env: Env, ix: Instruction, s': State, k: Pubkey)
    requires ix.ToggleFreeze? && Handle(s, env, ix) == Ok(s') && LiveAccount(Get(s, k))
    ensures Effect(s, ix, k, Get(s, k), Get(s', k))
  {
    AllValidated(s, ix.authority, ix.signers);
  }

  lemma SyncEffect(s: State, env: Env, ix: Instruction, s': State, k: Pubkey)
    requires Inv(s) && ix.SyncNative? && Handle(s, env, ix) == Ok(s') && LiveAccount(Get(s, k))
    ensures Effect(s, ix, k, Get(s, k), Get(s', k))
  {
    assert SlotOk(k, Get(s, k), NativeLive(s));
  }

  /** The table is right for every instruction and every live account. */
  lemma AccountEffect(s: State, env: Env, ix: Instruction, s': State, k: Pubkey)
    requires Inv(s) && Execute(s, env, ix) == Ok(s') && LiveAccount(Get(s, k))
    ensures Effect(s, ix, k, Get(s, k), Get(s', k))
  {
    match ix {
      case Transfer(_, _, _, _, _, _, _) => TransferEffect(s, env, ix, s', k);
      case Burn(_, _, _, _, _, _) => BurnEffect(s, env, ix, s', k);
      case MintTo(_, _, _, _, _, _) => CreditingEffect(s, env, ix, s', k);
      case WithdrawWithheldFromMint(_, _, _, _) => CreditingEffect(s, env, ix, s', k);
      case WithdrawWithheldFromAccounts(_, _, _, _, _) => CreditingEffect(s, env, ix, s', k);
      case Approve(_, _, _, _, _, _) => DelegationEffect(s, env, ix, s', k);
      case Revoke(_, _, _) => DelegationEffect(s, env, ix, s', k);
      case SetAuthority(_, _, _, _, _) => SetAuthorityEffect(s, env, ix, s', k);
      case CloseAccount(_, _, _, _) => CloseEffect(s, env, ix, s', k);
      case ToggleFreeze(_, _, _, _, _) => FreezeEffect(s, env, ix, s', k);
      case SyncNative(_) => SyncEffect(s, env, ix, s', k);
      case _ => QuietEffect(s, env, ix, s', k);
    }
  }

  /** The step is an instruction, and the program accepts it in state `s`; a refused one is rolled back. */
  predicate Accepted(s: State, step: Step) {
    step.Instruct? && Execute(s, step.env, step.ix).Ok?
  }

  /** An accepted instruction did to slot `k`'s account what the table says, a refused one nothing, an outsider what
      outsiders may. */
  ghost predicate Tabled(s: State, step: Step, s': State, k: Pubkey)
    requires LiveAccount(Get(s, k))
  {
    if Accepted(s, step) then Effect(s, step.ix, k, Get(s, k), Get(s', k))
    else if step.Instruct? then Get(s', k) == Get(s, k)
    else OutsideSlot(k, Get(s, k), Get(s', k))
  }

  lemma StepTabled(s: State, step: Step, s': State, k: Pubkey)
    requires Inv(s) && Next(s, step, s') && LiveAccount(Get(s, k))
    ensures Tabled(s, step, s', k)
  {
    match step {
      case Instruct(env, ix) => if Execute(s, env, ix).Ok? { AccountEffect(s, env, ix, s', k); }
      case Outside => assert OutsideSlot(k, Get(s, k), Get(s', k));
    }
  }

  /** Every point of every run from genesis satisfies the invariant and takes a step of the table. */
  lemma RunTabled(states: seq<State>, steps: seq<Step>, n: nat, k: Pubkey)
    requires IsRun(states, steps) && Genesis(states[0]) && n < |steps| && LiveAccount(Get(states[n], k))
    ensures Inv(states[n]) && Inv(states[n + 1]) && Tabled(states[n], steps[n], states[n + 1], k)
  {
    GenesisInv(states[0]);
    RunKeeps(states, steps, n);
    RunKeeps(states, steps, n + 1);
    assert StepAt(states, steps, n);
    StepTabled(states[n], steps[n], states[n + 1], k);
  }

  // ---- what moves, exactly ----

  /** A transfer between two accounts takes the amount from one, gives the amount less the fee to the other, withholds
      the fee there, moves the lamports of a native one along, and touches no third slot. To itself it does nothing. */
  lemma TransferMoves(s: State, env: Env, ix: Instruction, s': State)
    requires ix.Transfer? && Handle(s, env, ix) == Ok(s')
    ensures ix.source == ix.destination ==> s' == s
    ensures LiveAccount(Get(s, ix.source))
    ensures ix.source != ix.destination ==>
      var fee := FeeOn(s, env, ix.checked, ix.amount);
      var src, dst := Get(s, ix.source), Get(s, ix.destination);
      var src', dst' := Get(s', ix.source), Get(s', ix.destination);
      && LiveAccount(dst) && LiveAccount(src') && LiveAccount(dst') && fee <= ix.amount
      && src.data.account.mint == dst.data.account.mint
      && src'.data.account.amount == src.data.account.amount - ix.amount && src'.data.accountExt == src.data.accountExt
      && dst'.data.account == dst.data.account.(amount := dst.data.account.amount + (ix.amount - fee))
      && Withheld(dst'.data.accountExt) == Withheld(dst.data.accountExt) + fee
      && var moved := if src.data.account.isNative.Some? then ix.amount else 0;
         moved <= src.lamports && src'.lamports == src.lamports - moved && dst'.lamports == dst.lamports + moved
    ensures forall k: Pubkey :: k != ix.source && k != ix.destination ==> Get(s', k) == Get(s, k)
  {
    TransferObeys(s, env, ix);
    assert forall k: Pubkey :: Get(s', k) == AfterTransfer(s, env, ix, k);
  }

  /** Minting and burning move an account and its mint's supply by the same amount, and nothing else. */
  lemma SupplyMoves(s: State, env: Env, ix: Instruction, s': State)
    requires (ix.MintTo? || ix.Burn?) && Handle(s, env, ix) == Ok(s')
    ensures var k := if ix.MintTo? then ix.destination else ix.source;
            var change: int := if ix.MintTo? then ix.amount else 0 - ix.amount;
            var before, after := Get(s, k), Get(s', k);
            && LiveAccount(before) && LiveAccount(after) && LiveMint(Get(s, ix.mint)) && LiveMint(Get(s', ix.mint))
            && before.data.account.mint == ix.mint && k != ix.mint
            && after.data.account.amount == before.data.account.amount + change
            && Get(s', ix.mint).data.mint.supply == Get(s, ix.mint).data.mint.supply + change
            && Get(s', ix.mint).data.mint == Get(s, ix.mint).data.mint.(supply := Get(s', ix.mint).data.mint.supply)
            && forall j: Pubkey :: j != k && j != ix.mint ==> Get(s', j) == Get(s, j)
  {}

  // ---- what initialisation leaves ----

  /** A new mint: rent-exempt, of exactly the length its extensions need, with nothing issued, the authorities it was
      given, and never frozen by default without someone to thaw. */
  lemma MintInitialised(s: State, env: Env, k: Pubkey, decimals: u8, ma: Pubkey, fa: Option<Pubkey>, s': State)
    requires HandleInitializeMint(s, env, k, decimals, ma, fa) == Ok(s')
    ensures var before, after := Get(s, k), Get(s', k);
            && before.data.Blank? && after == before.(data := after.data) && after.data.MintData?
            && after.data.mint.mintAuthority == Some(ma) && after.data.mint.freezeAuthority == fa
            && after.data.mint.supply == 0 && after.data.mint.decimals == decimals && after.data.mint.isInitialized
            && (before.data.pending.ForMint? ==> after.data.mintExt == before.data.pending.mintExt)
            && after.lamports >= env.rent(after.len) && RequiredLen(MINT_LEN, MintTlv(after.data.mintExt)) == after.len
            && (after.data.mintExt.defaultState == Some(Frozen) ==> fa.Some?)
    ensures forall j: Pubkey :: j != k ==> Get(s', j) == Get(s, j)
  {}

  /** A new account: empty unless native, without a delegate or closer, in the state its mint prescribes, with the
      fee and transfer restrictions its mint calls for, and still immutable if it was made so. */
  lemma AccountInitialised(s: State, env: Env, k: Pubkey, m: Pubkey, owner: Pubkey, s': State)
    requires HandleInitializeAccount(s, env, k, m, owner) == Ok(s')
    ensures var before, after, mint := Get(s, k), Get(s', k), Get(s, m);
            && before.data.Blank? && after == before.(data := after.data) && after.data.AccountData? && LiveMint(mint)
            && var a, e := after.data.account, after.data.accountExt;
               && a.mint == m && a.owner == owner && a.delegate == None && a.delegatedAmount == 0
               && a.closeAuthority == None
               && (a.isNative.Some? <==> m == NATIVE_MINT)
               && (a.isNative.Some? ==> a.isNative.value == env.rent(after.len)
                                        && a.amount + a.isNative.value == after.lamports)
               && (a.isNative.None? ==> a.amount == 0)
               && a.state == (if mint.data.mintExt.defaultState.Some? then mint.data.mintExt.defaultState.value
                              else Initialized)
               && (mint.data.mintExt.fee.Some? ==> e.withheld == Some(0))
               && (mint.data.mintExt.nonTransferable ==> e.nonTransferable)
               && (before.data.pending.ForAccount? ==>
                     e.immutableOwner == before.data.pending.accountExt.immutableOwner)
    ensures forall j: Pubkey :: j != k ==> Get(s', j) == Get(s, j)
  {}

  // ---- a balance falls only with authority ----

  /** The account's amount went down, or the account went away with tokens in it. */
  predicate Falls(before: Slot, after: Slot)
    requires before.data.AccountData?
  {
    before.data.account.amount > if LiveAccount(after) then after.data.account.amount else 0
  }

  /** Whose signature lets `amount` leave account `a`: the mint's permanent delegate, the delegate within the
      allowance, or the owner. */
  predicate MaySpend(s: State, a: Account, amount: u64, authority: Info, signers: seq<Info>) {
    || (PermanentAt(s, a.mint) == Some(authority.key) && Consents(s, authority.key, authority, signers))
    || (a.delegate == Some(authority.key) && amount <= a.delegatedAmount
        && Consents(s, authority.key, authority, signers))
    || Consents(s, a.owner, authority, signers)
  }

  /** The reasons for which an instruction may lower the amount of account `a` at `k`. */
  predicate LoweredBy(s: State, ix: Instruction, k: Pubkey, a: Account) {
    match ix
    case Transfer(source, _, _, authority, signers, amount, _) =>
      source == k && MaySpend(s, a, amount, authority, signers)
    case Burn(source, _, authority, signers, amount, _) =>
      source == k && (OwnedBySystemOrIncinerator(a) || MaySpend(s, a, amount, authority, signers))
    case CloseAccount(source, destination, authority, signers) =>
      source == k && a.isNative.Some? &&
      (if OwnedBySystemOrIncinerator(a) then destination == INCINERATOR
       else Consents(s, CloseAuthorityOf(a), authority, signers))
    case _ => false
  }

  lemma EffectLowers(s: State, ix: Instruction, k: Pubkey, after: Slot)
    requires LiveAccount(Get(s, k)) && Effect(s, ix, k, Get(s, k), after) && Falls(Get(s, k), after)
    ensures LoweredBy(s, ix, k, Get(s, k).data.account)
    ensures ix.Transfer? || ix.Burn? ==>
      LiveAccount(after) && after.data.account.amount == Get(s, k).data.account.amount - ix.amount
  {}

  lemma BalanceFallsOnlyWithAuthority(s: State, env: Env, ix: Instruction, s': State, k: Pubkey)
    requires Inv(s) && Execute(s, env, ix) == Ok(s')
    requires LiveAccount(Get(s, k)) && Falls(Get(s, k), Get(s', k))
    ensures LoweredBy(s, ix, k, Get(s, k).data.account)
    ensures ix.Transfer? || ix.Burn? ==>
      LiveAccount(Get(s', k)) && Get(s', k).data.account.amount == Get(s, k).data.account.amount - ix.amount
  {
    AccountEffect(s, env, ix, s', k);
    EffectLowers(s, ix, k, Get(s', k));
  }

  /** The same over every run: no step, ours or anyone else's, lowers a balance without one of those reasons. */
  lemma BalanceFallsOnlyWithAuthorityOnRuns(states: seq<State>, steps: seq<Step>, i: nat, k: Pubkey)
    requires IsRun(states, steps) && Genesis(states[0]) && i < |steps|
    requires LiveAccount(Get(states[i], k)) && Falls(Get(states[i], k), Get(states[i + 1], k))
    ensures Accepted(states[i], steps[i]) && LoweredBy(states[i], steps[i].ix, k, Get(states[i], k).data.account)
  {
    RunTabled(states, steps, i, k);
    EffectLowers(states[i], steps[i].ix, k, Get(states[i + 1], k));
  }

  // ---- so does everything else about an account ----

  /** The reasons for which an instruction may change the delegate or the allowance of account `a` at `k`: the
      owner's, or the delegate's own. */
  predicate Redelegates(s: State, ix: Instruction, k: Pubkey, a: Account) {
    match ix
    case Approve(source, _, _, authority, signers, _) =>
      source == k && Consents(s, a.owner, authority, signers)
    case Revoke(source, authority, signers) =>
      source == k && Consents(s, RevokerOf(a, authority.key), authority, signers)
    case SetAuthority(target, authority, signers, kind, _) =>
      target == k && kind.AccountOwner? && Consents(s, a.owner, authority, signers)
    case Transfer(source, _, _, authority, signers, amount, _) =>
      source == k && SpentByDelegate(s, a, amount, authority, signers)
    case Burn(source, _, authority, signers, amount, _) =>
      source == k && SpentByDelegate(s, a, amount, authority, signers)
    case _ => false
  }

  predicate SpentByDelegate(s: State, a: Account, amount: u64, authority: Info, signers: seq<Info>) {
    a.delegate == Some(authority.key) && amount <= a.delegatedAmount
    && Consents(s, authority.key, authority, signers)
  }

  /** The owner replaces itself. */
  predicate ReplacesOwner(s: State, ix: Instruction, k: Pubkey, a: Account) {
    ix.SetAuthority? && ix.target == k && ix.kind.AccountOwner?
    && Consents(s, a.owner, ix.authority, ix.signers)
  }

  /** The close authority replaces itself; a new owner of a native account also drops it. */
  predicate ReplacesCloser(s: State, ix: Instruction, k: Pubkey, a: Account) {
    || (ix.SetAuthority? && ix.target == k && ix.kind.CloseAccountAuthority?
        && Consents(s, CloseAuthorityOf(a), ix.authority, ix.signers))
    || (a.isNative.Some? && ReplacesOwner(s, ix, k, a))
  }

  /** The mint's freeze authority freezes or thaws. */
  predicate Freezes(s: State, ix: Instruction, k: Pubkey, a: Account) {
    ix.ToggleFreeze? && ix.source == k && Signed(s, FreezeAuthorityAt(s, a.mint), ix.authority, ix.signers)
  }

  /** The ways tokens come into account `a` at `k`: a transfer to it, its mint's authority, collected fees on the word
      of the withdraw authority, or lamports sent to a native account. */
  predicate RaisedBy(s: State, ix: Instruction, k: Pubkey, a: Account) {
    match ix
    case Transfer(source, _, destination, _, _, _, _) => destination == k && source != k
    case MintTo(mint, destination, authority, signers, _, _) =>
      destination == k && mint == a.mint && Signed(s, MintAuthorityAt(s, mint), authority, signers)
    case WithdrawWithheldFromMint(mint, destination, authority, signers) =>
      destination == k && mint == a.mint && Signed(s, WithdrawAuthorityAt(s, mint), authority, signers)
    case WithdrawWithheldFromAccounts(mint, destination, authority, signers, _) =>
      destination == k && mint == a.mint && Signed(s, WithdrawAuthorityAt(s, mint), authority, signers)
    case SyncNative(account) => account == k && a.isNative.Some?
    case _ => false
  }

  /** Every difference between two records `a` and `b` of the account at `k` has a reason in the instruction between. */
  predicate ChangesJustified(s: State, ix: Instruction, k: Pubkey, a: Account, b: Account, immutable: bool) {
    && b.mint == a.mint
    && (b.amount > a.amount ==> RaisedBy(s, ix, k, a))
    && (b.amount < a.amount ==> LoweredBy(s, ix, k, a))
    && (b.delegate != a.delegate || b.delegatedAmount != a.delegatedAmount ==> Redelegates(s, ix, k, a))
    && (b.delegatedAmount > a.delegatedAmount ==> ix.Approve?)
    && (b.owner != a.owner ==> ReplacesOwner(s, ix, k, a) && !immutable)
    && (b.closeAuthority != a.closeAuthority ==> ReplacesCloser(s, ix, k, a))
    && (b.state != a.state ==> Freezes(s, ix, k, a))
  }

  lemma TableJustifies(s: State, ix: Instruction, k: Pubkey, after: Slot)
    requires LiveAccount(Get(s, k)) && LiveAccount(after) && Effect(s, ix, k, Get(s, k), after)
    ensures ChangesJustified(s, ix, k, Get(s, k).data.account, after.data.account,
                             Get(s, k).data.accountExt.immutableOwner)
  {}

  /** On every run, whatever changes in a live account's record changes with the authority that governs it: in a step
      that is no accepted instruction the record stays. */
  lemma ChangesNeedAuthorityOnRuns(states: seq<State>, steps: seq<Step>, i: nat, k: Pubkey)
    requires IsRun(states, steps) && Genesis(states[0]) && i < |steps|
    requires LiveAccount(Get(states[i], k)) && LiveAccount(Get(states[i + 1], k))
    ensures var before, after := Get(states[i], k).data, Get(states[i + 1], k).data;
            if Accepted(states[i], steps[i])
            then ChangesJustified(states[i], steps[i].ix, k, before.account, after.account,
                                  before.accountExt.immutableOwner)
            else after.account == before.account
  {
    RunTabled(states, steps, i, k);
    if Accepted(states[i], steps[i]) { TableJustifies(states[i], steps[i].ix, k, Get(states[i + 1], k)); }
  }

  // ---- frozen accounts hold still ----

  predicate FrozenAccount(slot: Slot) { LiveAccount(slot) && slot.data.account.state == Frozen }

  /** An accepted thaw of account `k`. */
  predicate ThawOf(s: State, step: Step, k: Pubkey) {
    Accepted(s, step) && step.ix.ToggleFreeze? && !step.ix.freeze && step.ix.source == k
  }

  /** An accepted close of slot `k`. */
  predicate CloseOf(s: State, step: Step, k: Pubkey) {
    Accepted(s, step) && step.ix.CloseAccount? && step.ix.source == k
  }

  lemma EffectFrozen(s: State, ix: Instruction, k: Pubkey, after: Slot)
    requires FrozenAccount(Get(s, k)) && Get(s, k).data.account.isNative.None? && Effect(s, ix, k, Get(s, k), after)
    requires !(ix.ToggleFreeze? && !ix.freeze && ix.source == k)
    ensures || (LiveAccount(after) && SameBase(Get(s, k).data.account, after.data.account))
            || (ix.CloseAccount? && ix.source == k && after == EMPTY_SLOT && Get(s, k).data.account.amount == 0)
  {}

  /** One step leaves a frozen account's record as it is, unless it thaws it or closes it empty. */
  lemma FrozenHoldsStill(s: State, step: Step, s': State, k: Pubkey)
    requires Inv(s) && Inv(s') && FrozenAccount(Get(s, k)) && !ThawOf(s, step, k) && Tabled(s, step, s', k)
    ensures var before, after := Get(s, k), Get(s', k);
            || (FrozenAccount(after) && after.data.account == before.data.account)
            || (CloseOf(s, step, k) && after == EMPTY_SLOT && before.data.account.amount == 0)
  {
    assert SlotOk(k, Get(s, k), NativeLive(s));
    assert SlotOk(k, Get(s', k), NativeLive(s'));
    if Accepted(s, step) { EffectFrozen(s, step.ix, k, Get(s', k)); }
  }

  /** Until a thaw or a close of it is accepted, a frozen account's record never changes, whatever else is tried. */
  lemma {:induction false} FrozenHoldsStillOnRuns(states: seq<State>, steps: seq<Step>, i: nat, j: nat, k: Pubkey)
    requires IsRun(states, steps) && Genesis(states[0]) && i <= j < |states|
    requires FrozenAccount(Get(states[i], k))
    requires forall n :: i <= n < j ==> !ThawOf(states[n], steps[n], k) && !CloseOf(states[n], steps[n], k)
    ensures FrozenAccount(Get(states[j], k))
    ensures Get(states[j], k).data.account == Get(states[i], k).data.account
    decreases j - i
  {
    if i < j {
      FrozenHoldsStillOnRuns(states, steps, i, j - 1, k);
      RunTabled(states, steps, j - 1, k);
      FrozenHoldsStill(states[j - 1], steps[j - 1], states[j], k);
    }
  }

  /** Whatever closes a frozen account finds it empty. */
  lemma FrozenClosesEmpty(states: seq<State>, steps: seq<Step>, i: nat, k: Pubkey)
    requires IsRun(states, steps) && Genesis(states[0]) && i < |steps|
    requires FrozenAccount(Get(states[i], k)) && !LiveAccount(Get(states[i + 1], k))
    ensures CloseOf(states[i], steps[i], k) && Get(states[i], k).data.account.amount == 0
  {
    RunTabled(states, steps, i, k);
    if !ThawOf(states[i], steps[i], k) { FrozenHoldsStill(states[i], steps[i], states[i + 1], k); }
  }
}

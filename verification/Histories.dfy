/** Properties of whole histories of one account, mint or multisig: a delegate's allowance, facts that never come back,
    and what never changes at all. */
module Histories {
  import opened Base
  import opened TokenState
  import opened Ledger
  import opened Authority
  import opened Handlers
  import opened Invariants
  import opened Runs
  import opened FeeCollection
  import opened Effects

  // ---- delegate allowance ----

  /** Tokens that left account `k` through the delegate arm of an accepted instruction. */
  function DelegateSpend(s: State, step: Step, k: Pubkey): nat {
    var slot := Get(s, k);
    if !Accepted(s, step) || !slot.data.AccountData? then 0
    else match step.ix
      case Transfer(source, checked, destination, authority, _, amount, _) =>
        if source == k && source != destination
           && BranchOf(slot.data.account, PermanentSeen(s, checked), authority.key).ByDelegate? then amount else 0
      case Burn(source, mint, authority, _, amount, _) =>
        if source == k && !OwnedBySystemOrIncinerator(slot.data.account)
           && BranchOf(slot.data.account, PermanentAt(s, mint), authority.key).ByDelegate? then amount else 0
      case _ => 0
  }

  /** Accepted instructions that set or clear the allowance of `k`, or end the account. */
  predicate Resets(s: State, step: Step, k: Pubkey) {
    Accepted(s, step) &&
    match step.ix
    case Approve(source, _, _, _, _, _) => source == k
    case Revoke(source, _, _) => source == k
    case SetAuthority(target, _, _, kind, _) => target == k && kind.AccountOwner?
    case CloseAccount(source, _, _, _) => source == k
    case _ => false
  }

  lemma AllowanceStep(s: State, step: Step, s': State, k: Pubkey)
    requires LiveAccount(Get(s, k)) && Tabled(s, step, s', k) && !Resets(s, step, k)
    ensures LiveAccount(Get(s', k))
    ensures Get(s', k).data.account.delegatedAmount + DelegateSpend(s, step, k) ==
            Get(s, k).data.account.delegatedAmount
  {}

  /** All that the delegate arm took out of `k` between two points of a run. */
  function SpentBetween(states: seq<State>, steps: seq<Step>, i: nat, j: nat, k: Pubkey): nat
    requires i <= j <= |steps| && |states| == |steps| + 1
    decreases j - i
  {
    if i == j then 0
    else SpentBetween(states, steps, i, j - 1, k)
         + DelegateSpend(states[j - 1], steps[j - 1], k)
  }

  /** The slot shows an approval: its delegate and its allowance. */
  predicate Shows(slot: Slot, approval: Instruction)
    requires approval.Approve?
  {
    LiveAccount(slot) && slot.data.account.delegate == Some(approval.delegate)
    && slot.data.account.delegatedAmount == approval.amount
  }

  /** An accepted approval shows in the account. */
  lemma ApproveShows(s: State, env: Env, approval: Instruction, s': State)
    requires approval.Approve? && Inv(s) && Execute(s, env, approval) == Ok(s') && LiveAccount(Get(s, approval.source))
    ensures Shows(Get(s', approval.source), approval)
  {
    AccountEffect(s, env, approval, s', approval.source);
  }

  /** From an approval of n that shows in the account until an approval, revocation, owner change or close is accepted:
      what the delegate has taken and what remains of the allowance make n. */
  lemma {:induction false} AllowanceAccounted(states: seq<State>, steps: seq<Step>, i: nat, j: nat, k: Pubkey,
                                              approval: Instruction)
    requires IsRun(states, steps) && Genesis(states[0]) && i <= j < |states|
    requires approval.Approve? && approval.source == k && Shows(Get(states[i], k), approval)
    requires forall n :: i <= n < j ==> !Resets(states[n], steps[n], k)
    ensures LiveAccount(Get(states[j], k))
    ensures SpentBetween(states, steps, i, j, k) + Get(states[j], k).data.account.delegatedAmount == approval.amount
    decreases j - i
  {
    if i < j {
      AllowanceAccounted(states, steps, i, j - 1, k, approval);
      RunTabled(states, steps, j - 1, k);
      AllowanceStep(states[j - 1], steps[j - 1], states[j], k);
    }
  }

  // ---- facts that never come back ----

  /** What a mint keeps for as long as it lives. */
  predicate MintPersists(before: Slot, after: Slot)
    requires before.data.MintData?
  {
    LiveMint(after)
    && (before.data.mint.mintAuthority.None? ==>
          after.data.mint.mintAuthority.None? && after.data.mint.supply <= before.data.mint.supply)
    && (before.data.mint.freezeAuthority.None? ==> after.data.mint.freezeAuthority.None?)
    && after.data.mint.decimals == before.data.mint.decimals
  }

  /** Tokens of mint `m` an accepted step issues, less those it burns. */
  function SupplyChange(s: State, step: Step, m: Pubkey): int {
    if Accepted(s, step) then ChangeOf(step.ix, m) else 0
  }

  function ChangeOf(ix: Instruction, m: Pubkey): int {
    if ix.MintTo? && ix.mint == m then ix.amount else if ix.Burn? && ix.mint == m then 0 - ix.amount else 0
  }

  /** What one step may do to a mint: its supply moves by `change`, and what it gave up stays given up. */
  predicate MintSteps(before: Slot, after: Slot, change: int)
    requires before.data.MintData?
  {
    LiveMint(after) && after.data.mint.supply == before.data.mint.supply + change
    && (before.data.mint.mintAuthority.None? ==> after.data.mint.mintAuthority.None? && change <= 0)
    && (before.data.mint.freezeAuthority.None? ==> after.data.mint.freezeAuthority.None?)
    && after.data.mint.decimals == before.data.mint.decimals
  }

  predicate LiveMultisig(slot: Slot) { Live(slot) && slot.data.MultisigData? }

  /** The slot is what it was but for its lamports. */
  predicate Fixed(before: Slot, after: Slot) { after == before.(lamports := after.lamports) }

  /** Instructions that leave every live mint and multisig alone but for its lamports. */
  predicate LeavesMints(ix: Instruction) {
    ix.InitializeMint? || ix.InitializeAccount? || ix.InitializeMultisig? || ix.Approve? || ix.Revoke?
    || ix.ToggleFreeze? || ix.SyncNative? || ix.WithdrawExcessLamports? || ix.InitializeMintExtension?
    || ix.InitializeImmutableOwner? || ix.ToggleCpiGuard? || ix.ToggleMemo?
  }

  lemma LeavesMintsEffect(s: State, env: Env, ix: Instruction, s': State, k: Pubkey)
    requires LeavesMints(ix) && Handle(s, env, ix) == Ok(s') && (LiveMint(Get(s, k)) || LiveMultisig(Get(s, k)))
    ensures Fixed(Get(s, k), Get(s', k))
  {}

  lemma MintToEffect(s: State, env: Env, ix: Instruction, s': State, m: Pubkey)
    requires (ix.MintTo? || ix.Burn?) && Handle(s, env, ix) == Ok(s') && LiveMint(Get(s, m))
    ensures MintSteps(Get(s, m), Get(s', m), ChangeOf(ix, m))
  {
    SupplyMoves(s, env, ix, s');
  }

  lemma MintUpdateEffect(s: State, env: Env, ix: Instruction, s': State, m: Pubkey)
    requires ix.UpdateDefaultState? || ix.SetTransferFee? || ix.WithdrawWithheldFromMint? || ix.SetAuthority?
    requires Handle(s, env, ix) == Ok(s') && LiveMint(Get(s, m))
    ensures MintSteps(Get(s, m), Get(s', m), 0)
  {}

  lemma CloseMintEffect(s: State, env: Env, ix: Instruction, s': State, m: Pubkey)
    requires ix.CloseAccount? && Handle(s, env, ix) == Ok(s') && LiveMint(Get(s, m))
    ensures if ix.source == m then Get(s, m).data.mint.supply == 0 && Get(s', m) == EMPTY_SLOT
            else MintSteps(Get(s, m), Get(s', m), 0)
  {}

  lemma SystemEffect(s: State, env: Env, ix: Instruction, s': State, k: Pubkey)
    requires (ix.CreateNativeMint? || ix.Reallocate?) && Handle(s, env, ix) == Ok(s')
    requires LiveMint(Get(s, k)) || LiveMultisig(Get(s, k))
    ensures Fixed(Get(s, k), Get(s', k))
  {
    if ix.Reallocate? {
      var slot := Get(s, ix.account);
      var needed := NeededLen(slot.data.accountExt, ix.requested);
      if slot.len < needed {
        var missing := Shortfall(slot, env.rent(needed)).value;
        if missing > 0 {
          var s1 := SystemTransfer(s, ix.payer, ix.account, missing).value;
          SystemTransferKeepsAccount(s, ix.payer, ix.account, missing, s1, k);
          SystemTransferKeepsAccount(s, ix.payer, ix.account, missing, s1, ix.account);
        }
      }
    }
  }

  /** Collecting fees writes to accounts only. */
  lemma {:induction false} CollectLeaves(s: State, mint: Pubkey, destination: Pubkey, sources: seq<Pubkey>, s': State,
                                         k: Pubkey)
    requires Get(s, destination).data.AccountData? && CollectAll(s, mint, destination, sources) == Ok(s')
    requires !Get(s, k).data.AccountData?
    ensures Get(s', k) == Get(s, k)
  {
    if sources != [] {
      var front := sources[..|sources| - 1];
      CollectLeaves(s, mint, destination, front, CollectAll(s, mint, destination, front).value, k);
    }
  }

  lemma FeeMovesEffect(s: State, env: Env, ix: Instruction, s': State, m: Pubkey)
    requires ix.Transfer? || ix.HarvestToMint? || ix.WithdrawWithheldFromAccounts?
    requires Handle(s, env, ix) == Ok(s') && LiveMint(Get(s, m))
    ensures MintSteps(Get(s, m), Get(s', m), 0)
  {
    match ix {
      case Transfer(_, _, _, _, _, _, _) => TransferMoves(s, env, ix, s');
      case HarvestToMint(mint, sources) => HarvestExactly(s, mint, sources, s');
      case WithdrawWithheldFromAccounts(mint, dst, _, _, sources) => CollectLeaves(s, mint, dst, sources, s', m);
    }
  }

  /** An accepted instruction on a live mint: the supply moves by what it mints or burns, or the mint is closed empty.
      */
  lemma MintEffect(s: State, env: Env, ix: Instruction, s': State, m: Pubkey)
    requires Execute(s, env, ix) == Ok(s') && LiveMint(Get(s, m))
    ensures if ix.CloseAccount? && ix.source == m then Get(s', m) == EMPTY_SLOT && Get(s, m).data.mint.supply == 0
            else MintSteps(Get(s, m), Get(s', m), ChangeOf(ix, m))
  {
    match ix {
      case Transfer(_, _, _, _, _, _, _) => FeeMovesEffect(s, env, ix, s', m);
      case HarvestToMint(_, _) => FeeMovesEffect(s, env, ix, s', m);
      case WithdrawWithheldFromAccounts(_, _, _, _, _) => FeeMovesEffect(s, env, ix, s', m);
      case MintTo(_, _, _, _, _, _) => MintToEffect(s, env, ix, s', m);
      case Burn(_, _, _, _, _, _) => MintToEffect(s, env, ix, s', m);
      case CloseAccount(_, _, _, _) => CloseMintEffect(s, env, ix, s', m);
      case CreateNativeMint(_) => SystemEffect(s, env, ix, s', m);
      case Reallocate(_, _, _, _, _) => SystemEffect(s, env, ix, s', m);
      case _ =>
        if LeavesMints(ix) { LeavesMintsEffect(s, env, ix, s', m); } else { MintUpdateEffect(s, env, ix, s', m); }
    }
  }

  lemma MintStepsAt(states: seq<State>, steps: seq<Step>, n: nat, m: Pubkey)
    requires IsRun(states, steps) && n < |steps| && LiveMint(Get(states[n], m)) && !CloseOf(states[n], steps[n], m)
    ensures MintSteps(Get(states[n], m), Get(states[n + 1], m), SupplyChange(states[n], steps[n], m))
  {
    assert StepAt(states, steps, n);
    match steps[n] {
      case Outside => assert OutsideSlot(m, Get(states[n], m), Get(states[n + 1], m));
      case Instruct(env, ix) =>
        if Accepted(states[n], steps[n]) { MintEffect(states[n], env, ix, states[n + 1], m); }
    }
  }

  /** All that was minted of `m` between two points of a run, less all that was burned. */
  function IssuedBetween(states: seq<State>, steps: seq<Step>, i: nat, j: nat, m: Pubkey): int
    requires i <= j <= |steps| && |states| == |steps| + 1
    decreases j - i
  {
    if i == j then 0 else IssuedBetween(states, steps, i, j - 1, m) + SupplyChange(states[j - 1], steps[j - 1], m)
  }

  /** A mint that gave up its mint authority never grows, one that gave up its freeze authority never regains it; and at
      every point the supply is what it was, plus what was minted since, less what was burned. */
  lemma {:induction false} MintOneWayOnRuns(states: seq<State>, steps: seq<Step>, i: nat, j: nat, m: Pubkey)
    requires IsRun(states, steps) && i <= j < |states|
    requires LiveMint(Get(states[i], m)) && forall n :: i <= n < j ==> !CloseOf(states[n], steps[n], m)
    ensures MintPersists(Get(states[i], m), Get(states[j], m))
    ensures Get(states[j], m).data.mint.supply ==
            Get(states[i], m).data.mint.supply + IssuedBetween(states, steps, i, j, m)
    decreases j - i
  {
    if i < j {
      MintOneWayOnRuns(states, steps, i, j - 1, m);
      MintStepsAt(states, steps, j - 1, m);
    }
  }

  /** From its initialisation on, until a close of it is accepted: what live accounts hold of a mint, with the fees
      withheld in them and in the mint, is everything that was minted less everything that was burned. */
  lemma HeldIsMintedLessBurned(states: seq<State>, steps: seq<Step>, i: nat, j: nat, m: Pubkey)
    requires IsRun(states, steps) && Genesis(states[0]) && i < j < |states| && m != NATIVE_MINT
    requires Accepted(states[i], steps[i]) && steps[i].ix.InitializeMint? && steps[i].ix.mint == m
    requires forall n :: i < n < j ==> !CloseOf(states[n], steps[n], m)
    ensures var slot := Get(states[j], m);
            && LiveMint(slot) && slot.data.mint.decimals == steps[i].ix.decimals
            && slot.data.mint.supply == IssuedBetween(states, steps, i + 1, j, m)
            && Held(states[j], m) + MintWithheld(slot.data.mintExt) == IssuedBetween(states, steps, i + 1, j, m)
  {
    var ix := steps[i].ix;
    assert StepAt(states, steps, i);
    MintInitialised(states[i], steps[i].env, m, ix.decimals, ix.mintAuthority, ix.freezeAuthority, states[i + 1]);
    assert SlotChangeAllowed(Get(states[i], m), states[i + 1][m]);
    MintOneWayOnRuns(states, steps, i + 1, j, m);
    SupplyConserved(states, steps, j, m);
  }

  /** What an account keeps for as long as it lives: its mint, an immutable owner, and, while its mint has no freeze
      authority, its frozen or thawed state. */
  predicate AccountPersists(before: Slot, after: Slot, freezable: bool)
    requires before.data.AccountData?
  {
    LiveAccount(after) && after.data.account.mint == before.data.account.mint
    && (before.data.accountExt.immutableOwner ==>
          after.data.accountExt.immutableOwner && after.data.account.owner == before.data.account.owner)
    && (!freezable ==> after.data.account.state == before.data.account.state)
  }

  predicate Freezable(s: State, m: Pubkey) {
    !(LiveMint(Get(s, m)) && Get(s, m).data.mint.freezeAuthority.None?)
  }

  lemma EffectPersists(s: State, ix: Instruction, k: Pubkey, after: Slot)
    requires LiveAccount(Get(s, k)) && Effect(s, ix, k, Get(s, k), after) && !(ix.CloseAccount? && ix.source == k)
    ensures AccountPersists(Get(s, k), after, Freezable(s, Get(s, k).data.account.mint))
  {}

  lemma AccountOneWayAt(states: seq<State>, steps: seq<Step>, n: nat, k: Pubkey)
    requires IsRun(states, steps) && Genesis(states[0]) && n < |steps|
    requires LiveAccount(Get(states[n], k)) && !CloseOf(states[n], steps[n], k)
    ensures AccountPersists(Get(states[n], k), Get(states[n + 1], k),
                            Freezable(states[n], Get(states[n], k).data.account.mint))
  {
    RunTabled(states, steps, n, k);
    if Accepted(states[n], steps[n]) { EffectPersists(states[n], steps[n].ix, k, Get(states[n + 1], k)); }
  }

  /** Over every run: an immutable owner stays, and without a freeze authority no account of the mint is ever frozen
      or thawed, for as long as the mint itself is not closed. */
  lemma {:induction false} AccountOneWayOnRuns(states: seq<State>, steps: seq<Step>, i: nat, j: nat, k: Pubkey)
    requires IsRun(states, steps) && Genesis(states[0]) && i <= j < |states| && LiveAccount(Get(states[i], k))
    requires forall n :: i <= n < j ==>
      !CloseOf(states[n], steps[n], k) && !CloseOf(states[n], steps[n], Get(states[i], k).data.account.mint)
    ensures AccountPersists(Get(states[i], k), Get(states[j], k),
                            Freezable(states[i], Get(states[i], k).data.account.mint))
    decreases j - i
  {
    if i < j {
      var m := Get(states[i], k).data.account.mint;
      AccountOneWayOnRuns(states, steps, i, j - 1, k);
      AccountOneWayAt(states, steps, j - 1, k);
      if !Freezable(states[i], m) { MintOneWayOnRuns(states, steps, i, j - 1, m); }
    }
  }

  /** From its initialisation on, until a close of it or of its mint is accepted: an account is of the mint it was
      made for, belongs to the owner it was made for if it was made immutable, and is in the state its mint prescribed
      if that had no freeze authority. */
  lemma InitialisedStays(states: seq<State>, steps: seq<Step>, i: nat, j: nat, k: Pubkey)
    requires IsRun(states, steps) && Genesis(states[0]) && i < j < |states|
    requires Accepted(states[i], steps[i]) && steps[i].ix.InitializeAccount? && steps[i].ix.account == k
    requires forall n :: i < n < j ==>
      !CloseOf(states[n], steps[n], k) && !CloseOf(states[n], steps[n], steps[i].ix.mint)
    ensures var before, mint, slot := Get(states[i], k), Get(states[i], steps[i].ix.mint), Get(states[j], k);
            && LiveAccount(slot) && slot.data.account.mint == steps[i].ix.mint && before.data.Blank? && LiveMint(mint)
            && (before.data.pending.ForAccount? && before.data.pending.accountExt.immutableOwner ==>
                  slot.data.account.owner == steps[i].ix.owner)
            && (mint.data.mint.freezeAuthority.None? ==>
                  slot.data.account.state == (if mint.data.mintExt.defaultState.Some? then
                                                mint.data.mintExt.defaultState.value else Initialized))
  {
    var ix := steps[i].ix;
    assert StepAt(states, steps, i);
    AccountInitialised(states[i], steps[i].env, k, ix.mint, ix.owner, states[i + 1]);
    assert SlotChangeAllowed(Get(states[i], k), states[i + 1][k]);
    AccountOneWayOnRuns(states, steps, i + 1, j, k);
  }

  // ---- multisigs never change ----

  lemma MovesFix(s: State, env: Env, ix: Instruction, s': State, k: Pubkey)
    requires ix.MintTo? || ix.Burn? || ix.UpdateDefaultState? || ix.SetTransferFee? || ix.WithdrawWithheldFromMint?
             || ix.SetAuthority? || ix.CloseAccount?
    requires Handle(s, env, ix) == Ok(s') && LiveMultisig(Get(s, k))
    ensures Fixed(Get(s, k), Get(s', k))
  {}

  /** Nothing changes or closes a multisig: there is no instruction for it. */
  lemma MultisigFixed(s: State, step: Step, s': State, k: Pubkey)
    requires Next(s, step, s') && LiveMultisig(Get(s, k))
    ensures Fixed(Get(s, k), Get(s', k))
  {
    match step {
      case Outside => assert OutsideSlot(k, Get(s, k), Get(s', k));
      case Instruct(env, ix) =>
        if Execute(s, env, ix).Ok? {
          match ix {
            case Transfer(_, _, _, _, _, _, _) => TransferMoves(s, env, ix, s');
            case CreateNativeMint(_) => SystemEffect(s, env, ix, s', k);
            case Reallocate(_, _, _, _, _) => SystemEffect(s, env, ix, s', k);
            case HarvestToMint(mint, sources) => HarvestExactly(s, mint, sources, s');
            case WithdrawWithheldFromAccounts(mint, dst, _, _, sources) => CollectLeaves(s, mint, dst, sources, s', k);
            case _ =>
              if LeavesMints(ix) { LeavesMintsEffect(s, env, ix, s', k); } else { MovesFix(s, env, ix, s', k); }
          }
        }
    }
  }

  lemma {:induction false} MultisigFixedOnRuns(states: seq<State>, steps: seq<Step>, i: nat, j: nat, k: Pubkey)
    requires IsRun(states, steps) && i <= j < |states| && LiveMultisig(Get(states[i], k))
    ensures Fixed(Get(states[i], k), Get(states[j], k))
    decreases j - i
  {
    if i < j {
      MultisigFixedOnRuns(states, steps, i, j - 1, k);
      assert StepAt(states, steps, j - 1);
      MultisigFixed(states[j - 1], steps[j - 1], states[j], k);
    }
  }

  /** A multisig that was initialised with distinct keys guards for good: at every later point of every run, whatever
      passes for it carries at least m of those keys as signatures, distinct keys counted once each. */
  lemma MultisigGuards(states: seq<State>, steps: seq<Step>, i: nat, j: nat, authority: Info, signers: seq<Info>)
    requires IsRun(states, steps) && i < j < |states|
    requires Accepted(states[i], steps[i]) && steps[i].ix.InitializeMultisig?
    requires var keys := steps[i].ix.signerKeys; forall p, q :: 0 <= p < q < |keys| ==> keys[p] != keys[q]
    requires ValidateOwner(states[j], steps[i].ix.multisig, authority, signers).Pass?
    ensures var keys := steps[i].ix.signerKeys;
            |(set p | 0 <= p < |keys| && keys[p] in SignedKeys(signers) :: keys[p])| >= steps[i].ix.m >= 1
  {
    var k, keys := steps[i].ix.multisig, steps[i].ix.signerKeys;
    assert StepAt(states, steps, i);
    MultisigInitialised(states[i], steps[i].env, k, steps[i].ix.m, keys, states[i + 1]);
    MultisigFixedOnRuns(states, steps, i + 1, j, k);
    DistinctSigners(keys, SignedKeys(signers));
  }

  /** What an accepted initialisation leaves: the threshold and the keys it was given. */
  lemma MultisigInitialised(s: State, env: Env, k: Pubkey, m: u8, keys: seq<Pubkey>, s': State)
    requires Execute(s, env, InitializeMultisig(k, m, keys)) == Ok(s')
    ensures var slot := Get(s', k);
            && LiveMultisig(slot) && slot.len == MULTISIG_LEN && slot.data.multisig.isInitialized
            && slot.data.multisig.m == m >= 1 && slot.data.multisig.n == |keys| <= MAX_SIGNERS
            && slot.data.multisig.signers[..|keys|] == keys
  {
    assert SlotChangeAllowed(Get(s, k), s'[k]);
  }
}

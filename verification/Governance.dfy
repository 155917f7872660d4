/** The rules over whole runs: every step obeys them, a mint changes only with the authority that governs the change,
    and a fee schedule is kept from the epoch it was set in. */
module Governance {
  import opened Base
  import opened TokenState
  import opened Ledger
  import opened Authority
  import opened Handlers
  import opened FeeCollection
  import opened Rules
  import opened Conformance
  import opened Runs
  import opened Effects

  // ---- every step obeys the rules ----

  /** Slots of other programs keep their contents and their owner, and lose no lamports. */
  ghost predicate ForeignKept(s: State, env: Env, ix: Instruction)
    requires Admits(s, env, ix)
  {
    forall k: Pubkey :: !Live(Get(s, k)) ==>
      var before, after := Get(s, k), After(s, env, ix, k);
      after == before.(lamports := after.lamports) && before.lamports <= after.lamports
  }

  /** Exactly when an instruction is accepted: its rule admits it, and what it does to slots of other programs is at
      most to credit them; creating the native mint and growing an account also pay through the system program. */
  lemma AcceptedExactly(s: State, env: Env, ix: Instruction)
    ensures Execute(s, env, ix).Ok? <==>
            Admits(s, env, ix) && (ix.CreateNativeMint? || ix.Reallocate? || ForeignKept(s, env, ix))
    ensures Execute(s, env, ix).Ok? ==> forall k: Pubkey :: Get(Execute(s, env, ix).value, k) == After(s, env, ix, k)
  {
    HandlersObey(s, env, ix);
    var r := Handle(s, env, ix);
    if r.Ok? { OwnershipAgrees(s, env, ix, r.value); }
  }

  lemma OwnershipAgrees(s: State, env: Env, ix: Instruction, s': State)
    requires Admits(s, env, ix) && forall k: Pubkey :: Get(s', k) == After(s, env, ix, k)
    ensures RuntimeAccepts(s, s') <==> ForeignKept(s, env, ix)
  {
    if RuntimeAccepts(s, s') {
      forall k: Pubkey | !Live(Get(s, k))
        ensures var before, after := Get(s, k), After(s, env, ix, k);
                after == before.(lamports := after.lamports) && before.lamports <= after.lamports
      {
        assert Get(s', k) == After(s, env, ix, k);
        if k in s || k in s' { assert SlotChangeAllowed(Get(s, k), Get(s', k)); }
      }
    }
  }

  /** On every run: an instruction that is admitted and keeps to the program's own slots is accepted and does what its
      rule says to every slot; any other is rolled back. */
  lemma RulesOnRuns(states: seq<State>, steps: seq<Step>, i: nat)
    requires IsRun(states, steps) && i < |steps| && steps[i].Instruct?
    ensures var s, env, ix := states[i], steps[i].env, steps[i].ix;
            && (Accepted(s, steps[i]) <==>
                  Admits(s, env, ix) && (ix.CreateNativeMint? || ix.Reallocate? || ForeignKept(s, env, ix)))
            && (Accepted(s, steps[i]) ==> forall k: Pubkey :: Get(states[i + 1], k) == After(s, env, ix, k))
            && (!Accepted(s, steps[i]) ==> states[i + 1] == s)
  {
    assert StepAt(states, steps, i);
    AcceptedExactly(states[i], steps[i].env, steps[i].ix);
  }

  // ---- wrapped lamports ----

  /** Syncing succeeds exactly on a live native account whose lamports cover reserve and amount; afterwards they make
      up the lamports, and nothing else has changed. */
  lemma SyncExactly(s: State, env: Env, k: Pubkey)
    ensures var r, slot := Execute(s, env, SyncNative(k)), Get(s, k);
            && (r.Ok? <==> && LiveAccount(slot) && slot.data.account.isNative.Some?
                           && slot.data.account.isNative.value + slot.data.account.amount <= slot.lamports)
            && (r.Ok? ==>
                  var after := Get(r.value, k);
                  && LiveAccount(after) && after == slot.(data := after.data)
                  && after.data.accountExt == slot.data.accountExt
                  && after.data.account == slot.data.account.(amount := after.data.account.amount)
                  && after.data.account.amount + after.data.account.isNative.value == after.lamports
                  && forall j: Pubkey :: j != k ==> Get(r.value, j) == Get(s, j))
  {
    AcceptedExactly(s, env, SyncNative(k));
  }

  // ---- mints change only with authority ----

  /** The key under `kind` was replaced by exactly the key given, and agreed to it. */
  predicate KeyReplaced(s: State, ix: Instruction, m: Pubkey, kind: AuthorityType, before: Option<Pubkey>,
                        after: Option<Pubkey>) {
    && ix.SetAuthority? && ix.target == m && ix.kind == kind && after == ix.newAuthority
    && before.Some? && Consents(s, before.value, ix.authority, ix.signers)
  }

  predicate SupplyMoved(s: State, ix: Instruction, m: Pubkey, before: Mint, after: Mint) {
    match ix
    case MintTo(mint, _, authority, signers, amount, _) =>
      && mint == m && after.supply == before.supply + amount && before.mintAuthority.Some?
      && Consents(s, before.mintAuthority.value, authority, signers)
    case Burn(_, mint, _, _, amount, _) => mint == m && after.supply == before.supply - amount
    case _ => false
  }

  /** The withheld fees of the mint: more by harvesting, none by withdrawing. */
  predicate FeesMoved(s: State, ix: Instruction, m: Pubkey, before: FeeConfig, after: FeeConfig) {
    match ix
    case HarvestToMint(mint, _) => mint == m && after.withheld >= before.withheld
    case WithdrawWithheldFromMint(mint, _, authority, signers) =>
      && mint == m && after.withheld == 0 && before.withdrawAuthority.Some?
      && Consents(s, before.withdrawAuthority.value, authority, signers)
    case _ => false
  }

  predicate Rescheduled(s: State, env: Env, ix: Instruction, m: Pubkey, before: FeeConfig, after: FeeConfig) {
    && ix.SetTransferFee? && ix.mint == m && before.configAuthority.Some?
    && Consents(s, before.configAuthority.value, ix.authority, ix.signers)
    && after.older == InForce(before, env.epoch)
    && after.newer == Fee(TwoEpochsOn(env.epoch), ix.maximumFee, ix.basisPoints)
  }

  predicate FeesJustified(s: State, env: Env, ix: Instruction, m: Pubkey, before: FeeConfig, after: FeeConfig) {
    && (after.withheld != before.withheld ==> FeesMoved(s, ix, m, before, after))
    && (after.older != before.older || after.newer != before.newer ==> Rescheduled(s, env, ix, m, before, after))
  }

  /** Every difference between two states of a mint has its reason in the instruction between them, and the agreement of
      the authority that governs it; what no authority governs does not change. */
  ghost predicate MintJustified(s: State, env: Env, ix: Instruction, m: Pubkey, before: Data, after: Data)
    requires before.MintData? && after.MintData?
  {
    var x, y := before.mintExt, after.mintExt;
    && (forall kind: AuthorityType :: MintKey(after, kind) != MintKey(before, kind) ==>
          KeyReplaced(s, ix, m, kind, MintKey(before, kind), MintKey(after, kind)))
    && (after.mint.supply != before.mint.supply ==> SupplyMoved(s, ix, m, before.mint, after.mint))
    && after.mint.decimals == before.mint.decimals && after.mint.isInitialized == before.mint.isInitialized
    && y.nonTransferable == x.nonTransferable && y.closeAuthority.Some? == x.closeAuthority.Some?
    && y.permanentDelegate.Some? == x.permanentDelegate.Some? && y.defaultState.Some? == x.defaultState.Some?
    && y.fee.Some? == x.fee.Some?
    && (y.defaultState != x.defaultState ==>
          && ix.UpdateDefaultState? && ix.mint == m && y.defaultState == Some(ix.state)
          && before.mint.freezeAuthority.Some?
          && Consents(s, before.mint.freezeAuthority.value, ix.authority, ix.signers))
    && (x.fee.Some? ==> FeesJustified(s, env, ix, m, x.fee.value, y.fee.value))
  }

  lemma NothingToJustify(s: State, env: Env, ix: Instruction, m: Pubkey, data: Data)
    requires data.MintData?
    ensures MintJustified(s, env, ix, m, data, data)
  {}

  lemma KeyJustified(s: State, env: Env, ix: Instruction, data: Data)
    requires ix.SetAuthority? && data.MintData? && MintKey(data, ix.kind).Some?
    requires Consents(s, MintKey(data, ix.kind).value, ix.authority, ix.signers)
    ensures var after := AfterMintAuthority(data, ix.kind, ix.newAuthority);
            after.MintData? && MintJustified(s, env, ix, ix.target, data, after)
  {}

  lemma AuthorityJustified(s: State, env: Env, ix: Instruction, m: Pubkey)
    requires ix.SetAuthority? && Admits(s, env, ix) && LiveMint(Get(s, m))
    ensures LiveMint(After(s, env, ix, m))
    ensures MintJustified(s, env, ix, m, Get(s, m).data, After(s, env, ix, m).data)
  {
    if ix.target == m {
      KeyJustified(s, env, ix, Get(s, m).data);
    } else {
      NothingToJustify(s, env, ix, m, Get(s, m).data);
    }
  }

  predicate IsUpdate(ix: Instruction) {
    ix.UpdateDefaultState? || ix.SetTransferFee? || ix.ToggleCpiGuard? || ix.ToggleMemo?
  }

  lemma UpdateJustified(s: State, env: Env, ix: Instruction, m: Pubkey)
    requires IsUpdate(ix) && Admits(s, env, ix) && LiveMint(Get(s, m))
    ensures LiveMint(After(s, env, ix, m))
    ensures MintJustified(s, env, ix, m, Get(s, m).data, After(s, env, ix, m).data)
  {}

  predicate MovesSupply(ix: Instruction) { ix.MintTo? || ix.Burn? }
  predicate MovesFees(ix: Instruction) { ix.HarvestToMint? || ix.WithdrawWithheldFromMint? }

  lemma SupplyJustified(s: State, env: Env, ix: Instruction, m: Pubkey)
    requires MovesSupply(ix) && Admits(s, env, ix) && LiveMint(Get(s, m))
    ensures LiveMint(After(s, env, ix, m))
    ensures MintJustified(s, env, ix, m, Get(s, m).data, After(s, env, ix, m).data)
  {}

  lemma WithheldJustified(s: State, env: Env, ix: Instruction, m: Pubkey)
    requires MovesFees(ix) && Admits(s, env, ix) && LiveMint(Get(s, m))
    ensures LiveMint(After(s, env, ix, m))
    ensures MintJustified(s, env, ix, m, Get(s, m).data, After(s, env, ix, m).data)
  {
    if ix.HarvestToMint? { TakingsPositive(s, ix.mint, ix.sources); }
  }

  lemma OthersLeaveMints(s: State, env: Env, ix: Instruction, m: Pubkey)
    requires !ix.SetAuthority? && !IsUpdate(ix) && !MovesSupply(ix) && !MovesFees(ix)
    requires !(ix.CloseAccount? && ix.source == m)
    requires Admits(s, env, ix) && LiveMint(Get(s, m))
    ensures Live(After(s, env, ix, m)) && After(s, env, ix, m).data == Get(s, m).data
  {}

  lemma MintRuleJustified(s: State, env: Env, ix: Instruction, m: Pubkey)
    requires Admits(s, env, ix) && LiveMint(Get(s, m)) && !(ix.CloseAccount? && ix.source == m)
    ensures LiveMint(After(s, env, ix, m))
    ensures MintJustified(s, env, ix, m, Get(s, m).data, After(s, env, ix, m).data)
  {
    if ix.SetAuthority? {
      AuthorityJustified(s, env, ix, m);
    } else if IsUpdate(ix) {
      UpdateJustified(s, env, ix, m);
    } else if MovesSupply(ix) {
      SupplyJustified(s, env, ix, m);
    } else if MovesFees(ix) {
      WithheldJustified(s, env, ix, m);
    } else {
      OthersLeaveMints(s, env, ix, m);
      NothingToJustify(s, env, ix, m, Get(s, m).data);
    }
  }

  /** On every run: whatever changes in a live mint, extensions included, changes in an accepted instruction with the
      agreement of the authority that governs it, and a key becomes exactly the one given; a mint ends only by its
      closer, with nothing issued. */
  lemma MintChangesNeedAuthorityOnRuns(states: seq<State>, steps: seq<Step>, i: nat, m: Pubkey)
    requires IsRun(states, steps) && i < |steps| && LiveMint(Get(states[i], m))
    ensures var before, after := Get(states[i], m), Get(states[i + 1], m);
            if CloseOf(states[i], steps[i], m) then
              var key := before.data.mintExt.closeAuthority;
              && after == EMPTY_SLOT && before.data.mint.supply == 0 && key.Some? && key.value.Some?
              && Consents(states[i], key.value.value, steps[i].ix.authority, steps[i].ix.signers)
            else
              && LiveMint(after)
              && if Accepted(states[i], steps[i]) then
                   MintJustified(states[i], steps[i].env, steps[i].ix, m, before.data, after.data)
                 else after.data == before.data
  {
    assert StepAt(states, steps, i);
    match steps[i] {
      case Outside => assert OutsideSlot(m, Get(states[i], m), Get(states[i + 1], m));
      case Instruct(env, ix) =>
        if Accepted(states[i], steps[i]) {
          AcceptedExactly(states[i], env, ix);
          if !(ix.CloseAccount? && ix.source == m) { MintRuleJustified(states[i], env, ix, m); }
        }
    }
  }

  // ---- lamports leave only with authority ----

  /** Who let lamports out of slot `k`: a spender of a native account, whoever may close, or whoever holds the
      authority over the excess. */
  predicate Released(s: State, env: Env, ix: Instruction, k: Pubkey) {
    match ix
    case Transfer(source, checked, _, authority, signers, amount, _) =>
      && source == k && Get(s, k).data.AccountData? && Get(s, k).data.account.isNative.Some?
      && MayTake(s, env, Get(s, k).data.account, Get(s, k).data.accountExt, PermanentFor(s, checked), authority,
                 signers, amount)
    case CloseAccount(source, destination, authority, signers) =>
      source == k && MayClose(s, Get(s, k).data, destination, authority, signers)
    case WithdrawExcessLamports(source, _, authority, signers) =>
      source == k && ReleasesExcess(s, k, authority, signers)
    case _ => false
  }

  /** The close authority, or without one an account's owner; anyone where nobody owns the account, towards the
      incinerator. */
  predicate MayClose(s: State, data: Data, destination: Pubkey, authority: Info, signers: seq<Info>) {
    match data
    case AccountData(a, _) =>
      if a.owner == SYSTEM_PROGRAM || a.owner == INCINERATOR then destination == INCINERATOR
      else Consents(s, if a.closeAuthority.Some? then a.closeAuthority.value else a.owner, authority, signers)
    case MintData(_, e) =>
      e.closeAuthority.Some? && e.closeAuthority.value.Some?
      && Consents(s, e.closeAuthority.value.value, authority, signers)
    case _ => false
  }

  predicate PaysOut(ix: Instruction) { ix.Transfer? || ix.CloseAccount? || ix.WithdrawExcessLamports? }

  lemma OthersPayNothing(s: State, env: Env, ix: Instruction, k: Pubkey)
    requires Admits(s, env, ix) && Live(Get(s, k)) && !PaysOut(ix)
    ensures After(s, env, ix, k).lamports >= Get(s, k).lamports
  {}

  lemma PayoutReleased(s: State, env: Env, ix: Instruction, k: Pubkey)
    requires Admits(s, env, ix) && PaysOut(ix)
    ensures After(s, env, ix, k).lamports >= Get(s, k).lamports || Released(s, env, ix, k)
  {}

  lemma PayoutAccepted(s: State, env: Env, ix: Instruction, k: Pubkey)
    requires Execute(s, env, ix).Ok? && Live(Get(s, k))
    ensures Get(Execute(s, env, ix).value, k).lamports >= Get(s, k).lamports || Released(s, env, ix, k)
  {
    AcceptedExactly(s, env, ix);
    if PaysOut(ix) { PayoutReleased(s, env, ix, k); } else { OthersPayNothing(s, env, ix, k); }
  }

  /** On every run: lamports leave a slot of the program only in an accepted transfer out of a native account, close or
      withdrawal of excess, released by whoever governs it. */
  lemma LamportsLeaveOnRuns(states: seq<State>, steps: seq<Step>, i: nat, k: Pubkey)
    requires IsRun(states, steps) && i < |steps| && Live(Get(states[i], k))
    ensures || Get(states[i + 1], k).lamports >= Get(states[i], k).lamports
            || (Accepted(states[i], steps[i]) && Released(states[i], steps[i].env, steps[i].ix, k))
  {
    assert StepAt(states, steps, i);
    match steps[i] {
      case Outside => assert OutsideSlot(k, Get(states[i], k), Get(states[i + 1], k));
      case Instruct(env, ix) => if Accepted(states[i], steps[i]) { PayoutAccepted(states[i], env, ix, k); }
    }
  }

  // ---- fee schedules ----

  predicate SetsSchedule(s: State, step: Step, m: Pubkey) {
    Accepted(s, step) && step.ix.SetTransferFee? && step.ix.mint == m
  }

  /** A change of mint `m`'s schedule, or its end. */
  predicate EndsSchedule(s: State, step: Step, m: Pubkey) {
    CloseOf(s, step, m) || SetsSchedule(s, step, m)
  }

  ghost predicate Charges(slot: Slot, older: Fee, newer: Fee) {
    LiveMint(slot) && FeeMint(slot) && slot.data.mintExt.fee.value.older == older
    && slot.data.mintExt.fee.value.newer == newer
  }

  lemma {:induction false} ScheduleStays(states: seq<State>, steps: seq<Step>, i: nat, j: nat, m: Pubkey, older: Fee,
                                         newer: Fee)
    requires IsRun(states, steps) && i <= j < |states| && Charges(Get(states[i], m), older, newer)
    requires forall n :: i <= n < j ==> !EndsSchedule(states[n], steps[n], m)
    ensures Charges(Get(states[j], m), older, newer)
    decreases j - i
  {
    if i < j {
      ScheduleStays(states, steps, i, j - 1, m, older, newer);
      MintChangesNeedAuthorityOnRuns(states, steps, j - 1, m);
      assert !EndsSchedule(states[j - 1], steps[j - 1], m);
    }
  }

  lemma ScheduleSet(states: seq<State>, steps: seq<Step>, i: nat, m: Pubkey)
    requires IsRun(states, steps) && i < |steps| && LiveMint(Get(states[i], m))
    requires SetsSchedule(states[i], steps[i], m)
    ensures FeeMint(Get(states[i], m))
    ensures Charges(Get(states[i + 1], m), KeptFee(states[i], steps[i], m), GivenFee(steps[i]))
  {
    RulesOnRuns(states, steps, i);
    assert Get(states[i + 1], m) == After(states[i], steps[i].env, steps[i].ix, m);
  }

  /** The destination of a transfer took the amount less the fee, and withheld the fee. */
  predicate Charged(before: Slot, after: Slot, amount: u64, fee: nat) {
    && LiveAccount(before) && LiveAccount(after) && fee <= amount
    && after.data.account.amount == before.data.account.amount + amount - fee
    && Withheld(after.data.accountExt) == Withheld(before.data.accountExt) + fee
  }

  lemma ChargedBy(s: State, env: Env, ix: Instruction, s': State, older: Fee, newer: Fee)
    requires ix.Transfer? && Execute(s, env, ix) == Ok(s') && ix.source != ix.destination && ix.checked.Some?
    requires Charges(Get(s, ix.checked.value.mint), older, newer)
    ensures Charged(Get(s, ix.destination), Get(s', ix.destination), ix.amount,
                    Due(if env.epoch < newer.epoch then older else newer, ix.amount))
  {
    TransferMoves(s, env, ix, s');
  }

  /** An accepted transfer between two accounts that names mint `m`. */
  predicate MovesUnder(s: State, step: Step, m: Pubkey) {
    && Accepted(s, step) && step.ix.Transfer? && step.ix.source != step.ix.destination
    && step.ix.checked.Some? && step.ix.checked.value.mint == m
  }

  lemma ChargedOnRuns(states: seq<State>, steps: seq<Step>, j: nat, m: Pubkey, older: Fee, newer: Fee)
    requires IsRun(states, steps) && j < |steps| && MovesUnder(states[j], steps[j], m)
    requires Charges(Get(states[j], m), older, newer)
    ensures var ix := steps[j].ix;
            Charged(Get(states[j], ix.destination), Get(states[j + 1], ix.destination), ix.amount,
                    Due(if steps[j].env.epoch < newer.epoch then older else newer, ix.amount))
  {
    assert StepAt(states, steps, j);
    ChargedBy(states[j], steps[j].env, steps[j].ix, states[j + 1], older, newer);
  }

  /** The schedule that SetTransferFee leaves: what was in force, then the fee given. */
  function KeptFee(s: State, step: Step, m: Pubkey): Fee
    requires LiveMint(Get(s, m)) && FeeMint(Get(s, m)) && step.Instruct?
  {
    InForce(Get(s, m).data.mintExt.fee.value, step.env.epoch)
  }

  function GivenFee(step: Step): Fee
    requires step.Instruct? && step.ix.SetTransferFee?
  {
    Fee(TwoEpochsOn(step.env.epoch), step.ix.maximumFee, step.ix.basisPoints)
  }

  lemma ScheduleHolds(states: seq<State>, steps: seq<Step>, i: nat, j: nat, m: Pubkey)
    requires IsRun(states, steps) && i < j < |states| && LiveMint(Get(states[i], m))
    requires SetsSchedule(states[i], steps[i], m)
    requires forall n :: i < n < j ==> !EndsSchedule(states[n], steps[n], m)
    ensures FeeMint(Get(states[i], m))
    ensures Charges(Get(states[j], m), KeptFee(states[i], steps[i], m), GivenFee(steps[i]))
  {
    ScheduleSet(states, steps, i, m);
    ScheduleStays(states, steps, i + 1, j, m, KeptFee(states[i], steps[i], m), GivenFee(steps[i]));
  }

  /** After a schedule was set in epoch e, and until the next is set or the mint closed: a transfer before epoch e + 2
      is charged what was in force in e, and from then on the new rate, rounded up or capped. */
  lemma ScheduleOnRuns(states: seq<State>, steps: seq<Step>, i: nat, j: nat, m: Pubkey)
    requires IsRun(states, steps) && i < j < |steps| && LiveMint(Get(states[i], m))
    requires SetsSchedule(states[i], steps[i], m) && MovesUnder(states[j], steps[j], m)
    requires forall n :: i < n < j ==> !EndsSchedule(states[n], steps[n], m)
    ensures FeeMint(Get(states[i], m))
    ensures var to, amount := steps[j].ix.destination, steps[j].ix.amount;
            var fee := Due(if steps[j].env.epoch < TwoEpochsOn(steps[i].env.epoch)
                           then KeptFee(states[i], steps[i], m) else GivenFee(steps[i]), amount);
            Charged(Get(states[j], to), Get(states[j + 1], to), amount, fee)
  {
    ScheduleHolds(states, steps, i, j, m);
    ChargedOnRuns(states, steps, j, m, KeptFee(states[i], steps[i], m), GivenFee(steps[i]));
  }
}

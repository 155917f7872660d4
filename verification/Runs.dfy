/** Runs of the ledger: instructions of the token program interleaved with anything other programs may do. */
module Runs {
  import opened Base
  import opened TokenState
  import opened Ledger
  import opened Handlers
  import opened Invariants
  import opened Steps
  import opened OverflowFreedom

  datatype Step = Instruct(env: Env, ix: Instruction) | Outside

  /** What other programs can do to one slot: credit ours, rewrite their own, or hand us a zeroed one. The native
      mint's address is derived from the token program, so nobody else can assign it. */
  predicate OutsideSlot(k: Pubkey, before: Slot, after: Slot) {
    if Live(before) then after == before.(lamports := after.lamports) && after.lamports >= before.lamports
    else Live(after) ==> after.data == Blank(NoExtension) && k != NATIVE_MINT
  }

  ghost predicate OutsideStep(s: State, s': State) {
    (forall k: Pubkey :: OutsideSlot(k, Get(s, k), Get(s', k))) && TotalLamports(s') == TotalLamports(s)
  }

  /** One step of the ledger; a failed instruction is rolled back. */
  ghost predicate Next(s: State, step: Step, s': State) {
    match step
    case Instruct(env, ix) =>
      var r := Execute(s, env, ix);
      if r.Ok? then s' == r.value else s' == s
    case Outside => OutsideStep(s, s')
  }

  ghost predicate Genesis(s: State) {
    (forall k: Pubkey :: !Live(Get(s, k))) && TotalLamports(s) <= U64_MAX
  }

  ghost predicate StepAt(states: seq<State>, steps: seq<Step>, i: int)
    requires |states| == |steps| + 1 && 0 <= i < |steps|
  {
    Next(states[i], steps[i], states[i + 1])
  }

  ghost predicate IsRun(states: seq<State>, steps: seq<Step>) {
    |states| == |steps| + 1 && forall i :: 0 <= i < |steps| ==> StepAt(states, steps, i)
  }

  // ---- the invariant over runs ----

  lemma GenesisInv(s: State)
    requires Genesis(s)
    ensures Inv(s)
  {
    forall k: Pubkey ensures SlotOk(k, Get(s, k), NativeLive(s)) { assert !Live(Get(s, k)); }
    forall m: Pubkey | m != NATIVE_MINT ensures Held(s, m) == Issued(s, m) {
      forall k | k in s ensures Weights(s, m)[k] == 0 { assert !Live(Get(s, k)); }
      MapSums.AllZero(Weights(s, m));
      assert !Live(Get(s, m));
    }
  }

  lemma OutsideKeeps(s: State, s': State)
    requires Inv(s) && OutsideStep(s, s')
    ensures Inv(s')
  {
    assert OutsideSlot(NATIVE_MINT, Get(s, NATIVE_MINT), Get(s', NATIVE_MINT));
    forall k: Pubkey ensures SlotOk(k, Get(s', k), NativeLive(s')) {
      assert SlotOk(k, Get(s, k), NativeLive(s));
      assert OutsideSlot(k, Get(s, k), Get(s', k));
    }
    forall m: Pubkey | m != NATIVE_MINT ensures Held(s', m) == Issued(s', m) {
      forall k ensures MapSums.At(Weights(s, m), k) == MapSums.At(Weights(s', m), k) {
        if k in s || k in s' {
          assert OutsideSlot(k, Get(s, k), Get(s', k));
          assert MapSums.At(Weights(s, m), k) == Weight(Get(s, k), m);
          assert MapSums.At(Weights(s', m), k) == Weight(Get(s', k), m);
        }
      }
      MapSums.SameValues(Weights(s, m), Weights(s', m));
      assert OutsideSlot(m, Get(s, m), Get(s', m));
      assert Held(s, m) == Issued(s, m);
    }
  }

  lemma NextKeeps(s: State, step: Step, s': State)
    requires Inv(s) && Next(s, step, s')
    ensures Inv(s') && TotalLamports(s') == TotalLamports(s)
  {
    match step {
      case Instruct(env, ix) =>
        if Execute(s, env, ix).Ok? { ExecuteKeeps(s, env, ix, s'); }
      case Outside => OutsideKeeps(s, s');
    }
  }

  lemma {:induction false} RunKeeps(states: seq<State>, steps: seq<Step>, i: nat)
    requires IsRun(states, steps) && Inv(states[0]) && i < |states|
    ensures Inv(states[i]) && TotalLamports(states[i]) == TotalLamports(states[0])
  {
    if i > 0 {
      RunKeeps(states, steps, i - 1);
      assert StepAt(states, steps, i - 1);
      NextKeeps(states[i - 1], steps[i - 1], states[i]);
    }
  }

  // ---- what it says, in the program's own terms ----

  /** Supply conservation over every run from genesis: a live mint's supply is what its live accounts hold, with the
      fees withheld in them and in the mint; without a live mint nothing is held. */
  lemma SupplyConserved(states: seq<State>, steps: seq<Step>, i: nat, m: Pubkey)
    requires IsRun(states, steps) && Genesis(states[0]) && i < |states| && m != NATIVE_MINT
    ensures LiveMint(Get(states[i], m)) ==>
              Get(states[i], m).data.mint.supply ==
              Held(states[i], m) + MintWithheld(Get(states[i], m).data.mintExt)
    ensures !LiveMint(Get(states[i], m)) ==> Held(states[i], m) == 0
  {
    GenesisInv(states[0]);
    RunKeeps(states, steps, i);
    assert Held(states[i], m) == Issued(states[i], m);
  }

  /** Native backing over every run: an account is native exactly when its mint is, and its lamports cover its
      amount and its reserve. */
  lemma NativeBacked(states: seq<State>, steps: seq<Step>, i: nat, k: Pubkey)
    requires IsRun(states, steps) && Genesis(states[0]) && i < |states| && LiveAccount(Get(states[i], k))
    ensures var slot := Get(states[i], k);
            var a := slot.data.account;
            (a.isNative.Some? <==> a.mint == NATIVE_MINT)
            && (a.isNative.Some? ==> slot.lamports >= a.amount + a.isNative.value && a.state != Frozen)
  {
    GenesisInv(states[0]);
    RunKeeps(states, steps, i);
    assert SlotOk(k, Get(states[i], k), NativeLive(states[i]));
  }

  /** No delegate, no allowance, in every reachable state. */
  lemma NoDelegateNoAllowance(states: seq<State>, steps: seq<Step>, i: nat, k: Pubkey)
    requires IsRun(states, steps) && Genesis(states[0]) && i < |states| && LiveAccount(Get(states[i], k))
    ensures Get(states[i], k).data.account.delegate.None? ==> Get(states[i], k).data.account.delegatedAmount == 0
  {
    GenesisInv(states[0]);
    RunKeeps(states, steps, i);
    assert SlotOk(k, Get(states[i], k), NativeLive(states[i]));
  }

  /** In every reachable state, exactly when an instruction reports `Overflow`: it mints past the supply cap, or is
      handed another program's slot in the place of a token account, with figures that do not fit. */
  lemma OverflowsExactlyOnRuns(states: seq<State>, steps: seq<Step>, i: nat, env: Env, ix: Instruction)
    requires IsRun(states, steps) && Genesis(states[0]) && i < |states|
    ensures Handle(states[i], env, ix) == Err(Overflow) <==> Overflows(states[i], env, ix)
  {
    GenesisInv(states[0]);
    RunKeeps(states, steps, i);
    OverflowsExactly(states[i], env, ix);
  }

  /** Lamports are neither made nor lost on any run. */
  lemma LamportsConserved(states: seq<State>, steps: seq<Step>, i: nat)
    requires IsRun(states, steps) && Genesis(states[0]) && i < |states|
    ensures TotalLamports(states[i]) == TotalLamports(states[0])
  {
    GenesisInv(states[0]);
    RunKeeps(states, steps, i);
  }

  /** Withdrawing the excess moves lamports only, and leaves exactly the rent minimum in a source distinct from the
      destination, in any state. */
  lemma WithdrawLeavesTheMinimum(s: State, env: Env, source: Pubkey, destination: Pubkey, authority: Info,
                                 signers: seq<Info>, s': State)
    requires Execute(s, env, WithdrawExcessLamports(source, destination, authority, signers)) == Ok(s')
    ensures source != destination ==> Get(s', source) == Get(s, source).(lamports := env.rent(Get(s, source).len))
    ensures source == destination ==> s' == s
    ensures TotalLamports(s') == TotalLamports(s)
    ensures forall k: Pubkey :: Get(s', k) == Get(s, k).(lamports := Get(s', k).lamports)
  {
    if source != destination { TotalTwoPuts(s, source, s'[source], destination, s'[destination]); }
  }
}

/** What every reachable state satisfies, and the lemmas that carry it over a change of one or two slots. */
module Invariants {
  import opened Base
  import opened TokenState
  import opened TransferFees
  import opened Ledger
  import opened Handlers

  predicate AccountOk(a: Account, e: AccountExt, lamports: u64, nativeLive: bool) {
    && (a.isNative.Some? <==> a.mint == NATIVE_MINT)
    && (a.isNative.Some? ==>
          nativeLive && a.state == Initialized && e.withheld.None? && lamports >= a.amount + a.isNative.value)
    && (a.delegate.None? ==> a.delegatedAmount == 0)
    && a.state != Uninitialized
  }

  predicate MintOk(e: MintExt) {
    && (e.fee.Some? ==> LegalConfig(e.fee.value))
    && (e.defaultState.Some? ==> e.defaultState.value != Uninitialized)
  }

  /** The local part: what a program-owned slot looks like. */
  predicate SlotOk(k: Pubkey, slot: Slot, nativeLive: bool) {
    Live(slot) ==>
      && (k == NATIVE_MINT ==> slot.data == NATIVE_MINT_DATA)
      && match slot.data
         case AccountData(a, e) => AccountOk(a, e, slot.lamports, nativeLive)
         case MintData(mint, e) => MintOk(e)
         case MultisigData(ms) => ms.isInitialized && 1 <= ms.n <= MAX_SIGNERS && 1 <= ms.m <= MAX_SIGNERS
                                  && slot.len == MULTISIG_LEN
         case Blank(ForMint(e)) => MintOk(e) && MintWithheld(e) == 0
         case Blank(ForAccount(e)) => e.withheld.None?
         case Blank(NoExtension) => true
         case Opaque => false
  }

  predicate NativeLive(s: State) { Live(Get(s, NATIVE_MINT)) }

  ghost predicate SlotsOk(s: State) {
    forall k: Pubkey :: SlotOk(k, Get(s, k), NativeLive(s))
  }

  /** Supply conservation: what accounts hold is what mints say is out. The native mint issues nothing. */
  ghost predicate Balanced(s: State) {
    forall m: Pubkey :: m != NATIVE_MINT ==> Held(s, m) == Issued(s, m)
  }

  ghost predicate Inv(s: State) {
    SlotsOk(s) && Balanced(s) && TotalLamports(s) <= U64_MAX
  }

  // ---- carrying the invariant over a change ----

  /** How far slot `k` moves the books of mint `m`. */
  function Delta(k: Pubkey, before: Slot, after: Slot, m: Pubkey): int {
    Weight(after, m) - Weight(before, m) - if m == k then IssuedBy(after) - IssuedBy(before) else 0
  }

  lemma OnePut(s: State, k: Pubkey, slot: Slot)
    requires Inv(s)
    requires k == NATIVE_MINT ==> Live(slot) || !NativeLive(s)
    requires SlotOk(k, slot, NativeLive(s) || (k == NATIVE_MINT && Live(slot)))
    requires forall m: Pubkey :: m != NATIVE_MINT ==> Delta(k, Get(s, k), slot, m) == 0
    requires TotalLamports(Put(s, k, slot)) <= U64_MAX
    ensures Inv(Put(s, k, slot))
  {
    var s' := Put(s, k, slot);
    forall j: Pubkey ensures SlotOk(j, Get(s', j), NativeLive(s')) {
      assert SlotOk(j, Get(s, j), NativeLive(s));
    }
    forall m: Pubkey | m != NATIVE_MINT ensures Held(s', m) == Issued(s', m) {
      HeldPut(s, k, slot, m);
      assert Delta(k, Get(s, k), slot, m) == 0;
    }
  }

  /** Neither slot's new content takes the native mint away; the flag is what becomes of it. */
  predicate NativeAfter(s: State, k: Pubkey, a: Slot, l: Pubkey, b: Slot) {
    NativeLive(s) || (k == NATIVE_MINT && Live(a)) || (l == NATIVE_MINT && Live(b))
  }

  /** What two new slot contents must satisfy one by one. */
  predicate PairOk(s: State, k: Pubkey, a: Slot, l: Pubkey, b: Slot) {
    && k != l
    && (k == NATIVE_MINT ==> Live(a) || !NativeLive(s))
    && (l == NATIVE_MINT ==> Live(b) || !NativeLive(s))
    && SlotOk(k, a, NativeAfter(s, k, a, l, b)) && SlotOk(l, b, NativeAfter(s, k, a, l, b))
  }

  lemma TwoPutsSlots(s: State, k: Pubkey, a: Slot, l: Pubkey, b: Slot)
    requires SlotsOk(s) && PairOk(s, k, a, l, b)
    ensures SlotsOk(Put(Put(s, k, a), l, b))
  {
    var s' := Put(Put(s, k, a), l, b);
    assert NativeLive(s') == NativeAfter(s, k, a, l, b);
    forall j: Pubkey ensures SlotOk(j, Get(s', j), NativeLive(s')) {
      assert SlotOk(j, Get(s, j), NativeLive(s));
    }
  }

  lemma TwoPutsBooks(s: State, k: Pubkey, a: Slot, l: Pubkey, b: Slot, m: Pubkey)
    requires k != l && Held(s, m) == Issued(s, m)
    requires Delta(k, Get(s, k), a, m) + Delta(l, Get(s, l), b, m) == 0
    ensures Held(Put(Put(s, k, a), l, b), m) == Issued(Put(Put(s, k, a), l, b), m)
  {
    HeldPut(s, k, a, m);
    HeldPut(Put(s, k, a), l, b, m);
  }

  lemma TwoPuts(s: State, k: Pubkey, a: Slot, l: Pubkey, b: Slot)
    requires Inv(s) && PairOk(s, k, a, l, b)
    requires forall m: Pubkey :: m != NATIVE_MINT ==> Delta(k, Get(s, k), a, m) + Delta(l, Get(s, l), b, m) == 0
    requires a.lamports + b.lamports == Get(s, k).lamports + Get(s, l).lamports
    ensures Inv(Put(Put(s, k, a), l, b))
    ensures TotalLamports(Put(Put(s, k, a), l, b)) == TotalLamports(s)
  {
    TwoPutsSlots(s, k, a, l, b);
    TotalTwoPuts(s, k, a, l, b);
    var s' := Put(Put(s, k, a), l, b);
    forall m: Pubkey | m != NATIVE_MINT ensures Held(s', m) == Issued(s', m) {
      assert Delta(k, Get(s, k), a, m) + Delta(l, Get(s, l), b, m) == 0;
      assert Held(s, m) == Issued(s, m);
      TwoPutsBooks(s, k, a, l, b, m);
    }
  }

  /** The sum of two slots' lamports decides the total after both are replaced. */
  lemma TotalTwoPuts(s: State, k: Pubkey, a: Slot, l: Pubkey, b: Slot)
    requires k != l
    ensures TotalLamports(Put(Put(s, k, a), l, b)) ==
            TotalLamports(s) - Get(s, k).lamports - Get(s, l).lamports + a.lamports + b.lamports
  {
    TotalPut(s, k, a);
    TotalPut(Put(s, k, a), l, b);
  }

  // ---- what the invariant says about amounts ----

  /** Two accounts of one mint never hold more than the mint's supply, and nothing once the mint is gone. */
  lemma PairWithinSupply(s: State, k: Pubkey, l: Pubkey, m: Pubkey)
    requires Inv(s) && k != l && m != NATIVE_MINT
    ensures Weight(Get(s, k), m) + Weight(Get(s, l), m) <= Issued(s, m) <= U64_MAX
    ensures !LiveMint(Get(s, m)) ==> Weight(Get(s, k), m) == 0
  {
    HeldBoundsPair(s, k, l, m);
    HeldBounds(s, k, m);
    HeldBounds(s, l, m);
    assert Held(s, m) == Issued(s, m);
  }

  lemma WithinSupply(s: State, k: Pubkey, m: Pubkey)
    requires Inv(s) && m != NATIVE_MINT
    ensures 0 <= Weight(Get(s, k), m) <= Issued(s, m) <= U64_MAX
    ensures !LiveMint(Get(s, m)) ==> Weight(Get(s, k), m) == 0
  {
    HeldBounds(s, k, m);
    assert Held(s, m) == Issued(s, m);
  }
}

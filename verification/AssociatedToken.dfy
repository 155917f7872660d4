/** The associated-token-account program: a client of the token program and the system program that creates token
    accounts at derived addresses and empties accounts that were nested by mistake. */
module AssociatedToken {
  import opened Base
  import opened TokenState
  import opened Ledger
  import opened Handlers
  import opened Invariants
  import opened Steps
  import opened Runs
  import opened Processor
  import opened Authority
  import opened Rules
  import opened Effects
  import opened Histories
  import opened Governance

  /** `derive(wallet, mint)` is the associated address; nothing is assumed about it. */
  type Derivation = (Pubkey, Pubkey) -> Pubkey

  // ---- recovering a nested account ----

  datatype Nesting = Nesting(nested: Pubkey, nestedMint: Pubkey, destination: Pubkey, ownerAta: Pubkey,
                             ownerMint: Pubkey, wallet: Info)

  /** Every check before the first invocation, in the source's order. */
  function NestingAllowed(s: State, derive: Derivation, x: Nesting): Outcome<Error> {
    var owner, nested := Get(s, x.ownerAta), Get(s, x.nested);
    if derive(x.wallet.key, x.ownerMint) != x.ownerAta then Fail(InvalidSeeds)
    else if derive(x.ownerAta, x.nestedMint) != x.nested then Fail(InvalidSeeds)
    else if derive(x.wallet.key, x.nestedMint) != x.destination then Fail(InvalidSeeds)
    else if !x.wallet.isSigner then Fail(MissingRequiredSignature)
    else if !Live(Get(s, x.ownerMint)) then Fail(IllegalOwner)
    else if !Live(owner) then Fail(IllegalOwner)
    else if !owner.data.AccountData? then Fail(InvalidAccountData)
    else if owner.data.account.owner != x.wallet.key then Fail(InvalidOwner)
    else if !Live(nested) then Fail(IllegalOwner)
    else if !nested.data.AccountData? then Fail(InvalidAccountData)
    else if nested.data.account.owner != x.ownerAta then Fail(InvalidOwner)
    else if !Live(Get(s, x.nestedMint)) then Fail(IllegalOwner)
    else if !Get(s, x.nestedMint).data.MintData? then Fail(InvalidAccountData)
    else Pass
  }

  /** The first invocation: everything in the nested account goes to the wallet's own account, signed by the owner
      account's seeds. */
  function EmptyNested(s: State, x: Nesting): Instruction
    requires Get(s, x.nested).data.AccountData? && Get(s, x.nestedMint).data.MintData?
  {
    Transfer(x.nested, Some(Checked(x.nestedMint, Get(s, x.nestedMint).data.mint.decimals)), x.destination,
             Info(x.ownerAta, true), [], Get(s, x.nested).data.account.amount, None)
  }

  /** The second: the empty account is closed towards the wallet. */
  function CloseNested(x: Nesting): Instruction {
    CloseAccount(x.nested, x.wallet.key, Info(x.ownerAta, true), [])
  }

  function RecoverNested(s: State, env: Env, derive: Derivation, x: Nesting): Result<State, Error> {
    var cpi := env.(inCpi := true);
    :- NestingAllowed(s, derive, x);
    var s1 :- Execute(s, cpi, EmptyNested(s, x));
    Execute(s1, cpi, CloseNested(x))
  }

  /** The program itself: validate, transfer, close; an error restores the slots. */
  method ProcessRecoverNested(program: TokenProgram, env: Env, derive: Derivation, x: Nesting)
    returns (r: Outcome<Error>)
    modifies program
    ensures match RecoverNested(old(program.slots), env, derive, x)
            case Ok(s) => r.Pass? && program.slots == s
            case Err(e) => r == Fail(e) && program.slots == old(program.slots)
    ensures Inv(old(program.slots)) ==>
              Inv(program.slots) && TotalLamports(program.slots) == TotalLamports(old(program.slots))
  {
    var saved := program.slots;
    r := NestingAllowed(program.slots, derive, x);
    if r.Fail? { return; }
    r := program.Run(env.(inCpi := true), EmptyNested(program.slots, x));
    if r.Fail? { return; }
    r := program.Run(env.(inCpi := true), CloseNested(x));
    if r.Fail? { program.slots := saved; }
  }

  /** The fee the nested mint charges on the whole nested amount. */
  function NestedFee(s: State, env: Env, x: Nesting): nat
    requires Get(s, x.nested).data.AccountData? && Get(s, x.nestedMint).data.MintData?
  {
    FeeOn(s, env, EmptyNested(s, x).checked, Get(s, x.nested).data.account.amount)
  }

  /** The slot took the nested amount less the fee, and withheld the fee; nothing else of its record changed. */
  predicate Took(before: Slot, after: Slot, amount: u64, fee: nat) {
    && fee <= amount && LiveAccount(before) && LiveAccount(after)
    && after.data.account == before.data.account.(amount := after.data.account.amount)
    && after.data.account.amount == before.data.account.amount + amount - fee
    && Withheld(after.data.accountExt) == Withheld(before.data.accountExt) + fee
  }

  /** The nested amount went to the destination, and nothing else changed but the two accounts. */
  ghost predicate Emptied(s: State, x: Nesting, fee: nat, s1: State) {
    && LiveAccount(Get(s, x.nested)) && x.nested != x.nestedMint && x.destination != x.nestedMint
    && (x.nested != x.destination ==>
          Took(Get(s, x.destination), Get(s1, x.destination), Get(s, x.nested).data.account.amount, fee))
    && forall k: Pubkey :: k != x.nested && k != x.destination ==> Get(s1, k) == Get(s, k)
  }

  lemma NestedEmptied(s: State, env: Env, x: Nesting, s1: State)
    requires LiveAccount(Get(s, x.nested)) && LiveMint(Get(s, x.nestedMint))
    requires Execute(s, env, EmptyNested(s, x)) == Ok(s1)
    ensures Emptied(s, x, NestedFee(s, env, x), s1)
  {
    TransferAccepted(s, env, EmptyNested(s, x));
  }

  function Closed(s: State, x: Nesting): State
    requires Get(s, x.wallet.key).lamports + Get(s, x.nested).lamports <= U64_MAX
  {
    var wallet := Get(s, x.wallet.key);
    Put(Put(s, x.wallet.key, wallet.(lamports := wallet.lamports + Get(s, x.nested).lamports)), x.nested, EMPTY_SLOT)
  }

  lemma EmptiedThenClosed(s: State, x: Nesting, fee: nat, s1: State)
    requires Emptied(s, x, fee, s1) && x.nested != x.wallet.key
    requires Get(s1, x.wallet.key).lamports + Get(s1, x.nested).lamports <= U64_MAX
    ensures var s' := Closed(s1, x);
            && Get(s', x.nested) == EMPTY_SLOT
            && (x.nested != x.destination ==>
                  Took(Get(s, x.destination), Get(s', x.destination), Get(s, x.nested).data.account.amount, fee))
            && Get(s', x.nestedMint).data == Get(s, x.nestedMint).data
            && forall k: Pubkey :: k != x.nested && k != x.destination ==>
                 Get(s', k) == Get(s, k).(lamports := Get(s', k).lamports)
  {}

  lemma RecoverSteps(s: State, env: Env, derive: Derivation, x: Nesting, s': State) returns (s1: State)
    requires RecoverNested(s, env, derive, x) == Ok(s')
    ensures LiveAccount(Get(s, x.nested)) && LiveMint(Get(s, x.nestedMint))
    ensures Execute(s, env.(inCpi := true), EmptyNested(s, x)) == Ok(s1)
    ensures Execute(s1, env.(inCpi := true), CloseNested(x)) == Ok(s')
  {
    s1 := Execute(s, env.(inCpi := true), EmptyNested(s, x)).value;
  }

  /** Recovery composes: the nested account is deleted, the wallet's token account gains the whole nested amount less
      the fee withheld there, the mint keeps its supply, and no other slot changes anything but lamports. */
  lemma RecoverNestedEffect(s: State, env: Env, derive: Derivation, x: Nesting, s': State)
    requires RecoverNested(s, env, derive, x) == Ok(s')
    ensures LiveAccount(Get(s, x.nested)) && LiveMint(Get(s, x.nestedMint))
    ensures Get(s', x.nested) == EMPTY_SLOT && x.nested != x.wallet.key
    ensures x.nested != x.destination ==>
              Took(Get(s, x.destination), Get(s', x.destination), Get(s, x.nested).data.account.amount,
                   NestedFee(s, env, x))
    ensures Get(s', x.nestedMint).data == Get(s, x.nestedMint).data
    ensures forall k: Pubkey :: k != x.nested && k != x.destination ==>
              Get(s', k) == Get(s, k).(lamports := Get(s', k).lamports)
  {
    var s1 := RecoverSteps(s, env, derive, x, s');
    NestedEmptied(s, env.(inCpi := true), x, s1);
    CloseNestedEffect(s1, env.(inCpi := true), x, s');
    EmptiedThenClosed(s, x, NestedFee(s, env, x), s1);
  }

  /** The wallet receives every lamport the transfer left in the nested account; a native transfer has already taken
      the wrapped lamports to the destination; nobody else gains or loses one. */
  lemma RecoverNestedLamports(s: State, env: Env, derive: Derivation, x: Nesting, s': State)
    requires RecoverNested(s, env, derive, x) == Ok(s')
    ensures var src := Get(s, x.nested);
            && src.data.AccountData?
            && var moved := if x.nested == x.destination then 0 else NativeTokens(src.data.account);
               forall k: Pubkey :: k != x.nested ==>
                 Get(s', k).lamports == Get(s, k).lamports + (if k == x.wallet.key then src.lamports - moved else 0)
                                        + (if k == x.destination then moved else 0)
  {
    var s1 := RecoverSteps(s, env, derive, x, s');
    TransferAccepted(s, env.(inCpi := true), EmptyNested(s, x));
    CloseNestedEffect(s1, env.(inCpi := true), x, s');
  }

  lemma CloseNestedEffect(s: State, env: Env, x: Nesting, s': State)
    requires Execute(s, env, CloseNested(x)) == Ok(s')
    ensures x.nested != x.wallet.key && Get(s, x.wallet.key).lamports + Get(s, x.nested).lamports <= U64_MAX
    ensures s' == Closed(s, x)
  {}

  // ---- exactly when a nested account is recovered ----

  /** The three addresses are derived as they should be, the wallet signed, and it owns the owner account, which owns
      the nested one; both mints belong to the token program. */
  predicate NestedUnder(s: State, derive: Derivation, x: Nesting) {
    var owner, nested := Get(s, x.ownerAta), Get(s, x.nested);
    && x.ownerAta == derive(x.wallet.key, x.ownerMint) && x.nested == derive(x.ownerAta, x.nestedMint)
    && x.destination == derive(x.wallet.key, x.nestedMint) && x.wallet.isSigner
    && LiveAccount(owner) && owner.data.account.owner == x.wallet.key
    && LiveAccount(nested) && nested.data.account.owner == x.ownerAta
    && Live(Get(s, x.ownerMint)) && LiveMint(Get(s, x.nestedMint))
  }

  /** Once emptied, the nested account can be closed towards the wallet, in terms of the slots before the transfer. */
  predicate NestedCloses(s: State, x: Nesting)
    requires Get(s, x.nested).data.AccountData?
  {
    var nested, a, e := Get(s, x.nested), Get(s, x.nested).data.account, Get(s, x.nested).data.accountExt;
    var kept := if x.wallet.key == x.destination || a.isNative.None? || x.nested == x.destination then nested.lamports
                else nested.lamports - a.amount;
    && x.nested != x.wallet.key && Get(s, x.wallet.key).lamports + kept <= U64_MAX
    && (a.isNative.Some? || a.amount == 0 || x.nested != x.destination)
    && (e.withheld.None? || e.withheld.value == 0)
    && if a.owner == SYSTEM_PROGRAM || a.owner == INCINERATOR then x.wallet.key == INCINERATOR
       else && Consents(s, if a.closeAuthority.Some? then a.closeAuthority.value else a.owner, Info(x.ownerAta, true),
                        [])
            && (e.cpiGuard == Some(true) ==> x.wallet.key == a.owner)
  }

  lemma TransferAccepted(s: State, env: Env, ix: Instruction)
    requires ix.Transfer?
    ensures Execute(s, env, ix).Ok? <==> AdmitsTransfer(s, env, ix)
    ensures Execute(s, env, ix).Ok? ==>
              forall k: Pubkey :: Get(Execute(s, env, ix).value, k) == AfterTransfer(s, env, ix, k)
  {
    AcceptedExactly(s, env, ix);
  }

  lemma CloseAccepted(s: State, env: Env, ix: Instruction)
    requires ix.CloseAccount? && Live(Get(s, ix.source))
    ensures Execute(s, env, ix).Ok? <==> AdmitsClose(s, env, ix)
  {
    AcceptedExactly(s, env, ix);
  }

  /** The transfer leaves the close as admissible as its own terms say. */
  lemma CloseForeseen(s: State, env: Env, x: Nesting, s1: State)
    requires LiveAccount(Get(s, x.nested)) && LiveMint(Get(s, x.nestedMint)) && env.inCpi
    requires AdmitsTransfer(s, env, EmptyNested(s, x))
    requires forall k: Pubkey :: Get(s1, k) == AfterTransfer(s, env, EmptyNested(s, x), k)
    ensures Live(Get(s1, x.nested)) && (AdmitsClose(s1, env, CloseNested(x)) <==> NestedCloses(s, x))
  {
    var a, a1 := Get(s, x.nested).data.account, Get(s1, x.nested).data.account;
    assert a1.owner == a.owner && a1.closeAuthority == a.closeAuthority && a1.isNative == a.isNative;
    forall key: Pubkey
      ensures Consents(s1, key, Info(x.ownerAta, true), []) <==> Consents(s, key, Info(x.ownerAta, true), [])
    {
      assert Get(s1, key) == AfterTransfer(s, env, EmptyNested(s, x), key);
    }
    assert Get(s1, x.wallet.key) == AfterTransfer(s, env, EmptyNested(s, x), x.wallet.key);
  }

  /** Exactly when recovery succeeds, from the slots before it: the accounts are nested as claimed, the transfer of
      everything is admitted, and the emptied account can be closed. */
  lemma RecoverExactly(s: State, env: Env, derive: Derivation, x: Nesting)
    ensures RecoverNested(s, env, derive, x).Ok? <==>
            && NestedUnder(s, derive, x)
            && AdmitsTransfer(s, env.(inCpi := true), EmptyNested(s, x))
            && NestedCloses(s, x)
  {
    var cpi := env.(inCpi := true);
    assert NestingAllowed(s, derive, x).Pass? <==> NestedUnder(s, derive, x);
    if NestedUnder(s, derive, x) {
      TransferAccepted(s, cpi, EmptyNested(s, x));
      var r := Execute(s, cpi, EmptyNested(s, x));
      if r.Ok? {
        CloseForeseen(s, cpi, x, r.value);
        CloseAccepted(r.value, cpi, CloseNested(x));
      }
    }
  }

  // ---- creating the associated account ----

  datatype CreateMode = Always | Idempotent

  datatype Creation = Creation(funder: Info, ata: Pubkey, wallet: Pubkey, mint: Pubkey)

  /** The length the token program reports for an account of the mint that also has an immutable owner. */
  function AccountDataSize(s: State, mint: Pubkey): Result<nat, Error> {
    var slot := Get(s, mint);
    :- Need(slot.data.MintData?, InvalidMint);
    :- Need(Live(slot), IncorrectProgramId);
    var ext := AddRequired(NO_ACCOUNT_EXT.(immutableOwner := true), slot.data.mintExt);
    Ok(RequiredLen(ACCOUNT_LEN, AccountTlv(ext)))
  }

  function AtLeastOne(rent: u64): u64 { if rent > 1 then rent else 1 }

  /** Allocate and assign, signed by the address's own seeds: the slot must be an unallocated system account. */
  function AllocateAndAssign(s: State, k: Pubkey, space: nat): Result<State, Error> {
    var slot := Get(s, k);
    :- Need(slot.owner == SYSTEM_PROGRAM && slot.len == 0, AccountAlreadyInUse);
    Ok(Put(s, k, Slot(slot.lamports, TOKEN_PROGRAM, space, Blank(NoExtension))))
  }

  /** `create_pda_account`: top up and take over a slot that holds lamports, or create it from nothing. */
  function CreatePda(s: State, env: Env, payer: Info, k: Pubkey, space: nat): Result<State, Error> {
    var needed, have := AtLeastOne(env.rent(space)), Get(s, k).lamports;
    if have > 0 then
      var missing := if needed > have then needed - have else 0;
      var s1 :- if missing > 0 then SystemTransfer(s, payer, k, missing) else Ok(s);
      AllocateAndAssign(s1, k, space)
    else
      var s1 :- AllocateAndAssign(s, k, space);
      SystemTransfer(s1, payer, k, needed)
  }

  function CreateAssociated(s: State, env: Env, derive: Derivation, x: Creation, mode: CreateMode)
    : Result<State, Error>
  {
    var slot := Get(s, x.ata);
    :- Need(derive(x.wallet, x.mint) == x.ata, InvalidSeeds);
    if mode == Idempotent && LiveAccount(slot) then
      :- Need(slot.data.account.owner == x.wallet, InvalidOwner);
      :- Need(slot.data.account.mint == x.mint, InvalidAccountData);
      Ok(s)
    else
      :- Need(slot.owner == SYSTEM_PROGRAM, IllegalOwner);
      var space :- AccountDataSize(s, x.mint);
      var s1 :- CreatePda(s, env, x.funder, x.ata, space);
      var s2 :- Execute(s1, env.(inCpi := true), InitializeImmutableOwner(x.ata));
      Execute(s2, env.(inCpi := true), InitializeAccount(x.ata, x.mint, x.wallet))
  }

  // ---- the system program's instructions, in place ----

  /** Space for an unallocated system account, zeroed. */
  method Allocate(program: TokenProgram, k: Pubkey, space: nat) returns (r: Outcome<Error>)
    modifies program
    ensures var slot := Get(old(program.slots), k);
            if slot.owner == SYSTEM_PROGRAM && slot.len == 0
            then r.Pass? && program.slots == Put(old(program.slots), k,
                                                 slot.(len := space, data := Blank(NoExtension)))
            else r == Fail(AccountAlreadyInUse) && program.slots == old(program.slots)
  {
    var slot := Get(program.slots, k);
    if slot.owner != SYSTEM_PROGRAM || slot.len != 0 { return Fail(AccountAlreadyInUse); }
    program.slots := program.slots[k := slot.(len := space, data := Blank(NoExtension))];
    r := Pass;
  }

  /** A system account changes hands. */
  method Assign(program: TokenProgram, k: Pubkey, owner: Pubkey)
    modifies program
    ensures program.slots == Put(old(program.slots), k, Get(old(program.slots), k).(owner := owner))
  {
    program.slots := program.slots[k := Get(program.slots, k).(owner := owner)];
  }

  /** `create_pda_account`: top up, allocate and assign a slot that holds lamports; create one that holds none. */
  method ProcessCreatePda(program: TokenProgram, env: Env, payer: Info, k: Pubkey, space: nat)
    returns (r: Outcome<Error>)
    modifies program
    ensures Computes(CreatePda(old(program.slots), env, payer, k, space), r, program.slots)
  {
    var needed := AtLeastOne(env.rent(space));
    var have := Get(program.slots, k).lamports;
    if have > 0 && needed > have {
      r := program.SystemPay(payer, k, needed - have);
      if r.Fail? { return; }
    }
    r := Allocate(program, k, space);
    if r.Fail? { return; }
    Assign(program, k, TOKEN_PROGRAM);
    if have == 0 { r := program.SystemPay(payer, k, needed); }
  }

  method ProcessCreate(program: TokenProgram, env: Env, derive: Derivation, x: Creation, mode: CreateMode)
    returns (r: Outcome<Error>)
    modifies program
    ensures match CreateAssociated(old(program.slots), env, derive, x, mode)
            case Ok(s) => r.Pass? && program.slots == s
            case Err(e) => r == Fail(e) && program.slots == old(program.slots)
  {
    var saved := program.slots;
    var slot := Get(program.slots, x.ata);
    if derive(x.wallet, x.mint) != x.ata { return Fail(InvalidSeeds); }
    if mode == Idempotent && LiveAccount(slot) {
      if slot.data.account.owner != x.wallet { return Fail(InvalidOwner); }
      if slot.data.account.mint != x.mint { return Fail(InvalidAccountData); }
      return Pass;
    }
    if slot.owner != SYSTEM_PROGRAM { return Fail(IllegalOwner); }
    var space := AccountDataSize(program.slots, x.mint);
    if space.Err? { return Fail(space.error); }
    r := ProcessCreatePda(program, env, x.funder, x.ata, space.value);
    if r.Fail? { program.slots := saved; return; }
    r := program.Run(env.(inCpi := true), InitializeImmutableOwner(x.ata));
    if r.Fail? { program.slots := saved; return; }
    r := program.Run(env.(inCpi := true), InitializeAccount(x.ata, x.mint, x.wallet));
    if r.Fail? { program.slots := saved; }
  }

  // ---- what creation promises ----

  /** The lamports the funder still has to add to slot `k`. */
  function Missing(s: State, env: Env, k: Pubkey, space: nat): u64 {
    var needed, have := AtLeastOne(env.rent(space)), Get(s, k).lamports;
    if needed > have then needed - have else 0
  }

  /** The funder can pay: always asked when the slot is empty, otherwise only when lamports are missing. */
  predicate CanFund(s: State, env: Env, payer: Info, k: Pubkey, space: nat) {
    var from := Get(s, payer.key);
    (Get(s, k).lamports > 0 && Missing(s, env, k, space) == 0)
    || (payer.isSigner && payer.key != k && from.owner == SYSTEM_PROGRAM && from.len == 0
        && from.lamports >= Missing(s, env, k, space))
  }

  /** Both branches of `create_pda_account` meet in one slot: the funder pays exactly what was missing. */
  lemma CreatePdaExactly(s: State, env: Env, payer: Info, k: Pubkey, space: nat)
    ensures CreatePda(s, env, payer, k, space).Ok?
       <==> Get(s, k).owner == SYSTEM_PROGRAM && Get(s, k).len == 0 && CanFund(s, env, payer, k, space)
    ensures CreatePda(s, env, payer, k, space).Ok? ==>
      var s' := CreatePda(s, env, payer, k, space).value;
      var missing := Missing(s, env, k, space);
      && Get(s', k) == Slot(Get(s, k).lamports + missing, TOKEN_PROGRAM, space, Blank(NoExtension))
      && (missing > 0 ==> payer.key != k && missing <= Get(s, payer.key).lamports)
      && forall j: Pubkey :: j != k ==>
           Get(s', j) == if j == payer.key && missing > 0 then Get(s, j).(lamports := Get(s, j).lamports - missing)
                         else Get(s, j)
  {
    if Get(s, k).lamports == 0 && Get(s, k).owner == SYSTEM_PROGRAM && Get(s, k).len == 0 {
      var s1 := AllocateAndAssign(s, k, space).value;
      assert payer.key != k ==> Get(s1, payer.key) == Get(s, payer.key);
    }
  }

  /** The slot the funder's step hands to the token program. */
  predicate Fresh(slot: Slot, env: Env, space: nat) {
    Live(slot) && slot.len == space && slot.data == Blank(NoExtension) && slot.lamports >= env.rent(space)
  }

  function CreatedAccount(slot: Slot, env: Env, mint: Pubkey, owner: Pubkey, mintExt: MintExt): Slot
    requires slot.lamports >= env.rent(slot.len)
  {
    var state := if mintExt.defaultState.Some? then mintExt.defaultState.value else Initialized;
    var native := mint == NATIVE_MINT;
    slot.(data := AccountData(Account(mint, owner, if native then slot.lamports - env.rent(slot.len) else 0, None,
                                      state, if native then Some(env.rent(slot.len)) else None, 0, None),
                              AddRequired(NO_ACCOUNT_EXT.(immutableOwner := true), mintExt)))
  }

  /** The reported size is exactly what the two initialisers need: on a fresh slot of that size neither can fail. */
  lemma InitialisersSucceed(s: State, env: Env, k: Pubkey, mint: Pubkey, owner: Pubkey)
    requires AccountDataSize(s, mint).Ok? && k != mint && Fresh(Get(s, k), env, AccountDataSize(s, mint).value)
    ensures var slot := Get(s, k);
            var s1 := Put(s, k, slot.(data := Blank(ForAccount(NO_ACCOUNT_EXT.(immutableOwner := true)))));
            && Execute(s, env, InitializeImmutableOwner(k)) == Ok(s1)
            && Execute(s1, env, InitializeAccount(k, mint, owner)) ==
               Ok(Put(s1, k, CreatedAccount(slot, env, mint, owner, Get(s, mint).data.mintExt)))
  {
    var slot := Get(s, k);
    var s1 := Put(s, k, slot.(data := Blank(ForAccount(NO_ACCOUNT_EXT.(immutableOwner := true)))));
    assert HandleInitializeImmutableOwner(s, k) == Ok(s1);
    assert Get(s1, mint) == Get(s, mint);
    assert HandleInitializeAccount(s1, env, k, mint, owner) ==
           Ok(Put(s1, k, CreatedAccount(slot, env, mint, owner, Get(s, mint).data.mintExt)));
  }

  /** Creating succeeds exactly when the address is right, the slot unallocated, the mint live and the funder able to
      pay; the slot then holds a rent-exempt account of that mint whose owner can never change, the funder has paid
      exactly what was missing, and nothing else moved. */
  lemma CreateExactly(s: State, env: Env, derive: Derivation, x: Creation)
    ensures CreateAssociated(s, env, derive, x, Always).Ok?
       <==> && derive(x.wallet, x.mint) == x.ata && Get(s, x.ata).owner == SYSTEM_PROGRAM && Get(s, x.ata).len == 0
            && LiveMint(Get(s, x.mint)) && CanFund(s, env, x.funder, x.ata, AccountDataSize(s, x.mint).value)
    ensures CreateAssociated(s, env, derive, x, Always).Ok? ==>
      var s' := CreateAssociated(s, env, derive, x, Always).value;
      var slot' := Get(s', x.ata);
      var missing := Missing(s, env, x.ata, slot'.len);
      && LiveAccount(slot') && slot'.len == AccountDataSize(s, x.mint).value
      && slot'.data.account.mint == x.mint && slot'.data.account.owner == x.wallet
      && slot'.data.accountExt.immutableOwner
      && slot'.lamports == Get(s, x.ata).lamports + missing >= env.rent(slot'.len)
      && forall j: Pubkey :: j != x.ata ==>
           && Get(s', j) == Get(s, j).(lamports := Get(s', j).lamports)
           && Get(s', j).lamports == Get(s, j).lamports - (if j == x.funder.key then missing else 0)
  {
    if LiveMint(Get(s, x.mint)) {
      var space := AccountDataSize(s, x.mint).value;
      CreatePdaExactly(s, env, x.funder, x.ata, space);
      if CreatePda(s, env, x.funder, x.ata, space).Ok? {
        var s1 := CreatePda(s, env, x.funder, x.ata, space).value;
        assert x.ata != x.mint;
        assert Get(s1, x.mint) == Get(s, x.mint).(lamports := Get(s1, x.mint).lamports);
        assert AccountDataSize(s1, x.mint) == AccountDataSize(s, x.mint);
        InitialisersSucceed(s1, env.(inCpi := true), x.ata, x.mint, x.wallet);
      }
    }
  }

  /** The idempotent form leaves an account that is there alone, and succeeds exactly when it is this wallet's account
      of this mint; otherwise it creates. */
  lemma IdempotentExactly(s: State, env: Env, derive: Derivation, x: Creation)
    ensures var r, slot := CreateAssociated(s, env, derive, x, Idempotent), Get(s, x.ata);
            if LiveAccount(slot) then
              && (r.Ok? <==> x.ata == derive(x.wallet, x.mint) && slot.data.account.owner == x.wallet
                             && slot.data.account.mint == x.mint)
              && (r.Ok? ==> r.value == s)
            else r == CreateAssociated(s, env, derive, x, Always)
  {}

  /** Creating moves lamports only from the funder to the new account, and keeps the token program's invariant exactly
      unless the derived address is the native mint's own. */
  lemma CreateKeeps(s: State, env: Env, derive: Derivation, x: Creation, mode: CreateMode, s': State)
    requires Inv(s) && CreateAssociated(s, env, derive, x, mode) == Ok(s')
    ensures TotalLamports(s') == TotalLamports(s)
    ensures Inv(s') <==> x.ata != NATIVE_MINT
  {
    assert SlotOk(x.ata, Get(s, x.ata), NativeLive(s));
    if !(mode == Idempotent && LiveAccount(Get(s, x.ata))) {
      CreateTotal(s, env, derive, x, s');
      if x.ata != NATIVE_MINT { CreateInv(s, env, derive, x, s'); } else { NativeTaken(s, env, derive, x, s'); }
    }
  }

  lemma CreateInv(s: State, env: Env, derive: Derivation, x: Creation, s': State)
    requires Inv(s) && CreateAssociated(s, env, derive, x, Always) == Ok(s') && x.ata != NATIVE_MINT
    ensures Inv(s')
  {
    var cpi, space := env.(inCpi := true), AccountDataSize(s, x.mint).value;
    var s1 := CreatePda(s, env, x.funder, x.ata, space).value;
    CreatePdaKeeps(s, env, x.funder, x.ata, space, s1);
    var s2 := Execute(s1, cpi, InitializeImmutableOwner(x.ata)).value;
    ExecuteKeeps(s1, cpi, InitializeImmutableOwner(x.ata), s2);
    ExecuteKeeps(s2, cpi, InitializeAccount(x.ata, x.mint, x.wallet), s');
  }

  lemma CreateTotal(s: State, env: Env, derive: Derivation, x: Creation, s': State)
    requires CreateAssociated(s, env, derive, x, Always) == Ok(s')
    ensures TotalLamports(s') == TotalLamports(s)
  {
    var cpi, space := env.(inCpi := true), AccountDataSize(s, x.mint).value;
    var s1 := CreatePda(s, env, x.funder, x.ata, space).value;
    CreatePdaTotal(s, env, x.funder, x.ata, space, s1);
    var s2 := Execute(s1, cpi, InitializeImmutableOwner(x.ata)).value;
    InitialiserTotal(s1, cpi, InitializeImmutableOwner(x.ata), s2);
    InitialiserTotal(s2, cpi, InitializeAccount(x.ata, x.mint, x.wallet), s');
  }

  lemma InitialiserTotal(s: State, env: Env, ix: Instruction, s': State)
    requires (ix.InitializeImmutableOwner? || ix.InitializeAccount?) && Execute(s, env, ix) == Ok(s')
    ensures TotalLamports(s') == TotalLamports(s)
  {
    TotalPut(s, ix.account, s'[ix.account]);
  }

  lemma NativeTaken(s: State, env: Env, derive: Derivation, x: Creation, s': State)
    requires CreateAssociated(s, env, derive, x, Always) == Ok(s') && x.ata == NATIVE_MINT
    ensures !Inv(s')
  {
    CreateExactly(s, env, derive, x);
    assert !SlotOk(x.ata, Get(s', x.ata), NativeLive(s'));
  }

  lemma CreatePdaTotal(s: State, env: Env, payer: Info, k: Pubkey, space: nat, s': State)
    requires CreatePda(s, env, payer, k, space) == Ok(s')
    ensures TotalLamports(s') == TotalLamports(s)
  {
    var needed, have := AtLeastOne(env.rent(space)), Get(s, k).lamports;
    if have > 0 {
      var s1 := if needed > have then SystemTransfer(s, payer, k, needed - have).value else s;
      if needed > have { TotalTwoPuts(s, payer.key, s1[payer.key], k, s1[k]); }
      TotalPut(s1, k, s'[k]);
    } else {
      var s1 := AllocateAndAssign(s, k, space).value;
      TotalPut(s, k, s1[k]);
      TotalTwoPuts(s1, payer.key, s'[payer.key], k, s'[k]);
    }
  }

  lemma AssignKeeps(s: State, k: Pubkey, space: nat, s': State)
    requires Inv(s) && AllocateAndAssign(s, k, space) == Ok(s') && k != NATIVE_MINT
    ensures Kept(s, s')
  {
    TotalPut(s, k, s'[k]);
    OnePut(s, k, s'[k]);
  }

  lemma CreatePdaKeeps(s: State, env: Env, payer: Info, k: Pubkey, space: nat, s': State)
    requires Inv(s) && CreatePda(s, env, payer, k, space) == Ok(s') && k != NATIVE_MINT
    ensures Kept(s, s')
  {
    var needed, have := AtLeastOne(env.rent(space)), Get(s, k).lamports;
    if have > 0 {
      if needed > have {
        var s1 := SystemTransfer(s, payer, k, needed - have).value;
        SystemTransferKeeps(s, payer, k, needed - have, s1);
        AssignKeeps(s1, k, space, s');
      } else {
        AssignKeeps(s, k, space, s');
      }
    } else {
      var s1 := AllocateAndAssign(s, k, space).value;
      AssignKeeps(s, k, space, s1);
      SystemTransferKeeps(s1, payer, k, needed, s');
    }
  }

  lemma {:induction false} ImmutableOwnerOnRuns(states: seq<State>, steps: seq<Step>, i: nat, j: nat, k: Pubkey)
    requires IsRun(states, steps) && Genesis(states[0]) && i <= j < |states|
    requires LiveAccount(Get(states[i], k)) && Get(states[i], k).data.accountExt.immutableOwner
    requires forall n :: i <= n < j ==> !CloseOf(states[n], steps[n], k)
    ensures LiveAccount(Get(states[j], k)) && Get(states[j], k).data.accountExt.immutableOwner
    ensures Get(states[j], k).data.account.owner == Get(states[i], k).data.account.owner
    ensures Get(states[j], k).data.account.mint == Get(states[i], k).data.account.mint
    decreases j - i
  {
    if i < j {
      ImmutableOwnerOnRuns(states, steps, i, j - 1, k);
      AccountOneWayAt(states, steps, j - 1, k);
    }
  }

  /** Once created, the account stays good for the wallet: over every run in which it is not closed, an idempotent
      create by anyone, in any environment, succeeds and changes nothing. */
  lemma CreatedStaysAssociated(states: seq<State>, steps: seq<Step>, i: nat, j: nat, env: Env, derive: Derivation,
                               x: Creation, before: State, later: Env, funder: Info)
    requires IsRun(states, steps) && Genesis(states[0]) && i <= j < |states|
    requires CreateAssociated(before, env, derive, x, Always) == Ok(states[i])
    requires forall n :: i <= n < j ==> !CloseOf(states[n], steps[n], x.ata)
    ensures CreateAssociated(states[j], later, derive, x.(funder := funder), Idempotent) == Ok(states[j])
  {
    CreateExactly(before, env, derive, x);
    ImmutableOwnerOnRuns(states, steps, i, j, x.ata);
  }
}

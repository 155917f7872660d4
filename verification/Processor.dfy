/** The processor as it runs: handlers that update the slots step by step, each proved to compute its function in
    `Handlers`, and the runtime around them that rolls a failed instruction back. */
module Processor {
  import opened Base
  import opened TokenState
  import opened TransferFees
  import opened Ledger
  import opened Authority
  import opened Handlers
  import opened Invariants
  import opened Steps

  /** The outcome of a handler that started in slots `before` and left slots `after`. */
  ghost predicate Computes(spec: Result<State, Error>, r: Outcome<Error>, after: State) {
    match spec
    case Ok(s) => r.Pass? && after == s
    case Err(e) => r == Fail(e)
  }

  /** The slots with an amount packed into the account at `k`. */
  function Repacked(s: State, k: Pubkey, amount: u64): (s': State)
    requires Get(s, k).data.AccountData?
    ensures Get(s', k).data.AccountData?
  {
    Put(s, k, WithAccount(Get(s, k), Get(s, k).data.account.(amount := amount)))
  }

  class TokenProgram {
    var slots: State

    constructor ()
      ensures slots == map[]
    {
      slots := map[];
    }

    // ---- in-place writes ----

    method SetLamports(k: Pubkey, lamports: u64)
      modifies this
      ensures slots == Put(old(slots), k, Get(old(slots), k).(lamports := lamports))
    {
      slots := slots[k := Get(slots, k).(lamports := lamports)];
    }

    method PackAccount(k: Pubkey, a: Account)
      requires Get(slots, k).data.AccountData?
      modifies this
      ensures slots == Put(old(slots), k, WithAccount(Get(old(slots), k), a))
    {
      slots := slots[k := WithAccount(Get(slots, k), a)];
    }

    method PackMint(k: Pubkey, mint: Mint)
      requires Get(slots, k).data.MintData?
      modifies this
      ensures slots == Put(old(slots), k, WithMint(Get(old(slots), k), mint))
    {
      slots := slots[k := WithMint(Get(slots, k), mint)];
    }

    method CheckOwner(expected: Pubkey, authority: Info, signers: seq<Info>) returns (r: Outcome<Error>)
      ensures r == ValidateOwner(slots, expected, authority, signers)
    {
      if expected != authority.key {
        return Fail(OwnerMismatch);
      }
      var slot := Get(slots, authority.key);
      if slot.owner == TOKEN_PROGRAM && slot.len == MULTISIG_LEN {
        if !slot.data.MultisigData? || !slot.data.multisig.isInitialized {
          return Fail(UninitializedAccount);
        }
        if slot.data.multisig.n > MAX_SIGNERS {
          return Fail(Panic);
        }
        var accepted := CheckMultisig(slot.data.multisig, signers);
        return if accepted then Pass else Fail(MissingRequiredSignature);
      }
      return if authority.isSigner then Pass else Fail(MissingRequiredSignature);
    }

    // ---- initialisation ----

    method ProcessInitializeMint(env: Env, k: Pubkey, decimals: u8, mintAuthority: Pubkey,
                                 freezeAuthority: Option<Pubkey>) returns (r: Outcome<Error>)
      modifies this
      ensures Computes(HandleInitializeMint(old(slots), env, k, decimals, mintAuthority, freezeAuthority), r, slots)
    {
      var slot := Get(slots, k);
      if slot.lamports < env.rent(slot.len) { return Fail(NotRentExempt); }
      var blank := UnpackBlankMint(slot);
      if blank.Err? { return Fail(blank.error); }
      var ext := blank.value;
      if RequiredLen(MINT_LEN, MintTlv(ext)) != slot.len { return Fail(InvalidAccountData); }
      if ext.defaultState == Some(Frozen) && freezeAuthority.None? { return Fail(MintCannotFreeze); }
      var mint := Mint(None, 0, 0, false, None);
      mint := mint.(mintAuthority := Some(mintAuthority));
      mint := mint.(decimals := decimals);
      mint := mint.(isInitialized := true);
      mint := mint.(freezeAuthority := freezeAuthority);
      slots := slots[k := slot.(data := MintData(mint, ext))];
      r := Pass;
    }

    method ProcessInitializeAccount(env: Env, k: Pubkey, mintKey: Pubkey, owner: Pubkey) returns (r: Outcome<Error>)
      modifies this
      ensures Computes(HandleInitializeAccount(old(slots), env, k, mintKey, owner), r, slots)
    {
      var slot := Get(slots, k);
      var blank := UnpackBlankAccount(slot);
      if blank.Err? { return Fail(blank.error); }
      var ext := blank.value;
      if slot.lamports < env.rent(slot.len) { return Fail(NotRentExempt); }
      if k == mintKey { return Fail(AccountBorrowFailed); }
      var mintSlot := Get(slots, mintKey);
      if !mintSlot.data.MintData? { return Fail(InvalidMint); }
      if !Live(mintSlot) { return Fail(IncorrectProgramId); }
      var mintExt := mintSlot.data.mintExt;
      if RequiredLen(ACCOUNT_LEN, AccountTlv(AddRequired(NO_ACCOUNT_EXT, mintExt))) > slot.len {
        return Fail(InvalidAccountData);
      }
      if mintExt.fee.Some? { ext := ext.(withheld := Some(0)); }
      if mintExt.nonTransferable { ext := ext.(nonTransferable := true); }
      if !HasRoom(slot.len, AccountTlv(ext)) { return Fail(InvalidAccountData); }
      var state := if mintExt.defaultState.Some? then mintExt.defaultState.value else Initialized;
      var a := Account(mintKey, owner, 0, None, state, None, 0, None);
      if mintKey == NATIVE_MINT {
        var reserve := env.rent(slot.len);
        a := a.(isNative := Some(reserve));
        a := a.(amount := slot.lamports - reserve);
      }
      slots := slots[k := slot.(data := AccountData(a, ext))];
      r := Pass;
    }

    /** The signer count is taken modulo 256 before it is checked; a longer list runs past the signer table. */
    method ProcessInitializeMultisig(env: Env, k: Pubkey, m: u8, keys: seq<Pubkey>) returns (r: Outcome<Error>)
      modifies this
      ensures Computes(HandleInitializeMultisig(old(slots), env, k, m, keys), r, slots)
    {
      var slot := Get(slots, k);
      if slot.len != MULTISIG_LEN { return Fail(InvalidAccountData); }
      if slot.data.MultisigData? && slot.data.multisig.isInitialized { return Fail(AlreadyInUse); }
      if slot.data != Blank(NoExtension) { return Fail(InvalidAccountData); }
      if slot.lamports < env.rent(slot.len) { return Fail(NotRentExempt); }
      var n := |keys| % 256;
      if n < 1 || n > MAX_SIGNERS { return Fail(InvalidNumberOfProvidedSigners); }
      if m < 1 || m > MAX_SIGNERS { return Fail(InvalidNumberOfRequiredSigners); }
      if |keys| > MAX_SIGNERS { return Fail(Panic); }
      var signers: SignerTable := seq(MAX_SIGNERS, _ => 0);
      for i := 0 to |keys|
        invariant slots == old(slots)
        invariant forall j :: 0 <= j < i ==> signers[j] == keys[j]
        invariant forall j :: i <= j < MAX_SIGNERS ==> signers[j] == 0
      {
        signers := signers[i := keys[i]];
      }
      assert signers == Padded(keys);
      slots := slots[k := slot.(data := MultisigData(Multisig(m, n, true, signers)))];
      r := Pass;
    }

    // ---- moving tokens ----

    /** The authority match shared by transfer and burn; returns the account with its allowance spent. */
    method AuthoriseSpend(env: Env, account: Account, ext: AccountExt, permanent: Option<Pubkey>, authority: Info,
                          signers: seq<Info>, amount: u64, spend: bool, blocked: Error)
      returns (r: Outcome<Error>, a: Account)
      ensures match Authorise(slots, env, account, ext, permanent, authority, signers, amount, spend, blocked)
              case Ok(b) => r.Pass? && a == b
              case Err(e) => r == Fail(e)
    {
      a := account;
      if permanent == Some(authority.key) {
        r := CheckOwner(authority.key, authority, signers);
      } else if a.delegate == Some(authority.key) {
        r := CheckOwner(authority.key, authority, signers);
        if r.Fail? { return; }
        if a.delegatedAmount < amount { return Fail(InsufficientFunds), a; }
        if spend {
          a := a.(delegatedAmount := a.delegatedAmount - amount);
          if a.delegatedAmount == 0 { a := a.(delegate := None); }
        }
      } else {
        r := CheckOwner(a.owner, authority, signers);
        if r.Fail? { return; }
        if Guarded(ext) && env.inCpi { return Fail(blocked), a; }
      }
    }

    /** The fee and the permanent delegate of the mint that was passed; without one the account must not need it. */
    method ReadTerms(env: Env, source: Pubkey, checked: Option<Checked>, amount: u64)
      returns (r: Outcome<Error>, fee: u64, permanent: Option<Pubkey>)
      requires Get(slots, source).data.AccountData?
      ensures var src := Get(slots, source);
              match TransferTerms(slots, env, source, src.data.account, src.data.accountExt, checked, amount)
              case Ok(terms) => r.Pass? && terms == MintTerms(fee, permanent)
              case Err(e) => r == Fail(e)
    {
      var a, e := Get(slots, source).data.account, Get(slots, source).data.accountExt;
      r, fee, permanent := Pass, 0, None;
      if checked.None? {
        if e.withheld.Some? { r := Fail(MintRequiredForTransfer); }
        return;
      }
      var mintKey := checked.value.mint;
      if a.mint != mintKey { return Fail(MintMismatch), 0, None; }
      if mintKey == source { return Fail(AccountBorrowFailed), 0, None; }
      var mintSlot := Get(slots, mintKey);
      if !mintSlot.data.MintData? { return Fail(InvalidAccountData), 0, None; }
      if mintSlot.data.mint.decimals != checked.value.decimals { return Fail(MintDecimalsMismatch), 0, None; }
      if mintSlot.data.mintExt.fee.Some? {
        var charged := CalculateEpochFee(mintSlot.data.mintExt.fee.value, env.epoch, amount);
        if charged.None? { return Fail(Overflow), 0, None; }
        fee := charged.value;
      }
      if mintSlot.data.mintExt.permanentDelegate.Some? { permanent := mintSlot.data.mintExt.permanentDelegate.value; }
    }

    method ProcessTransfer(env: Env, source: Pubkey, checked: Option<Checked>, destination: Pubkey, authority: Info,
                           signers: seq<Info>, amount: u64, expectedFee: Option<u64>) returns (r: Outcome<Error>)
      modifies this
      ensures Computes(HandleTransfer(old(slots), env, source, checked, destination, authority, signers, amount,
                                      expectedFee), r, slots)
    {
      var src := Get(slots, source);
      if !src.data.AccountData? { return Fail(InvalidAccountData); }
      var a := src.data.account;
      if a.state == Frozen { return Fail(AccountFrozen); }
      if a.amount < amount { return Fail(InsufficientFunds); }
      if src.data.accountExt.nonTransferable { return Fail(NonTransferable); }
      var fee, permanent;
      r, fee, permanent := ReadTerms(env, source, checked, amount);
      if r.Fail? { return; }
      if expectedFee.Some? && expectedFee.value != fee { return Fail(FeeMismatch); }
      var self := source == destination;
      r, a := AuthoriseSpend(env, a, src.data.accountExt, permanent, authority, signers, amount, !self,
                             CpiGuardTransferBlocked);
      if r.Fail? { return; }
      if !Live(src) || !Live(Get(slots, destination)) { return Fail(IncorrectProgramId); }
      if self { return Pass; }
      r := MoveTokens(env, source, destination, a, amount, fee);
    }

    /** Debit, credit, withhold the fee and, for a native source, move the lamports cell by cell. */
    method MoveTokens(env: Env, source: Pubkey, destination: Pubkey, spent: Account, amount: u64, fee: u64)
      returns (r: Outcome<Error>)
      requires source != destination && Get(slots, source).data.AccountData? && amount <= spent.amount
      modifies this
      ensures Computes(Credit(old(slots), env, source, destination, spent, amount, fee), r, slots)
    {
      var a, dst := spent, Get(slots, destination);
      if !dst.data.AccountData? { return Fail(InvalidAccountData); }
      var b, e := dst.data.account, dst.data.accountExt;
      if b.state == Frozen { return Fail(AccountFrozen); }
      if a.mint != b.mint { return Fail(MintMismatch); }
      if e.memo == Some(true) && !env.memo { return Fail(NoMemo); }
      a := a.(amount := a.amount - amount);
      if fee > amount { return Fail(Overflow); }
      if b.amount + (amount - fee) > U64_MAX { return Fail(Overflow); }
      b := b.(amount := b.amount + (amount - fee));
      if fee > 0 {
        if e.withheld.None? { return Fail(InvalidState); }
        if e.withheld.value + fee > U64_MAX { return Fail(Overflow); }
        slots := slots[destination := WithAccountExt(dst, e.(withheld := Some(e.withheld.value + fee)))];
      }
      if a.isNative.Some? {
        if Get(slots, source).lamports < amount { return Fail(Overflow); }
        SetLamports(source, Get(slots, source).lamports - amount);
        if Get(slots, destination).lamports + amount > U64_MAX { return Fail(Overflow); }
        SetLamports(destination, Get(slots, destination).lamports + amount);
      }
      PackAccount(source, a);
      PackAccount(destination, b);
      r := Pass;
      ghost var goal := Credit(old(slots), env, source, destination, spent, amount, fee).value;
      assert slots[source] == goal[source] && slots[destination] == goal[destination];
      assert slots == goal;
    }

    method ProcessMintTo(mintKey: Pubkey, destination: Pubkey, authority: Info, signers: seq<Info>, amount: u64,
                         expectedDecimals: Option<u8>) returns (r: Outcome<Error>)
      modifies this
      ensures Computes(HandleMintTo(old(slots), mintKey, destination, authority, signers, amount, expectedDecimals),
                       r, slots)
    {
      var dst := Get(slots, destination);
      if !dst.data.AccountData? { return Fail(InvalidAccountData); }
      var b := dst.data.account;
      if b.state == Frozen { return Fail(AccountFrozen); }
      if b.isNative.Some? { return Fail(NativeNotSupported); }
      if mintKey != b.mint { return Fail(MintMismatch); }
      if mintKey == destination { return Fail(AccountBorrowFailed); }
      var mintSlot := Get(slots, mintKey);
      if !mintSlot.data.MintData? { return Fail(InvalidAccountData); }
      var mint := mintSlot.data.mint;
      if mintSlot.data.mintExt.nonTransferable && !dst.data.accountExt.immutableOwner {
        return Fail(NonTransferableNeedsImmutableOwnership);
      }
      if expectedDecimals.Some? && expectedDecimals.value != mint.decimals { return Fail(MintDecimalsMismatch); }
      if mint.mintAuthority.None? { return Fail(FixedSupply); }
      r := CheckOwner(mint.mintAuthority.value, authority, signers);
      if r.Fail? { return; }
      if !Live(mintSlot) || !Live(dst) { return Fail(IncorrectProgramId); }
      if b.amount + amount > U64_MAX { return Fail(Overflow); }
      b := b.(amount := b.amount + amount);
      if mint.supply + amount > U64_MAX { return Fail(Overflow); }
      mint := mint.(supply := mint.supply + amount);
      PackMint(mintKey, mint);
      PackAccount(destination, b);
    }

    method ProcessBurn(env: Env, source: Pubkey, mintKey: Pubkey, authority: Info, signers: seq<Info>, amount: u64,
                       expectedDecimals: Option<u8>) returns (r: Outcome<Error>)
      modifies this
      ensures Computes(HandleBurn(old(slots), env, source, mintKey, authority, signers, amount, expectedDecimals),
                       r, slots)
    {
      var src := Get(slots, source);
      if !src.data.AccountData? { return Fail(InvalidAccountData); }
      var a := src.data.account;
      if source == mintKey { return Fail(AccountBorrowFailed); }
      var mintSlot := Get(slots, mintKey);
      if !mintSlot.data.MintData? { return Fail(InvalidAccountData); }
      var mint := mintSlot.data.mint;
      if a.state == Frozen { return Fail(AccountFrozen); }
      if a.isNative.Some? { return Fail(NativeNotSupported); }
      if a.amount < amount { return Fail(InsufficientFunds); }
      if mintKey != a.mint { return Fail(MintMismatch); }
      if expectedDecimals.Some? && expectedDecimals.value != mint.decimals { return Fail(MintDecimalsMismatch); }
      if !OwnedBySystemOrIncinerator(a) {
        r, a := AuthoriseSpend(env, a, src.data.accountExt, PermanentDelegateOf(mintSlot.data.mintExt), authority,
                               signers, amount, true, CpiGuardBurnBlocked);
        if r.Fail? { return; }
      }
      if !Live(src) || !Live(mintSlot) { return Fail(IncorrectProgramId); }
      a := a.(amount := a.amount - amount);
      if mint.supply < amount { return Fail(Overflow); }
      mint := mint.(supply := mint.supply - amount);
      PackAccount(source, a);
      PackMint(mintKey, mint);
      r := Pass;
    }

    // ---- delegation, authorities, freezing ----

    method ProcessApprove(env: Env, source: Pubkey, checked: Option<Checked>, delegate: Pubkey, authority: Info,
                          signers: seq<Info>, amount: u64) returns (r: Outcome<Error>)
      modifies this
      ensures Computes(HandleApprove(old(slots), env, source, checked, delegate, authority, signers, amount), r, slots)
    {
      var src := Get(slots, source);
      if !src.data.AccountData? { return Fail(InvalidAccountData); }
      var a := src.data.account;
      if a.state == Frozen { return Fail(AccountFrozen); }
      if checked.Some? {
        if a.mint != checked.value.mint { return Fail(MintMismatch); }
        if checked.value.mint == source { return Fail(AccountBorrowFailed); }
        var mintSlot := Get(slots, checked.value.mint);
        if !mintSlot.data.MintData? { return Fail(InvalidAccountData); }
        if mintSlot.data.mint.decimals != checked.value.decimals { return Fail(MintDecimalsMismatch); }
      }
      r := CheckOwner(a.owner, authority, signers);
      if r.Fail? { return; }
      if Guarded(src.data.accountExt) && env.inCpi { return Fail(CpiGuardApproveBlocked); }
      a := a.(delegate := Some(delegate));
      a := a.(delegatedAmount := amount);
      PackAccount(source, a);
    }

    method ProcessRevoke(source: Pubkey, authority: Info, signers: seq<Info>) returns (r: Outcome<Error>)
      modifies this
      ensures Computes(HandleRevoke(old(slots), source, authority, signers), r, slots)
    {
      var src := Get(slots, source);
      if !src.data.AccountData? { return Fail(InvalidAccountData); }
      var a := src.data.account;
      if a.state == Frozen { return Fail(AccountFrozen); }
      r := CheckOwner(if a.delegate == Some(authority.key) then authority.key else a.owner, authority, signers);
      if r.Fail? { return; }
      a := a.(delegate := None);
      a := a.(delegatedAmount := 0);
      PackAccount(source, a);
    }

    /** An account's owner or close authority; a new owner also clears the delegate, and a native account's closer. */
    method SetOnAccount(env: Env, target: Pubkey, authority: Info, signers: seq<Info>, kind: AuthorityType,
                        newAuthority: Option<Pubkey>) returns (r: Outcome<Error>)
      requires Get(slots, target).data.AccountData?
      modifies this
      ensures Computes(HandleSetAuthority(old(slots), env, target, authority, signers, kind, newAuthority), r, slots)
    {
      var slot := Get(slots, target);
      var a, e := slot.data.account, slot.data.accountExt;
      if a.state == Frozen { return Fail(AccountFrozen); }
      if kind == AccountOwner {
        r := CheckOwner(a.owner, authority, signers);
        if r.Fail? { return; }
        if e.immutableOwner { return Fail(ImmutableOwner); }
        if Guarded(e) && env.inCpi { return Fail(CpiGuardSetAuthorityBlocked); }
        if Guarded(e) { return Fail(CpiGuardOwnerChangeBlocked); }
        if newAuthority.None? { return Fail(InvalidInstruction); }
        a := a.(owner := newAuthority.value);
        a := a.(delegate := None);
        a := a.(delegatedAmount := 0);
        if a.isNative.Some? { a := a.(closeAuthority := None); }
      } else if kind == CloseAccountAuthority {
        r := CheckOwner(if a.closeAuthority.Some? then a.closeAuthority.value else a.owner, authority, signers);
        if r.Fail? { return; }
        if Guarded(e) && env.inCpi && newAuthority.Some? { return Fail(CpiGuardSetAuthorityBlocked); }
        a := a.(closeAuthority := newAuthority);
      } else {
        return Fail(AuthorityTypeNotSupported);
      }
      PackAccount(target, a);
      r := Pass;
    }

    /** The authority a mint holds under `kind`, or the reason there is none to replace. */
    method SetOnMint(target: Pubkey, authority: Info, signers: seq<Info>, kind: AuthorityType,
                     newAuthority: Option<Pubkey>) returns (r: Outcome<Error>)
      requires Get(slots, target).data.MintData?
      modifies this
      ensures var was := Get(old(slots), target).data;
              match SetMintAuthority(old(slots), was.mint, was.mintExt, authority, signers, kind, newAuthority)
              case Ok(data) => r.Pass? && slots == Put(old(slots), target, Get(old(slots), target).(data := data))
              case Err(e) => r == Fail(e)
    {
      var slot := Get(slots, target);
      var mint := slot.data.mint;
      if kind == MintTokens {
        if mint.mintAuthority.None? { return Fail(FixedSupply); }
        r := CheckOwner(mint.mintAuthority.value, authority, signers);
        if r.Fail? { return; }
        PackMint(target, mint.(mintAuthority := newAuthority));
      } else if kind == FreezeAccountAuthority {
        if mint.freezeAuthority.None? { return Fail(MintCannotFreeze); }
        r := CheckOwner(mint.freezeAuthority.value, authority, signers);
        if r.Fail? { return; }
        PackMint(target, mint.(freezeAuthority := newAuthority));
      } else {
        r := SetOnMintExtension(target, authority, signers, kind, newAuthority);
      }
    }

    /** The key in a mint extension must sign to be replaced; the all-zero key cannot replace it. */
    method ReplaceKey(current: Option<Pubkey>, authority: Info, signers: seq<Info>, newAuthority: Option<Pubkey>)
      returns (r: Outcome<Error>)
      ensures match ReplaceExtensionKey(slots, current, authority, signers, newAuthority)
              case Ok(key) => r.Pass? && key == newAuthority
              case Err(e) => r == Fail(e)
    {
      if current.None? { return Fail(AuthorityTypeNotSupported); }
      r := CheckOwner(current.value, authority, signers);
      if r.Pass? && newAuthority == Some(0) { r := Fail(InvalidArgument); }
    }

    method SetOnMintExtension(target: Pubkey, authority: Info, signers: seq<Info>, kind: AuthorityType,
                              newAuthority: Option<Pubkey>) returns (r: Outcome<Error>)
      requires Get(slots, target).data.MintData? && kind != MintTokens && kind != FreezeAccountAuthority
      modifies this
      ensures var was := Get(old(slots), target).data;
              match SetMintAuthority(old(slots), was.mint, was.mintExt, authority, signers, kind, newAuthority)
              case Ok(data) => r.Pass? && slots == Put(old(slots), target, Get(old(slots), target).(data := data))
              case Err(e) => r == Fail(e)
    {
      var slot := Get(slots, target);
      var ext := slot.data.mintExt;
      match kind {
        case CloseMint =>
          if ext.closeAuthority.None? { return Fail(ExtensionNotFound); }
          r := ReplaceKey(ext.closeAuthority.value, authority, signers, newAuthority);
          ext := ext.(closeAuthority := Some(newAuthority));
        case TransferFeeConfigAuthority =>
          if ext.fee.None? { return Fail(ExtensionNotFound); }
          r := ReplaceKey(ext.fee.value.configAuthority, authority, signers, newAuthority);
          ext := ext.(fee := Some(ext.fee.value.(configAuthority := newAuthority)));
        case WithheldWithdraw =>
          if ext.fee.None? { return Fail(ExtensionNotFound); }
          r := ReplaceKey(ext.fee.value.withdrawAuthority, authority, signers, newAuthority);
          ext := ext.(fee := Some(ext.fee.value.(withdrawAuthority := newAuthority)));
        case PermanentDelegateAuthority =>
          if ext.permanentDelegate.None? { return Fail(ExtensionNotFound); }
          r := ReplaceKey(ext.permanentDelegate.value, authority, signers, newAuthority);
          ext := ext.(permanentDelegate := Some(newAuthority));
        case AccountOwner => return Fail(AuthorityTypeNotSupported);
        case CloseAccountAuthority => return Fail(AuthorityTypeNotSupported);
        case _ => return Fail(ExtensionNotFound);
      }
      if r.Pass? { slots := slots[target := WithMintExt(slot, ext)]; }
    }

    method ProcessSetAuthority(env: Env, target: Pubkey, authority: Info, signers: seq<Info>, kind: AuthorityType,
                               newAuthority: Option<Pubkey>) returns (r: Outcome<Error>)
      modifies this
      ensures Computes(HandleSetAuthority(old(slots), env, target, authority, signers, kind, newAuthority), r, slots)
    {
      var slot := Get(slots, target);
      if slot.data.AccountData? {
        r := SetOnAccount(env, target, authority, signers, kind, newAuthority);
      } else if slot.data.MintData? {
        r := SetOnMint(target, authority, signers, kind, newAuthority);
      } else {
        r := Fail(InvalidAccountData);
      }
    }

    method ProcessToggleFreeze(source: Pubkey, mintKey: Pubkey, authority: Info, signers: seq<Info>, freeze: bool)
      returns (r: Outcome<Error>)
      modifies this
      ensures Computes(HandleToggleFreeze(old(slots), source, mintKey, authority, signers, freeze), r, slots)
    {
      var src := Get(slots, source);
      if !src.data.AccountData? { return Fail(InvalidAccountData); }
      var a := src.data.account;
      if (freeze && a.state == Frozen) || (!freeze && a.state != Frozen) { return Fail(InvalidState); }
      if a.isNative.Some? { return Fail(NativeNotSupported); }
      if mintKey != a.mint { return Fail(MintMismatch); }
      if mintKey == source { return Fail(AccountBorrowFailed); }
      var mintSlot := Get(slots, mintKey);
      if !mintSlot.data.MintData? { return Fail(InvalidAccountData); }
      if mintSlot.data.mint.freezeAuthority.None? { return Fail(MintCannotFreeze); }
      r := CheckOwner(mintSlot.data.mint.freezeAuthority.value, authority, signers);
      if r.Fail? { return; }
      PackAccount(source, a.(state := if freeze then Frozen else Initialized));
    }

    method ProcessSyncNative(k: Pubkey) returns (r: Outcome<Error>)
      modifies this
      ensures Computes(HandleSyncNative(old(slots), k), r, slots)
    {
      var slot := Get(slots, k);
      if !Live(slot) { return Fail(IncorrectProgramId); }
      if !slot.data.AccountData? { return Fail(InvalidAccountData); }
      var a := slot.data.account;
      if a.isNative.None? { return Fail(NonNativeNotSupported); }
      if slot.lamports < a.isNative.value { return Fail(Overflow); }
      var newAmount := slot.lamports - a.isNative.value;
      if newAmount < a.amount { return Fail(InvalidState); }
      PackAccount(k, a.(amount := newAmount));
      r := Pass;
    }

    // ---- lamports ----

    /** An empty or native account whose closer signs and which withholds no fee, or a mint without supply. */
    method CheckClose(env: Env, source: Pubkey, destination: Pubkey, authority: Info, signers: seq<Info>)
      returns (r: Outcome<Error>)
      ensures r == CloseAllowed(slots, env, Get(slots, source), destination, authority, signers)
    {
      var src := Get(slots, source);
      if src.data.AccountData? {
        var a, e := src.data.account, src.data.accountExt;
        if a.isNative.None? && a.amount != 0 { return Fail(NonNativeHasBalance); }
        var closer := if a.closeAuthority.Some? then a.closeAuthority.value else a.owner;
        if a.owner != SYSTEM_PROGRAM && a.owner != INCINERATOR {
          if Guarded(e) && env.inCpi && destination != a.owner { return Fail(CpiGuardCloseAccountBlocked); }
          r := CheckOwner(closer, authority, signers);
          if r.Fail? { return; }
        } else if destination != INCINERATOR {
          return Fail(InvalidAccountData);
        }
        if e.withheld.Some? && e.withheld.value != 0 { return Fail(AccountHasWithheldTransferFees); }
      } else if src.data.MintData? {
        var e := src.data.mintExt;
        if e.closeAuthority.None? { return Fail(ExtensionNotFound); }
        if e.closeAuthority.value.None? { return Fail(AuthorityTypeNotSupported); }
        r := CheckOwner(e.closeAuthority.value.value, authority, signers);
        if r.Fail? { return; }
        if src.data.mint.supply != 0 { return Fail(MintHasSupply); }
      } else {
        return Fail(UninitializedAccount);
      }
      r := Pass;
    }

    /** The owner of an account that is not native, the mint authority, or the multisig for itself. */
    method CheckExcess(source: Pubkey, authority: Info, signers: seq<Info>) returns (r: Outcome<Error>)
      ensures r == ExcessAllowed(slots, source, Get(slots, source), authority, signers)
    {
      var src := Get(slots, source);
      if src.data.AccountData? {
        if src.data.account.isNative.Some? { return Fail(NativeNotSupported); }
        r := CheckOwner(src.data.account.owner, authority, signers);
      } else if src.data.MintData? {
        if src.data.mint.mintAuthority.None? { return Fail(AuthorityTypeNotSupported); }
        r := CheckOwner(src.data.mint.mintAuthority.value, authority, signers);
      } else if src.len == MULTISIG_LEN {
        r := CheckOwner(source, authority, signers);
      } else {
        r := Fail(InvalidState);
      }
    }

    method ProcessCloseAccount(env: Env, source: Pubkey, destination: Pubkey, authority: Info, signers: seq<Info>)
      returns (r: Outcome<Error>)
      modifies this
      ensures Computes(HandleCloseAccount(old(slots), env, source, destination, authority, signers), r, slots)
    {
      if source == destination { return Fail(InvalidAccountData); }
      r := CheckClose(env, source, destination, authority, signers);
      if r.Fail? { return; }
      var total := Get(slots, destination).lamports + Get(slots, source).lamports;
      if total > U64_MAX { return Fail(Overflow); }
      SetLamports(destination, total);
      SetLamports(source, 0);
      slots := slots[source := Get(slots, source).(owner := SYSTEM_PROGRAM, len := 0, data := Blank(NoExtension))];
    }

    /** Both lamport cells are re-read, so a source that is also the destination ends where it began. */
    method ProcessWithdrawExcess(env: Env, source: Pubkey, destination: Pubkey, authority: Info, signers: seq<Info>)
      returns (r: Outcome<Error>)
      modifies this
      ensures Computes(HandleWithdrawExcess(old(slots), env, source, destination, authority, signers), r, slots)
    {
      var src := Get(slots, source);
      r := CheckExcess(source, authority, signers);
      if r.Fail? { return; }
      var reserve := env.rent(src.len);
      if src.lamports < reserve { return Fail(NotRentExempt); }
      var excess := src.lamports - reserve;
      SetLamports(source, src.lamports - excess);
      if Get(slots, destination).lamports + excess > U64_MAX { return Fail(Overflow); }
      SetLamports(destination, Get(slots, destination).lamports + excess);
      if source == destination { assert slots == Put(old(slots), source, src); }
    }

    /** The system program's transfer, in place. */
    method SystemPay(payer: Info, to: Pubkey, amount: u64) returns (r: Outcome<Error>)
      modifies this
      ensures Computes(SystemTransfer(old(slots), payer, to, amount), r, slots)
    {
      var from := Get(slots, payer.key);
      if !payer.isSigner { return Fail(MissingRequiredSignature); }
      if from.owner != SYSTEM_PROGRAM || from.len != 0 || payer.key == to { return Fail(InvalidAccountData); }
      if from.lamports < amount { return Fail(InsufficientFunds); }
      SetLamports(payer.key, from.lamports - amount);
      var total := Get(slots, to).lamports + amount;
      if total > U64_MAX { return Fail(Overflow); }
      SetLamports(to, total);
      r := Pass;
    }

    /** Resize first, then pay for it, then note a native account's new reserve. */
    method ProcessReallocate(env: Env, k: Pubkey, payer: Info, authority: Info, signers: seq<Info>,
                             requested: seq<ExtensionKind>) returns (r: Outcome<Error>)
      modifies this
      ensures Computes(HandleReallocate(old(slots), env, k, payer, authority, signers, requested), r, slots)
    {
      var slot := Get(slots, k);
      if !slot.data.AccountData? { return Fail(InvalidAccountData); }
      r := CheckOwner(slot.data.account.owner, authority, signers);
      if r.Fail? { return; }
      if NotForAccounts in requested { return Fail(InvalidState); }
      var tlv := TotalTlvLen(KindList(slot.data.accountExt) + requested);
      KindsListed(slot.data.accountExt, requested);
      var needed := RequiredLen(ACCOUNT_LEN, tlv);
      if slot.len >= needed { return Pass; }
      if !Live(slot) { return Fail(ExternalAccountModified); }
      r := Grow(env, k, payer, needed);
    }

    method Grow(env: Env, k: Pubkey, payer: Info, needed: nat) returns (r: Outcome<Error>)
      requires LiveAccount(Get(slots, k)) && Get(slots, k).len < needed
      modifies this
      ensures Computes(GrowTo(old(slots), env, k, payer, needed), r, slots)
    {
      var slot, reserve := Get(slots, k), env.rent(needed);
      var a := slot.data.account;
      slots := slots[k := slot.(len := needed)];
      var tokens := if a.isNative.Some? then a.amount else 0;
      if slot.lamports < tokens { return Fail(Overflow); }
      var kept := slot.lamports - tokens;
      if reserve > kept {
        PayResized(old(slots), k, needed, payer, reserve - kept);
        r := SystemPay(payer, k, reserve - kept);
        if r.Fail? { return; }
      }
      if needed == MULTISIG_LEN || needed <= ACCOUNT_LEN + 1 { return Fail(InvalidAccountData); }
      if a.isNative.Some? {
        if reserve + a.amount > U64_MAX { return Fail(Overflow); }
        if Get(slots, k).lamports < reserve + a.amount { return Fail(InvalidState); }
        PackAccount(k, a.(isNative := Some(reserve)));
      }
      r := Pass;
    }

    // ---- the fee-collecting loops ----

    method ProcessHarvest(mintKey: Pubkey, sources: seq<Pubkey>) returns (r: Outcome<Error>)
      modifies this
      ensures Computes(HandleHarvest(old(slots), mintKey, sources), r, slots)
    {
      if !Get(slots, mintKey).data.MintData? { return Fail(InvalidAccountData); }
      if Get(slots, mintKey).data.mintExt.fee.None? { return Fail(ExtensionNotFound); }
      for i := 0 to |sources|
        invariant FeeMint(Get(slots, mintKey)) && FeeMint(Get(old(slots), mintKey))
        invariant HarvestAll(old(slots), mintKey, sources[..i]) == Ok(slots)
      {
        assert sources[..i + 1][..i] == sources[..i];
        var k := sources[i];
        if k == mintKey {
          HarvestStops(old(slots), mintKey, sources, i);
          return Fail(AccountBorrowFailed);
        }
        var slot := Get(slots, k);
        if Harvestable(slot, mintKey) {
          var e := Get(slots, mintKey).data.mintExt;
          var total := e.fee.value.withheld + slot.data.accountExt.withheld.value;
          if total > U64_MAX {
            HarvestStops(old(slots), mintKey, sources, i);
            return Fail(Overflow);
          }
          slots := slots[k := Emptied(slot)];
          slots := slots[mintKey := WithMintExt(Get(slots, mintKey), e.(fee := Some(e.fee.value.(withheld := total))))];
        }
      }
      assert sources[..|sources|] == sources;
      r := Pass;
    }

    /** The withdraw authority of the mint has signed and the receiver is a thawed account of it. */
    method CheckWithdraw(mintKey: Pubkey, destination: Pubkey, authority: Info, signers: seq<Info>)
      returns (r: Outcome<Error>)
      ensures r == WithdrawAllowed(slots, mintKey, destination, authority, signers)
    {
      var mintSlot, dst := Get(slots, mintKey), Get(slots, destination);
      if !Live(mintSlot) { return Fail(IncorrectProgramId); }
      if !mintSlot.data.MintData? { return Fail(InvalidAccountData); }
      if mintSlot.data.mintExt.fee.None? { return Fail(ExtensionNotFound); }
      var config := mintSlot.data.mintExt.fee.value;
      if config.withdrawAuthority.None? { return Fail(NoAuthorityExists); }
      r := CheckOwner(config.withdrawAuthority.value, authority, signers);
      if r.Fail? { return; }
      if destination == mintKey { return Fail(AccountBorrowFailed); }
      if !dst.data.AccountData? { return Fail(InvalidAccountData); }
      if dst.data.account.mint != mintKey { return Fail(MintMismatch); }
      if dst.data.account.state == Frozen { return Fail(AccountFrozen); }
    }

    /** Fees are taken out of the accounts one by one; the receiver's amount is summed beside its slot and packed once,
        at the end. */
    method ProcessWithdrawFromAccounts(mintKey: Pubkey, destination: Pubkey, authority: Info, signers: seq<Info>,
                                       sources: seq<Pubkey>) returns (r: Outcome<Error>)
      modifies this
      ensures Computes(HandleWithdrawFromAccounts(old(slots), mintKey, destination, authority, signers, sources), r,
                       slots)
    {
      r := CheckWithdraw(mintKey, destination, authority, signers);
      if r.Fail? { return; }
      var base := Get(slots, destination).data.account;
      var total := base.amount;
      assert Repacked(slots, destination, total) == slots;
      for i := 0 to |sources|
        invariant Get(slots, destination).data.AccountData? && Get(old(slots), destination).data.AccountData?
        invariant Get(slots, destination).data.account == base && 0 <= total <= U64_MAX
        invariant CollectAll(old(slots), mintKey, destination, sources[..i]) == Ok(Repacked(slots, destination, total))
      {
        assert sources[..i + 1][..i] == sources[..i];
        ghost var before := slots;
        var k, withheld := sources[i], 0;
        var slot := Get(slots, k);
        if k == destination {
          if slot.data.accountExt.withheld.None? {
            CollectStops(old(slots), mintKey, destination, sources, i);
            return Fail(InvalidState);
          }
          withheld := slot.data.accountExt.withheld.value;
          slots := slots[k := Emptied(slot)];
        } else if k == mintKey {
          CollectStops(old(slots), mintKey, destination, sources, i);
          return Fail(AccountBorrowFailed);
        } else if Harvestable(slot, mintKey) {
          withheld := slot.data.accountExt.withheld.value;
          slots := slots[k := Emptied(slot)];
        }
        if total + withheld > U64_MAX {
          CollectStops(old(slots), mintKey, destination, sources, i);
          return Fail(Overflow);
        }
        CollectTurn(before, slots, mintKey, destination, k, total, withheld);
        total := total + withheld;
      }
      assert sources[..|sources|] == sources;
      PackAccount(destination, base.(amount := total));
    }

    // ---- the runtime ----

    /** The initialisers and the authority changes. */
    method DispatchSetup(env: Env, ix: Instruction) returns (r: Outcome<Error>)
      requires ix.InitializeMint? || ix.InitializeAccount? || ix.InitializeMultisig? || ix.SetAuthority? || ix.Approve?
               || ix.Revoke? || ix.ToggleFreeze?
      modifies this
      ensures Computes(Handle(old(slots), env, ix), r, slots)
    {
      match ix {
        case InitializeMint(k, decimals, ma, fa) => r := ProcessInitializeMint(env, k, decimals, ma, fa);
        case InitializeAccount(k, m, owner) => r := ProcessInitializeAccount(env, k, m, owner);
        case InitializeMultisig(k, m, keys) => r := ProcessInitializeMultisig(env, k, m, keys);
        case SetAuthority(k, auth, signers, kind, key) => r := ProcessSetAuthority(env, k, auth, signers, kind, key);
        case Approve(src, checked, delegate, auth, signers, amount) =>
          r := ProcessApprove(env, src, checked, delegate, auth, signers, amount);
        case Revoke(src, auth, signers) => r := ProcessRevoke(src, auth, signers);
        case ToggleFreeze(src, m, auth, signers, freeze) => r := ProcessToggleFreeze(src, m, auth, signers, freeze);
      }
    }

    /** The handlers that move tokens, fees or lamports. */
    method DispatchMove(env: Env, ix: Instruction) returns (r: Outcome<Error>)
      requires ix.Transfer? || ix.MintTo? || ix.Burn? || ix.CloseAccount? || ix.SyncNative?
               || ix.WithdrawExcessLamports? || ix.HarvestToMint? || ix.WithdrawWithheldFromAccounts? || ix.Reallocate?
      modifies this
      ensures Computes(Handle(old(slots), env, ix), r, slots)
    {
      match ix {
        case Transfer(src, checked, dst, auth, signers, amount, fee) =>
          r := ProcessTransfer(env, src, checked, dst, auth, signers, amount, fee);
        case MintTo(m, dst, auth, signers, amount, d) => r := ProcessMintTo(m, dst, auth, signers, amount, d);
        case Burn(src, m, auth, signers, amount, d) => r := ProcessBurn(env, src, m, auth, signers, amount, d);
        case CloseAccount(src, dst, auth, signers) => r := ProcessCloseAccount(env, src, dst, auth, signers);
        case SyncNative(k) => r := ProcessSyncNative(k);
        case WithdrawExcessLamports(src, dst, auth, signers) =>
          r := ProcessWithdrawExcess(env, src, dst, auth, signers);
        case HarvestToMint(m, sources) => r := ProcessHarvest(m, sources);
        case WithdrawWithheldFromAccounts(m, dst, auth, signers, sources) =>
          r := ProcessWithdrawFromAccounts(m, dst, auth, signers, sources);
        case Reallocate(k, payer, auth, signers, kinds) =>
          r := ProcessReallocate(env, k, payer, auth, signers, kinds);
      }
    }

    /** The handlers of `processor.rs` and the fee loops run step by step; the other extension handlers are computed by
        their functions. */
    method Dispatch(env: Env, ix: Instruction) returns (r: Outcome<Error>)
      modifies this
      ensures Computes(Handle(old(slots), env, ix), r, slots)
    {
      if ix.InitializeMint? || ix.InitializeAccount? || ix.InitializeMultisig? || ix.SetAuthority? || ix.Approve?
         || ix.Revoke? || ix.ToggleFreeze? {
        r := DispatchSetup(env, ix);
      } else if ix.Transfer? || ix.MintTo? || ix.Burn? || ix.CloseAccount? || ix.SyncNative?
                || ix.WithdrawExcessLamports? || ix.HarvestToMint? || ix.WithdrawWithheldFromAccounts?
                || ix.Reallocate? {
        r := DispatchMove(env, ix);
      } else {
        var result := Handle(slots, env, ix);
        if result.Ok? { slots := result.value; r := Pass; } else { r := Fail(result.error); }
      }
    }

    /** One instruction as the runtime runs it: on error, and when the ownership rule is broken, the slots are
        restored. */
    method Run(env: Env, ix: Instruction) returns (r: Outcome<Error>)
      modifies this
      ensures match Execute(old(slots), env, ix)
              case Ok(s) => r.Pass? && slots == s
              case Err(e) => r == Fail(e) && slots == old(slots)
      ensures Inv(old(slots)) ==> Inv(slots) && TotalLamports(slots) == TotalLamports(old(slots))
    {
      var saved := slots;
      r := Dispatch(env, ix);
      if r.Pass? && !ix.CreateNativeMint? && !ix.Reallocate? && !RuntimeAccepts(saved, slots) {
        r := Fail(ExternalAccountModified);
      }
      if r.Fail? {
        slots := saved;
      } else if Inv(saved) {
        ExecuteKeeps(saved, env, ix, slots);
      }
    }
  }

  /** Paying into a slot that was resized first: the same payment, into the longer slot. */
  lemma PayResized(s: State, k: Pubkey, len: nat, payer: Info, amount: u64)
    requires Live(Get(s, k))
    ensures var resized := Put(s, k, Get(s, k).(len := len));
            match SystemTransfer(s, payer, k, amount)
            case Ok(paid) => SystemTransfer(resized, payer, k, amount) == Ok(Put(paid, k, Get(paid, k).(len := len)))
            case Err(e) => SystemTransfer(resized, payer, k, amount) == Err(e)
  {
    var resized := Put(s, k, Get(s, k).(len := len));
    var paid, after := SystemTransfer(s, payer, k, amount), SystemTransfer(resized, payer, k, amount);
    if paid.Ok? {
      assert after.value == Put(paid.value, k, Get(paid.value, k).(len := len));
    }
  }

  /** An error in one turn of the harvest loop is the error of the whole. */
  lemma {:induction false} HarvestStops(s: State, mint: Pubkey, sources: seq<Pubkey>, i: nat)
    requires FeeMint(Get(s, mint)) && i < |sources|
    requires HarvestAll(s, mint, sources[..i + 1]).Err?
    ensures HarvestAll(s, mint, sources) == HarvestAll(s, mint, sources[..i + 1])
  {
    if i + 1 == |sources| {
      assert sources[..i + 1] == sources;
    } else {
      var front := sources[..|sources| - 1];
      assert front[..i + 1] == sources[..i + 1];
      HarvestStops(s, mint, front, i);
    }
  }

  /** One turn of the collecting loop with the receiver's amount kept beside the slots. */
  lemma CollectTurn(s: State, s': State, mint: Pubkey, destination: Pubkey, k: Pubkey, total: u64, withheld: u64)
    requires Get(s, destination).data.AccountData? && total + withheld <= U64_MAX
    requires k == destination || k != mint
    requires if k == destination || Harvestable(Get(s, k), mint)
             then Get(s, k).data.AccountData? && Get(s, k).data.accountExt.withheld == Some(withheld)
                  && s' == Put(s, k, Emptied(Get(s, k)))
             else withheld == 0 && s' == s
    ensures Get(s', destination).data.AccountData?
    ensures CollectOne(Repacked(s, destination, total), mint, destination, k) ==
            Ok(Repacked(s', destination, total + withheld))
  {
    var next := CollectOne(Repacked(s, destination, total), mint, destination, k);
    var goal := Repacked(s', destination, total + withheld);
    assert next.Ok? && next.value[destination] == goal[destination];
    assert k in next.value ==> next.value[k] == goal[k];
    assert next.value == goal;
  }

  lemma {:induction false} CollectStops(s: State, mint: Pubkey, destination: Pubkey, sources: seq<Pubkey>, i: nat)
    requires Get(s, destination).data.AccountData? && i < |sources|
    requires CollectAll(s, mint, destination, sources[..i + 1]).Err?
    ensures CollectAll(s, mint, destination, sources) == CollectAll(s, mint, destination, sources[..i + 1])
  {
    if i + 1 == |sources| {
      assert sources[..i + 1] == sources;
    } else {
      var front := sources[..|sources| - 1];
      assert front[..i + 1] == sources[..i + 1];
      CollectStops(s, mint, destination, front, i);
    }
  }
}

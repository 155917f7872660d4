/** The token program's records (`state.rs`) and the extensions the model carries. */
module TokenState {
  import opened Base

  datatype AccountState = Uninitialized | Initialized | Frozen

  datatype Mint = Mint(
    mintAuthority: Option<Pubkey>,
    supply: u64,
    decimals: u8,
    isInitialized: bool,
    freezeAuthority: Option<Pubkey>)

  datatype Account = Account(
    mint: Pubkey,
    owner: Pubkey,
    amount: u64,
    delegate: Option<Pubkey>,
    state: AccountState,
    isNative: Option<u64>,
    delegatedAmount: u64,
    closeAuthority: Option<Pubkey>)

  const MAX_SIGNERS := 11
  type SignerTable = s: seq<Pubkey> | |s| == MAX_SIGNERS witness seq(MAX_SIGNERS, _ => 0)

  datatype Multisig = Multisig(m: u8, n: u8, isInitialized: bool, signers: SignerTable)

  const MINT_LEN := 82
  const ACCOUNT_LEN := 165
  const MULTISIG_LEN := 355

  const TOKEN_PROGRAM: Pubkey := 0xa5c49ed1e7a0291a40d779e9bd9c1f7ca0c41040f44cf394a038e79be1f6dd06
  const NATIVE_MINT: Pubkey := 0x9382a12606a3f3c8dbc77362907a01bb45cdbb1916d2c92a2a58ab0de8e4e395
  const SYSTEM_PROGRAM: Pubkey := 0
  const INCINERATOR: Pubkey := 0xe13800e1a69cf7cccd2e4dd4db00ffbf11c9bd796011348d72903300
  const NATIVE_DECIMALS: u8 := 9

  datatype AuthorityType =
    | MintTokens | FreezeAccountAuthority | AccountOwner | CloseAccountAuthority | TransferFeeConfigAuthority
    | WithheldWithdraw | CloseMint | InterestRate | PermanentDelegateAuthority | ConfidentialTransferMint
    | TransferHookProgramId | ConfidentialTransferFeeConfig | MetadataPointer

  /** Extensions of a token account; an absent option or a `false` is an absent TLV entry. */
  datatype AccountExt = AccountExt(
    withheld: Option<u64>,
    immutableOwner: bool,
    nonTransferable: bool,
    cpiGuard: Option<bool>,
    memo: Option<bool>)

  /** One transfer-fee schedule entry. */
  datatype Fee = Fee(epoch: u64, maximumFee: u64, basisPoints: u16)

  datatype FeeConfig = FeeConfig(
    configAuthority: Option<Pubkey>,
    withdrawAuthority: Option<Pubkey>,
    withheld: u64,
    older: Fee,
    newer: Fee)

  datatype MintExt = MintExt(
    fee: Option<FeeConfig>,
    closeAuthority: Option<Option<Pubkey>>,
    defaultState: Option<AccountState>,
    nonTransferable: bool,
    permanentDelegate: Option<Option<Pubkey>>)

  const NO_ACCOUNT_EXT := AccountExt(None, false, false, None, None)
  const NO_MINT_EXT := MintExt(None, None, None, false, None)

  /** TLV bytes taken by the entries: two for the type, two for the length, then the value. */
  function AccountTlv(e: AccountExt): nat {
    (if e.withheld.Some? then 12 else 0) + (if e.immutableOwner then 4 else 0)
    + (if e.nonTransferable then 4 else 0) + (if e.cpiGuard.Some? then 5 else 0) + (if e.memo.Some? then 5 else 0)
  }

  function MintTlv(e: MintExt): nat {
    (if e.fee.Some? then 112 else 0) + (if e.closeAuthority.Some? then 36 else 0)
    + (if e.defaultState.Some? then 5 else 0) + (if e.nonTransferable then 4 else 0)
    + (if e.permanentDelegate.Some? then 36 else 0)
  }

  /** The extension types an account can be grown for, and all others together. */
  datatype ExtensionKind =
    | FeeAmountKind | ImmutableOwnerKind | NonTransferableKind | CpiGuardKind | MemoKind | ConfidentialKind | HookKind
    | ConfidentialFeeKind | NotForAccounts

  function KindTlv(k: ExtensionKind): nat {
    match k
    case FeeAmountKind => 12
    case ImmutableOwnerKind => 4
    case NonTransferableKind => 4
    case CpiGuardKind => 5
    case MemoKind => 5
    case ConfidentialKind => 299
    case HookKind => 5
    case ConfidentialFeeKind => 68
    case NotForAccounts => 0
  }

  function TlvIf(k: ExtensionKind, kinds: set<ExtensionKind>): nat {
    if k in kinds then KindTlv(k) else 0
  }

  /** TLV bytes of a set of types: those an account of the model can carry, and the rest. */
  function KindsTlv(kinds: set<ExtensionKind>): nat {
    CarriedTlv(kinds) + TlvIf(ConfidentialKind, kinds) + TlvIf(HookKind, kinds) + TlvIf(ConfidentialFeeKind, kinds)
  }

  function CarriedTlv(kinds: set<ExtensionKind>): nat {
    TlvIf(FeeAmountKind, kinds) + TlvIf(ImmutableOwnerKind, kinds) + TlvIf(NonTransferableKind, kinds)
    + TlvIf(CpiGuardKind, kinds) + TlvIf(MemoKind, kinds)
  }

  /** The types of the extensions an account has; `get_extension_types` lists them. */
  function KindsOf(e: AccountExt): set<ExtensionKind> {
    (if e.withheld.Some? then {FeeAmountKind} else {}) + (if e.immutableOwner then {ImmutableOwnerKind} else {})
    + (if e.nonTransferable then {NonTransferableKind} else {}) + (if e.cpiGuard.Some? then {CpiGuardKind} else {})
    + (if e.memo.Some? then {MemoKind} else {})
  }

  function KindList(e: AccountExt): seq<ExtensionKind> {
    (if e.withheld.Some? then [FeeAmountKind] else []) + (if e.immutableOwner then [ImmutableOwnerKind] else [])
    + (if e.nonTransferable then [NonTransferableKind] else []) + (if e.cpiGuard.Some? then [CpiGuardKind] else [])
    + (if e.memo.Some? then [MemoKind] else [])
  }

  function KindSet(kinds: seq<ExtensionKind>): set<ExtensionKind> {
    set k | k in kinds
  }

  /** The length an account needs for the extensions it has and those asked for. */
  function NeededLen(e: AccountExt, requested: seq<ExtensionKind>): (r: nat)
    ensures r != MULTISIG_LEN
  {
    RequiredLen(ACCOUNT_LEN, KindsTlv(KindsOf(e) + KindSet(requested)))
  }

  /** The two ways to size an account agree: by its extensions, and by the list of their types. */
  lemma SizesAgree(e: AccountExt)
    ensures KindsTlv(KindsOf(e)) == AccountTlv(e)
  {
    var kinds := KindsOf(e);
    assert TlvIf(FeeAmountKind, kinds) == if e.withheld.Some? then 12 else 0;
    assert TlvIf(ImmutableOwnerKind, kinds) == if e.immutableOwner then 4 else 0;
    assert TlvIf(NonTransferableKind, kinds) == if e.nonTransferable then 4 else 0;
    assert TlvIf(CpiGuardKind, kinds) == if e.cpiGuard.Some? then 5 else 0;
    assert TlvIf(MemoKind, kinds) == if e.memo.Some? then 5 else 0;
  }

  lemma KindsListed(e: AccountExt, requested: seq<ExtensionKind>)
    ensures KindSet(KindList(e) + requested) == KindsOf(e) + KindSet(requested)
  {
    forall k: ExtensionKind ensures k in KindList(e) <==> k in KindsOf(e) {}
  }

  lemma TlvIfStep(j: ExtensionKind, kinds: set<ExtensionKind>, k: ExtensionKind)
    requires k !in kinds
    ensures TlvIf(j, kinds + {k}) == TlvIf(j, kinds) + if j == k then KindTlv(k) else 0
  {}

  lemma CarriedTlvStep(kinds: set<ExtensionKind>, k: ExtensionKind)
    requires k !in kinds
    ensures CarriedTlv(kinds + {k}) == CarriedTlv(kinds) +
            if k.ConfidentialKind? || k.HookKind? || k.ConfidentialFeeKind? then 0 else KindTlv(k)
  {
    TlvIfStep(FeeAmountKind, kinds, k);
    TlvIfStep(ImmutableOwnerKind, kinds, k);
    TlvIfStep(NonTransferableKind, kinds, k);
    TlvIfStep(CpiGuardKind, kinds, k);
    TlvIfStep(MemoKind, kinds, k);
  }

  lemma KindsTlvStep(kinds: set<ExtensionKind>, k: ExtensionKind)
    requires k !in kinds
    ensures KindsTlv(kinds + {k}) == KindsTlv(kinds) + KindTlv(k)
  {
    CarriedTlvStep(kinds, k);
    TlvIfStep(ConfidentialKind, kinds, k);
    TlvIfStep(HookKind, kinds, k);
    TlvIfStep(ConfidentialFeeKind, kinds, k);
  }

  /** `try_get_total_tlv_len`: repeats are dropped, then the lengths are summed. */
  method TotalTlvLen(types: seq<ExtensionKind>) returns (total: nat)
    ensures total == KindsTlv(KindSet(types))
  {
    var kept: seq<ExtensionKind> := [];
    for i := 0 to |types|
      invariant KindSet(kept) == KindSet(types[..i])
      invariant forall p, q :: 0 <= p < q < |kept| ==> kept[p] != kept[q]
    {
      assert types[..i + 1] == types[..i] + [types[i]];
      assert KindSet(types[..i + 1]) == KindSet(kept) + {types[i]};
      if types[i] !in kept {
        assert KindSet(kept + [types[i]]) == KindSet(kept) + {types[i]};
        kept := kept + [types[i]];
      } else {
        assert types[i] in KindSet(kept);
      }
    }
    assert types[..|types|] == types;
    total := 0;
    for i := 0 to |kept|
      invariant total == KindsTlv(KindSet(kept[..i]))
    {
      assert kept[..i + 1] == kept[..i] + [kept[i]];
      assert KindSet(kept[..i + 1]) == KindSet(kept[..i]) + {kept[i]};
      KindsTlvStep(KindSet(kept[..i]), kept[i]);
      total := total + KindTlv(kept[i]);
    }
    assert kept[..|kept|] == kept;
  }

  /** `try_calculate_account_len`: base length without extensions, otherwise account length, type byte and
      TLV entries, moved off the multisig length. */
  function RequiredLen(base: nat, tlv: nat): nat {
    if tlv == 0 then base
    else if ACCOUNT_LEN + 1 + tlv == MULTISIG_LEN then MULTISIG_LEN + 2
    else ACCOUNT_LEN + 1 + tlv
  }

  /** Whether a buffer of `len` bytes has room for TLV entries of `tlv` bytes. */
  predicate HasRoom(len: nat, tlv: nat) {
    tlv == 0 || ACCOUNT_LEN + 1 + tlv <= len
  }

  /** Lengths `unpack_uninitialized` accepts: not a multisig, and either bare or past the account-type byte. */
  predicate BaseLenOk(len: nat, base: nat) {
    len != MULTISIG_LEN && (len == base || len > ACCOUNT_LEN + 1)
  }
}

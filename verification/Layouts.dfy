/** The bytes themselves: where every field of a record and of an instruction lies, stated by offsets and by the value
    a field spells, and tied to the codecs. */
module Layouts {
  import opened Base
  import opened Bytes
  import opened TokenState
  import opened StateCodec
  import opened InstructionCodec

  /** `width` bytes at `at` spell `n`, lowest byte first. */
  predicate NumberAt(b: seq<u8>, at: nat, width: nat, n: nat) {
    at + width <= |b| && FromLe(b[at..at + width]) == n
  }

  lemma TwoThen(b: seq<u8>, x: u8, y: u8, rest: seq<u8>)
    ensures b == [x] + ([y] + rest) <==> |b| >= 2 && b[0] == x && b[1] == y && b[2..] == rest
  {
    if |b| >= 2 { assert b == [b[0]] + ([b[1]] + b[2..]); }
  }

  lemma Parts(b: seq<u8>, x: seq<u8>, y: seq<u8>, z: seq<u8>)
    ensures b == (x + y) + z <==>
            |b| == |x| + |y| + |z| && b[..|x|] == x && b[|x|..|x| + |y|] == y && b[|x| + |y|..] == z
  {
    if |b| == |x| + |y| + |z| { assert b == (b[..|x|] + b[|x|..|x| + |y|]) + b[|x| + |y|..]; }
  }

  // ---- records ----

  /** Four bytes of tag, 1 or 0, then the value if there is one. */
  predicate OptionAt(b: seq<u8>, at: nat, width: nat, n: Option<nat>) {
    && at + 4 + width <= |b|
    && (b[at] == 1 || b[at] == 0) && b[at + 1] == 0 && b[at + 2] == 0 && b[at + 3] == 0
    && (n.Some? <==> b[at] == 1)
    && (n.Some? ==> NumberAt(b, at + 4, width, n.value))
  }

  function AsNumber<T>(k: Option<T>, value: T -> nat): Option<nat> {
    if k.Some? then Some(value(k.value)) else None
  }

  predicate KeyAt(b: seq<u8>, at: nat, k: Option<Pubkey>) { OptionAt(b, at, 32, AsNumber(k, (x: Pubkey) => x)) }
  predicate AmountAt(b: seq<u8>, at: nat, n: Option<u64>) { OptionAt(b, at, 8, AsNumber(n, (x: u64) => x)) }

  lemma KeySpelled(b: seq<u8>, k: Pubkey)
    requires |b| == 32
    ensures b == KeyBytes(k) <==> FromLe(b) == k
    ensures KeyOf(b) == FromLe(b)
  {
    Pow32();
    LeRoundTrip(k, 32);
    LeCanonical(b);
  }

  lemma U64Spelled(b: seq<u8>, n: u64)
    requires |b| == 8
    ensures b == U64Bytes(n) <==> FromLe(b) == n
    ensures U64Of(b) == FromLe(b)
  {
    Pow8();
    LeRoundTrip(n, 8);
    LeCanonical(b);
  }

  lemma KeyFieldAt(b: seq<u8>, at: nat, k: Option<Pubkey>)
    requires at + 36 <= |b|
    ensures UnpackKey(b[at..at + 36]) == Ok(k) <==> KeyAt(b, at, k)
  {
    var f := b[at..at + 36];
    assert f[..4] == [b[at], b[at + 1], b[at + 2], b[at + 3]];
    assert f[4..] == b[at + 4..at + 36];
  }

  lemma AmountFieldAt(b: seq<u8>, at: nat, n: Option<u64>)
    requires at + 12 <= |b|
    ensures UnpackU64(b[at..at + 12]) == Ok(n) <==> AmountAt(b, at, n)
  {
    var f := b[at..at + 12];
    assert f[..4] == [b[at], b[at + 1], b[at + 2], b[at + 3]];
    assert f[4..] == b[at + 4..at + 12];
  }

  predicate MintLaid(b: seq<u8>, m: Mint) {
    && |b| == 82
    && KeyAt(b, 0, m.mintAuthority) && NumberAt(b, 36, 8, m.supply) && b[44] == m.decimals
    && b[45] == (if m.isInitialized then 1 else 0) && KeyAt(b, 46, m.freezeAuthority)
  }

  /** Bytes unpack to a mint exactly when its fields lie in them. */
  lemma MintLayout(b: seq<u8>, m: Mint)
    requires |b| == 82
    ensures UnpackMint(b) == Ok(m) <==> MintLaid(b, m)
  {
    KeyFieldAt(b, 0, m.mintAuthority);
    KeyFieldAt(b, 46, m.freezeAuthority);
    assert b[..36] == b[0..36] && b[46..] == b[46..82];
  }

  predicate AccountLaid(b: seq<u8>, a: Account) {
    && |b| == 165
    && NumberAt(b, 0, 32, a.mint) && NumberAt(b, 32, 32, a.owner) && NumberAt(b, 64, 8, a.amount)
    && KeyAt(b, 72, a.delegate) && AmountAt(b, 109, a.isNative)
    && b[108] == (if a.state == Uninitialized then 0 else if a.state == Initialized then 1 else 2)
    && NumberAt(b, 121, 8, a.delegatedAmount) && KeyAt(b, 129, a.closeAuthority)
  }

  lemma AccountFields(b: seq<u8>, a: Account)
    requires |b| == 165
    ensures UnpackAccount(b) == Ok(a) <==>
            && KeyOf(b[..32]) == a.mint && KeyOf(b[32..64]) == a.owner && U64Of(b[64..72]) == a.amount
            && UnpackKey(b[72..108]) == Ok(a.delegate) && StateOf(b[108]) == Ok(a.state)
            && UnpackU64(b[109..121]) == Ok(a.isNative) && U64Of(b[121..129]) == a.delegatedAmount
            && UnpackKey(b[129..]) == Ok(a.closeAuthority)
  {}

  lemma AccountNumbers(b: seq<u8>, a: Account)
    requires |b| == 165
    ensures KeyOf(b[..32]) == a.mint <==> NumberAt(b, 0, 32, a.mint)
    ensures KeyOf(b[32..64]) == a.owner <==> NumberAt(b, 32, 32, a.owner)
    ensures U64Of(b[64..72]) == a.amount <==> NumberAt(b, 64, 8, a.amount)
    ensures U64Of(b[121..129]) == a.delegatedAmount <==> NumberAt(b, 121, 8, a.delegatedAmount)
  {
    assert b[..32] == b[0..32];
    KeySpelled(b[..32], a.mint);
    KeySpelled(b[32..64], a.owner);
    U64Spelled(b[64..72], a.amount);
    U64Spelled(b[121..129], a.delegatedAmount);
  }

  lemma AccountLayout(b: seq<u8>, a: Account)
    requires |b| == 165
    ensures UnpackAccount(b) == Ok(a) <==> AccountLaid(b, a)
  {
    AccountFields(b, a);
    AccountNumbers(b, a);
    KeyFieldAt(b, 72, a.delegate);
    AmountFieldAt(b, 109, a.isNative);
    KeyFieldAt(b, 129, a.closeAuthority);
    assert b[129..] == b[129..165];
  }

  predicate MultisigLaid(b: seq<u8>, m: Multisig) {
    && |b| == 355 && b[0] == m.m && b[1] == m.n && b[2] == (if m.isInitialized then 1 else 0)
    && forall i :: 0 <= i < 11 ==> NumberAt(b, 3 + 32 * i, 32, m.signers[i])
  }

  lemma {:induction false} KeysAt(b: seq<u8>, n: nat, i: nat)
    requires |b| == 32 * n && i < n
    ensures KeysOf(b, n)[i] == FromLe(b[32 * i..32 * i + 32])
  {
    if i < n - 1 {
      KeysAt(b[..32 * (n - 1)], n - 1, i);
      assert b[..32 * (n - 1)][32 * i..32 * i + 32] == b[32 * i..32 * i + 32];
    } else {
      assert b[32 * (n - 1)..] == b[32 * i..32 * i + 32];
    }
  }

  lemma MultisigLayout(b: seq<u8>, m: Multisig)
    requires |b| == 355
    ensures UnpackMultisig(b) == Ok(m) <==> MultisigLaid(b, m)
  {
    var keys := KeysOf(b[3..], 11);
    forall i | 0 <= i < 11 ensures NumberAt(b, 3 + 32 * i, 32, keys[i]) {
      KeysAt(b[3..], 11, i);
      assert b[3..][32 * i..32 * i + 32] == b[3 + 32 * i..3 + 32 * i + 32];
    }
    if MultisigLaid(b, m) { assert keys == m.signers; }
  }

  // ---- instructions ----

  /** One byte of tag, then the key if there is one, to the end. */
  predicate KeyOptionLaid(b: seq<u8>, k: Option<Pubkey>) {
    match k
    case None => b == [0]
    case Some(key) => |b| == 33 && b[0] == 1 && NumberAt(b, 1, 32, key)
  }

  lemma KeyOptionExactly(b: seq<u8>, k: Option<Pubkey>)
    ensures b == KeyOptionBytes(k) <==> KeyOptionLaid(b, k)
  {
    if k.Some? && |b| == 33 {
      KeySpelled(b[1..], k.value);
      assert b[1..33] == b[1..] && b == [b[0]] + b[1..];
    }
  }

  predicate KeyLaid(b: seq<u8>, tag: u8, key: Pubkey) { |b| == 33 && b[0] == tag && NumberAt(b, 1, 32, key) }

  lemma KeyExactly(b: seq<u8>, tag: u8, key: Pubkey)
    ensures b == [tag] + KeyBytes(key) <==> KeyLaid(b, tag, key)
  {
    if |b| == 33 {
      KeySpelled(b[1..], key);
      assert b[1..33] == b[1..] && b == [b[0]] + b[1..];
    }
  }

  predicate AmountLaid(b: seq<u8>, tag: u8, n: u64) { |b| == 9 && b[0] == tag && NumberAt(b, 1, 8, n) }

  lemma AmountExactly(b: seq<u8>, tag: u8, n: u64)
    ensures b == [tag] + U64Bytes(n) <==> AmountLaid(b, tag, n)
  {
    if |b| == 9 {
      U64Spelled(b[1..], n);
      assert b[1..9] == b[1..] && b == [b[0]] + b[1..];
    }
  }

  predicate DecimalsLaid(b: seq<u8>, tag: u8, n: u64, decimals: u8) {
    |b| == 10 && b[0] == tag && NumberAt(b, 1, 8, n) && b[9] == decimals
  }

  lemma DecimalsExactly(b: seq<u8>, tag: u8, n: u64, decimals: u8)
    ensures b == [tag] + AmountDecimalsBytes(AmountDecimals(n, decimals)) <==> DecimalsLaid(b, tag, n, decimals)
  {
    if |b| == 10 {
      U64Spelled(b[1..9], n);
      assert b == [b[0]] + (b[1..9] + [b[9]]);
      assert ([tag] + (U64Bytes(n) + [decimals]))[1..9] == U64Bytes(n);
    }
  }

  predicate NewMintLaid(b: seq<u8>, tag: u8, decimals: u8, key: Pubkey, freeze: Option<Pubkey>) {
    |b| >= 34 && b[0] == tag && b[1] == decimals && NumberAt(b, 2, 32, key) && KeyOptionLaid(b[34..], freeze)
  }

  lemma NewMintExactly(b: seq<u8>, tag: u8, decimals: u8, key: Pubkey, freeze: Option<Pubkey>)
    ensures b == [tag] + MintFieldsBytes(MintFields(decimals, key, freeze)) <==>
            NewMintLaid(b, tag, decimals, key, freeze)
  {
    var packed := [tag] + MintFieldsBytes(MintFields(decimals, key, freeze));
    assert packed[2..34] == KeyBytes(key) && packed[34..] == KeyOptionBytes(freeze);
    if |b| >= 34 {
      KeySpelled(b[2..34], key);
      KeyOptionExactly(b[34..], freeze);
      assert b == [b[0]] + ([b[1]] + (b[2..34] + b[34..]));
    }
  }

  /** The authority kinds in the order of their codes. */
  function AuthorityKinds(): seq<AuthorityType> {
    [MintTokens, FreezeAccountAuthority, AccountOwner, CloseAccountAuthority, TransferFeeConfigAuthority,
     WithheldWithdraw, CloseMint, InterestRate, PermanentDelegateAuthority, ConfidentialTransferMint,
     TransferHookProgramId, ConfidentialTransferFeeConfig, MetadataPointer]
  }

  predicate AuthorityLaid(b: seq<u8>, tag: u8, kind: AuthorityType, key: Option<Pubkey>) {
    |b| >= 2 && b[0] == tag && b[1] < 13 && AuthorityKinds()[b[1]] == kind && KeyOptionLaid(b[2..], key)
  }

  lemma AuthorityOrder(kind: AuthorityType, code: u8)
    requires code < 13
    ensures AuthorityKinds()[code] == kind <==> AuthorityCode(kind) == code
  {}

  lemma AuthorityExactly(b: seq<u8>, tag: u8, kind: AuthorityType, key: Option<Pubkey>)
    ensures b == [tag] + AuthorityBytes(AuthorityFields(kind, key)) <==> AuthorityLaid(b, tag, kind, key)
  {
    TwoThen(b, tag, AuthorityCode(kind), KeyOptionBytes(key));
    if |b| >= 2 {
      KeyOptionExactly(b[2..], key);
      if b[1] < 13 { AuthorityOrder(kind, b[1]); }
    }
  }

  /** Two bytes for each type, low one first. */
  predicate TypesLaid(b: seq<u8>, tag: u8, types: seq<ExtensionType>) {
    && |b| == 1 + 2 * |types| && b[0] == tag
    && forall i :: 0 <= i < |types| ==> b[2 * i + 1] == types[i] && b[2 * i + 2] == 0
  }

  lemma TypesExactly(b: seq<u8>, tag: u8, types: seq<ExtensionType>)
    ensures b == [tag] + TypesBytes(types) <==> TypesLaid(b, tag, types)
  {
    var packed := [tag] + TypesBytes(types);
    forall i | 0 <= i < |types| ensures packed[2 * i + 1] == types[i] && packed[2 * i + 2] == 0 {
      assert TypesBytes(types)[2 * i] == U16Bytes(types[i])[0] && TypesBytes(types)[2 * i + 1] == U16Bytes(types[i])[1];
      assert Digit(types[i], 0) == types[i] && Digit(types[i], 1) == Digit(types[i] / 256, 0);
    }
    if TypesLaid(b, tag, types) {
      forall j | 0 <= j < |b| ensures b[j] == packed[j] {
        if j > 0 { assert j == 2 * ((j - 1) / 2) + 1 || j == 2 * ((j - 1) / 2) + 2; }
      }
    }
  }

  // ---- transfer-fee instructions, under their own second tag ----

  predicate RateLaid(b: seq<u8>, bps: u16, most: u64) { |b| == 10 && NumberAt(b, 0, 2, bps) && NumberAt(b, 2, 8, most) }

  lemma RateExactly(b: seq<u8>, bps: u16, most: u64)
    ensures b == RateBytes(Rate(bps, most)) <==> RateLaid(b, bps, most)
  {
    if |b| == 10 {
      Pow2();
      LeRoundTrip(bps, 2);
      LeCanonical(b[0..2]);
      U64Spelled(b[2..10], most);
      assert b == b[0..2] + b[2..10];
      assert RateBytes(Rate(bps, most))[0..2] == U16Bytes(bps) && RateBytes(Rate(bps, most))[2..10] == U64Bytes(most);
    }
  }

  /** The length of an optional key. */
  function Width(k: Option<Pubkey>): nat { if k.Some? then 33 else 1 }

  predicate ConfigLaid(b: seq<u8>, first: Option<Pubkey>, second: Option<Pubkey>, bps: u16, most: u64) {
    var x := Width(first);
    var y := x + Width(second);
    |b| == y + 10 && KeyOptionLaid(b[..x], first) && KeyOptionLaid(b[x..y], second) && RateLaid(b[y..], bps, most)
  }

  lemma ConfigExactly(b: seq<u8>, first: Option<Pubkey>, second: Option<Pubkey>, bps: u16, most: u64)
    ensures b == TwoKeysBytes(TwoKeys(first, second)) + RateBytes(Rate(bps, most)) <==>
            ConfigLaid(b, first, second, bps, most)
  {
    Parts(b, KeyOptionBytes(first), KeyOptionBytes(second), RateBytes(Rate(bps, most)));
    var x := Width(first);
    var y := x + Width(second);
    if |b| == y + 10 {
      KeyOptionExactly(b[..x], first);
      KeyOptionExactly(b[x..y], second);
      RateExactly(b[y..], bps, most);
    }
  }

  predicate WithFeeLaid(b: seq<u8>, n: u64, decimals: u8, fee: u64) {
    |b| == 17 && NumberAt(b, 0, 8, n) && b[8] == decimals && NumberAt(b, 9, 8, fee)
  }

  lemma WithFeeExactly(b: seq<u8>, n: u64, decimals: u8, fee: u64)
    ensures b == AmountDecimalsBytes(AmountDecimals(n, decimals)) + U64Bytes(fee) <==> WithFeeLaid(b, n, decimals, fee)
  {
    Parts(b, U64Bytes(n), [decimals], U64Bytes(fee));
    if |b| == 17 {
      U64Spelled(b[0..8], n);
      U64Spelled(b[9..17], fee);
      assert b[..8] == b[0..8] && b[8..9] == [b[8]] && b[9..] == b[9..17];
    }
  }

  predicate FeeLaid(b: seq<u8>, i: FeeWire) {
    |b| >= 2 && b[0] == 26 &&
    match i
    case InitializeTransferFeeConfig(c, w, bps, most) => b[1] == 0 && ConfigLaid(b[2..], c, w, bps, most)
    case TransferCheckedWithFee(n, decimals, fee) => b[1] == 1 && WithFeeLaid(b[2..], n, decimals, fee)
    case WithdrawWithheldFromMint => b[1..] == [2]
    case WithdrawWithheldFromAccounts(count) => b[1..] == [3, count]
    case HarvestWithheldToMint => b[1..] == [4]
    case SetTransferFee(bps, most) => b[1] == 5 && RateLaid(b[2..], bps, most)
  }

  lemma FeeExactly(b: seq<u8>, i: FeeWire)
    ensures b == Pack(TransferFeeExtension(i)) <==> FeeLaid(b, i)
  {
    var packed := Pack(TransferFeeExtension(i));
    assert packed[0] == 26 && packed[1] == FeeTag(i) && packed[2..] == FeeBody(i);
    if |b| >= 2 {
      assert b == [b[0]] + ([b[1]] + b[2..]) && b[1..] == [b[1]] + b[2..];
      match i
      case InitializeTransferFeeConfig(c, w, bps, most) => ConfigExactly(b[2..], c, w, bps, most);
      case TransferCheckedWithFee(n, decimals, fee) => WithFeeExactly(b[2..], n, decimals, fee);
      case SetTransferFee(bps, most) => RateExactly(b[2..], bps, most);
      case _ =>
    }
  }

  // ---- every instruction ----

  predicate Laid(b: seq<u8>, i: Wire) {
    match i
    case InitializeMint(key, freeze, decimals) => NewMintLaid(b, 0, decimals, key, freeze)
    case InitializeAccount => b == [1]
    case InitializeMultisig(m) => b == [2, m]
    case Transfer(n) => AmountLaid(b, 3, n)
    case Approve(n) => AmountLaid(b, 4, n)
    case Revoke => b == [5]
    case SetAuthority(kind, key) => AuthorityLaid(b, 6, kind, key)
    case MintTo(n) => AmountLaid(b, 7, n)
    case Burn(n) => AmountLaid(b, 8, n)
    case CloseAccount => b == [9]
    case FreezeAccount => b == [10]
    case ThawAccount => b == [11]
    case TransferChecked(n, decimals) => DecimalsLaid(b, 12, n, decimals)
    case ApproveChecked(n, decimals) => DecimalsLaid(b, 13, n, decimals)
    case MintToChecked(n, decimals) => DecimalsLaid(b, 14, n, decimals)
    case BurnChecked(n, decimals) => DecimalsLaid(b, 15, n, decimals)
    case InitializeAccount2(owner) => KeyLaid(b, 16, owner)
    case SyncNative => b == [17]
    case InitializeAccount3(owner) => KeyLaid(b, 18, owner)
    case InitializeMultisig2(m) => b == [19, m]
    case InitializeMint2(key, freeze, decimals) => NewMintLaid(b, 20, decimals, key, freeze)
    case GetAccountDataSize(types) => TypesLaid(b, 21, types)
    case InitializeImmutableOwner => b == [22]
    case AmountToUiAmount(n) => AmountLaid(b, 23, n)
    case UiAmountToAmount(text) => b == [24] + text
    case InitializeMintCloseAuthority(key) => |b| > 0 && b[0] == 25 && KeyOptionLaid(b[1..], key)
    case TransferFeeExtension(fee) => FeeLaid(b, fee)
    case ConfidentialTransferExtension => b == [27]
    case DefaultAccountStateExtension => b == [28]
    case Reallocate(types) => TypesLaid(b, 29, types)
    case MemoTransferExtension => b == [30]
    case CreateNativeMint => b == [31]
    case InitializeNonTransferableMint => b == [32]
    case InterestBearingMintExtension => b == [33]
    case CpiGuardExtension => b == [34]
    case InitializePermanentDelegate(key) => KeyLaid(b, 35, key)
    case TransferHookExtension => b == [36]
    case ConfidentialTransferFeeExtension => b == [37]
    case WithdrawExcessLamports => b == [38]
    case MetadataPointerExtension => b == [39]
  }

  predicate HasAmount(i: Wire) { i.Transfer? || i.Approve? || i.MintTo? || i.Burn? || i.AmountToUiAmount? }
  predicate HasDecimals(i: Wire) { i.TransferChecked? || i.ApproveChecked? || i.MintToChecked? || i.BurnChecked? }
  predicate HasKeys(i: Wire) {
    || i.InitializeAccount2? || i.InitializeAccount3? || i.InitializePermanentDelegate?
    || i.InitializeMint? || i.InitializeMint2? || i.InitializeMintCloseAuthority? || i.SetAuthority?
  }

  lemma PackedNumbers(b: seq<u8>, i: Wire)
    requires HasAmount(i) || HasDecimals(i)
    ensures b == Pack(i) <==> Laid(b, i)
  {
    if HasAmount(i) {
      AmountExactly(b, Tag(i), i.amount);
    } else {
      DecimalsExactly(b, Tag(i), i.amount, i.decimals);
    }
  }

  lemma PackedKeys(b: seq<u8>, i: Wire)
    requires HasKeys(i)
    ensures b == Pack(i) <==> Laid(b, i)
  {
    match i
    case InitializeAccount2(owner) => KeyExactly(b, 16, owner);
    case InitializeAccount3(owner) => KeyExactly(b, 18, owner);
    case InitializePermanentDelegate(key) => KeyExactly(b, 35, key);
    case InitializeMint(key, freeze, decimals) => NewMintExactly(b, 0, decimals, key, freeze);
    case InitializeMint2(key, freeze, decimals) => NewMintExactly(b, 20, decimals, key, freeze);
    case SetAuthority(kind, key) => AuthorityExactly(b, 6, kind, key);
    case InitializeMintCloseAuthority(key) =>
      if b != [] {
        KeyOptionExactly(b[1..], key);
        assert b == [b[0]] + b[1..];
      }
  }

  /** An instruction packs to exactly the bytes that have its fields in their places under its tag. */
  lemma PackedExactly(b: seq<u8>, i: Wire)
    ensures b == Pack(i) <==> Laid(b, i)
  {
    if HasAmount(i) || HasDecimals(i) {
      PackedNumbers(b, i);
    } else if HasKeys(i) {
      PackedKeys(b, i);
    } else if i.GetAccountDataSize? || i.Reallocate? {
      TypesExactly(b, Tag(i), i.types);
    } else if i.TransferFeeExtension? {
      FeeExactly(b, i.instruction);
    }
  }

  /** And what unpacks to an instruction begins with those bytes, with nothing after them where a list or a text runs
      to the end. */
  lemma UnpackedExactly(b: seq<u8>, i: Wire)
    ensures Unpack(b) == Ok(i) <==> exists n: nat :: n <= |b| && Laid(b[..n], i) && (Unbounded(i) ==> n == |b|)
  {
    UnpackExactly(b, i);
    var p := Pack(i);
    if |p| <= |b| { PackedExactly(b[..|p|], i); }
    forall n: nat | n <= |b| ensures Laid(b[..n], i) <==> b[..n] == p { PackedExactly(b[..n], i); }
  }

  lemma {:induction false} DigitsOfZero(i: nat)
    ensures Digit(0, i) == 0
  {
    if i > 0 { DigitsOfZero(i - 1); }
  }

  lemma OneInBytes()
    ensures U64Bytes(1) == [1, 0, 0, 0, 0, 0, 0, 0]
  {
    forall i: nat | 0 < i < 8 ensures Digit(1, i) == 0 {
      DigitsOfZero(i - 1);
      assert Digit(1, i) == Digit(1 / 256, i - 1);
    }
  }

  /** The transfer of one token, byte for byte. */
  lemma KnownBytes()
    ensures Pack(Transfer(1)) == [3, 1, 0, 0, 0, 0, 0, 0, 0]
  {
    OneInBytes();
  }
}

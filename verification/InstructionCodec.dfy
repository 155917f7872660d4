/** The wire form of the token program's instructions (`TokenInstruction::pack` and `unpack`). */
module InstructionCodec {
  import opened Base
  import opened Bytes
  import opened TokenState
  import opened Ledger

  const EXTENSION_TYPES := 20
  type ExtensionType = x: int | 0 <= x < 20

  // ---- text ----

  predicate Continuation(x: u8) { 0x80 <= x <= 0xBF }

  /** Bytes of the UTF-8 character at the front, zero when there is none (section 4 of RFC 3629). */
  function CharLen(b: seq<u8>): (n: nat)
    ensures n <= |b| && n <= 4
  {
    if |b| >= 1 && b[0] <= 0x7F then 1
    else if |b| >= 2 && 0xC2 <= b[0] <= 0xDF && Continuation(b[1]) then 2
    else if |b| >= 3 && 0xE0 <= b[0] <= 0xEF && Continuation(b[1]) && Continuation(b[2])
            && (b[0] == 0xE0 ==> b[1] >= 0xA0) && (b[0] == 0xED ==> b[1] <= 0x9F) then 3
    else if |b| >= 4 && 0xF0 <= b[0] <= 0xF4 && Continuation(b[1]) && Continuation(b[2]) && Continuation(b[3])
            && (b[0] == 0xF0 ==> b[1] >= 0x90) && (b[0] == 0xF4 ==> b[1] <= 0x8F) then 4
    else 0
  }

  predicate ValidUtf8(b: seq<u8>)
    decreases |b|
  {
    b == [] || (CharLen(b) > 0 && ValidUtf8(b[CharLen(b)..]))
  }

  type Text = b: seq<u8> | ValidUtf8(b) witness []

  // ---- instructions ----

  datatype FeeWire =
    | InitializeTransferFeeConfig(configAuthority: Option<Pubkey>, withdrawAuthority: Option<Pubkey>, basisPoints: u16,
                                  maximumFee: u64)
    | TransferCheckedWithFee(amount: u64, decimals: u8, fee: u64)
    | WithdrawWithheldFromMint
    | WithdrawWithheldFromAccounts(count: u8)
    | HarvestWithheldToMint
    | SetTransferFee(basisPoints: u16, maximumFee: u64)

  datatype Wire =
    | InitializeMint(mintAuthority: Pubkey, freezeAuthority: Option<Pubkey>, decimals: u8)
    | InitializeAccount
    | InitializeMultisig(m: u8)
    | Transfer(amount: u64)
    | Approve(amount: u64)
    | Revoke
    | SetAuthority(authorityType: AuthorityType, newAuthority: Option<Pubkey>)
    | MintTo(amount: u64)
    | Burn(amount: u64)
    | CloseAccount
    | FreezeAccount
    | ThawAccount
    | TransferChecked(amount: u64, decimals: u8)
    | ApproveChecked(amount: u64, decimals: u8)
    | MintToChecked(amount: u64, decimals: u8)
    | BurnChecked(amount: u64, decimals: u8)
    | InitializeAccount2(owner: Pubkey)
    | SyncNative
    | InitializeAccount3(owner: Pubkey)
    | InitializeMultisig2(m: u8)
    | InitializeMint2(mintAuthority: Pubkey, freezeAuthority: Option<Pubkey>, decimals: u8)
    | GetAccountDataSize(types: seq<ExtensionType>)
    | InitializeImmutableOwner
    | AmountToUiAmount(amount: u64)
    | UiAmountToAmount(text: Text)
    | InitializeMintCloseAuthority(closeAuthority: Option<Pubkey>)
    | TransferFeeExtension(instruction: FeeWire)
    | ConfidentialTransferExtension
    | DefaultAccountStateExtension
    | Reallocate(types: seq<ExtensionType>)
    | MemoTransferExtension
    | CreateNativeMint
    | InitializeNonTransferableMint
    | InterestBearingMintExtension
    | CpiGuardExtension
    | InitializePermanentDelegate(delegate: Pubkey)
    | TransferHookExtension
    | ConfidentialTransferFeeExtension
    | WithdrawExcessLamports
    | MetadataPointerExtension

  // ---- packing ----

  function KeyOptionBytes(k: Option<Pubkey>): seq<u8> {
    match k
    case Some(key) => [1] + KeyBytes(key)
    case None => [0]
  }

  function AuthorityCode(t: AuthorityType): u8 {
    match t
    case MintTokens => 0
    case FreezeAccountAuthority => 1
    case AccountOwner => 2
    case CloseAccountAuthority => 3
    case TransferFeeConfigAuthority => 4
    case WithheldWithdraw => 5
    case CloseMint => 6
    case InterestRate => 7
    case PermanentDelegateAuthority => 8
    case ConfidentialTransferMint => 9
    case TransferHookProgramId => 10
    case ConfidentialTransferFeeConfig => 11
    case MetadataPointer => 12
  }

  /** Two bytes for each type. */
  function TypesBytes(types: seq<ExtensionType>): (r: seq<u8>)
    ensures |r| == 2 * |types|
  {
    seq(2 * |types|, i requires 0 <= i < 2 * |types| => U16Bytes(types[i / 2])[i % 2])
  }

  datatype TwoKeys = TwoKeys(first: Option<Pubkey>, second: Option<Pubkey>)
  datatype Rate = Rate(basisPoints: u16, maximumFee: u64)
  datatype AmountDecimals = AmountDecimals(amount: u64, decimals: u8)
  datatype MintFields = MintFields(decimals: u8, mintAuthority: Pubkey, freezeAuthority: Option<Pubkey>)
  datatype AuthorityFields = AuthorityFields(kind: AuthorityType, key: Option<Pubkey>)

  function TwoKeysBytes(x: TwoKeys): seq<u8> { KeyOptionBytes(x.first) + KeyOptionBytes(x.second) }
  function RateBytes(x: Rate): seq<u8> { U16Bytes(x.basisPoints) + U64Bytes(x.maximumFee) }
  function AmountDecimalsBytes(x: AmountDecimals): seq<u8> { U64Bytes(x.amount) + [x.decimals] }
  function MintFieldsBytes(x: MintFields): seq<u8> {
    [x.decimals] + (KeyBytes(x.mintAuthority) + KeyOptionBytes(x.freezeAuthority))
  }
  function AuthorityBytes(x: AuthorityFields): seq<u8> { [AuthorityCode(x.kind)] + KeyOptionBytes(x.key) }

  function FeeTag(i: FeeWire): u8 {
    match i
    case InitializeTransferFeeConfig(_, _, _, _) => 0
    case TransferCheckedWithFee(_, _, _) => 1
    case WithdrawWithheldFromMint => 2
    case WithdrawWithheldFromAccounts(_) => 3
    case HarvestWithheldToMint => 4
    case SetTransferFee(_, _) => 5
  }

  function FeeBody(i: FeeWire): seq<u8> {
    match i
    case InitializeTransferFeeConfig(c, w, bps, max) => TwoKeysBytes(TwoKeys(c, w)) + RateBytes(Rate(bps, max))
    case TransferCheckedWithFee(amount, decimals, fee) =>
      AmountDecimalsBytes(AmountDecimals(amount, decimals)) + U64Bytes(fee)
    case WithdrawWithheldFromMint => []
    case WithdrawWithheldFromAccounts(count) => [count]
    case HarvestWithheldToMint => []
    case SetTransferFee(bps, max) => RateBytes(Rate(bps, max))
  }

  function PackFee(i: FeeWire): seq<u8> { [FeeTag(i)] + FeeBody(i) }

  function Tag(i: Wire): u8 {
    match i
    case InitializeMint(_, _, _) => 0
    case InitializeAccount => 1
    case InitializeMultisig(_) => 2
    case Transfer(_) => 3
    case Approve(_) => 4
    case Revoke => 5
    case SetAuthority(_, _) => 6
    case MintTo(_) => 7
    case Burn(_) => 8
    case CloseAccount => 9
    case FreezeAccount => 10
    case ThawAccount => 11
    case TransferChecked(_, _) => 12
    case ApproveChecked(_, _) => 13
    case MintToChecked(_, _) => 14
    case BurnChecked(_, _) => 15
    case InitializeAccount2(_) => 16
    case SyncNative => 17
    case InitializeAccount3(_) => 18
    case InitializeMultisig2(_) => 19
    case InitializeMint2(_, _, _) => 20
    case GetAccountDataSize(_) => 21
    case InitializeImmutableOwner => 22
    case AmountToUiAmount(_) => 23
    case UiAmountToAmount(_) => 24
    case InitializeMintCloseAuthority(_) => 25
    case TransferFeeExtension(_) => 26
    case ConfidentialTransferExtension => 27
    case DefaultAccountStateExtension => 28
    case Reallocate(_) => 29
    case MemoTransferExtension => 30
    case CreateNativeMint => 31
    case InitializeNonTransferableMint => 32
    case InterestBearingMintExtension => 33
    case CpiGuardExtension => 34
    case InitializePermanentDelegate(_) => 35
    case TransferHookExtension => 36
    case ConfidentialTransferFeeExtension => 37
    case WithdrawExcessLamports => 38
    case MetadataPointerExtension => 39
  }

  function Body(i: Wire): seq<u8> {
    match i
    case InitializeMint(key, freeze, decimals) => MintFieldsBytes(MintFields(decimals, key, freeze))
    case InitializeMultisig(m) => [m]
    case Transfer(amount) => U64Bytes(amount)
    case Approve(amount) => U64Bytes(amount)
    case SetAuthority(t, key) => AuthorityBytes(AuthorityFields(t, key))
    case MintTo(amount) => U64Bytes(amount)
    case Burn(amount) => U64Bytes(amount)
    case TransferChecked(amount, decimals) => AmountDecimalsBytes(AmountDecimals(amount, decimals))
    case ApproveChecked(amount, decimals) => AmountDecimalsBytes(AmountDecimals(amount, decimals))
    case MintToChecked(amount, decimals) => AmountDecimalsBytes(AmountDecimals(amount, decimals))
    case BurnChecked(amount, decimals) => AmountDecimalsBytes(AmountDecimals(amount, decimals))
    case InitializeAccount2(owner) => KeyBytes(owner)
    case InitializeAccount3(owner) => KeyBytes(owner)
    case InitializeMultisig2(m) => [m]
    case InitializeMint2(key, freeze, decimals) => MintFieldsBytes(MintFields(decimals, key, freeze))
    case GetAccountDataSize(types) => TypesBytes(types)
    case AmountToUiAmount(amount) => U64Bytes(amount)
    case UiAmountToAmount(text) => text
    case InitializeMintCloseAuthority(key) => KeyOptionBytes(key)
    case TransferFeeExtension(instruction) => PackFee(instruction)
    case Reallocate(types) => TypesBytes(types)
    case InitializePermanentDelegate(delegate) => KeyBytes(delegate)
    case _ => []
  }

  function Pack(i: Wire): seq<u8> { [Tag(i)] + Body(i) }

  lemma Assoc(a: seq<u8>, b: seq<u8>, c: seq<u8>)
    ensures a + b + c == a + (b + c)
  {}

  lemma Tail(x: u8, s: seq<u8>)
    ensures ([x] + s)[0] == x && ([x] + s)[1..] == s
  {}

  // ---- taking fields off the front ----

  datatype Taken<+T> = Taken(value: T, rest: seq<u8>)

  function TakeByte(b: seq<u8>): Result<Taken<u8>, Error> {
    if b == [] then Err(InvalidInstruction) else Ok(Taken(b[0], b[1..]))
  }

  function TakeU16(b: seq<u8>): Result<Taken<u16>, Error> {
    if |b| < 2 then Err(InvalidInstruction) else Ok(Taken(U16Of(b[..2]), b[2..]))
  }

  function TakeU64(b: seq<u8>): Result<Taken<u64>, Error> {
    if |b| < 8 then Err(InvalidInstruction) else Ok(Taken(U64Of(b[..8]), b[8..]))
  }

  function TakeKey(b: seq<u8>): Result<Taken<Pubkey>, Error> {
    if |b| < 32 then Err(InvalidInstruction) else Ok(Taken(KeyOf(b[..32]), b[32..]))
  }

  function TakeKeyOption(b: seq<u8>): Result<Taken<Option<Pubkey>>, Error> {
    if b == [] then Err(InvalidInstruction)
    else if b[0] == 0 then Ok(Taken(None, b[1..]))
    else if b[0] == 1 then
      var key :- TakeKey(b[1..]);
      Ok(Taken(Some(key.value), key.rest))
    else Err(InvalidInstruction)
  }

  function TakeTwoKeys(b: seq<u8>): Result<Taken<TwoKeys>, Error> {
    var first :- TakeKeyOption(b);
    var second :- TakeKeyOption(first.rest);
    Ok(Taken(TwoKeys(first.value, second.value), second.rest))
  }

  function TakeRate(b: seq<u8>): Result<Taken<Rate>, Error> {
    var bps :- TakeU16(b);
    var max :- TakeU64(bps.rest);
    Ok(Taken(Rate(bps.value, max.value), max.rest))
  }

  function TakeAmountDecimals(b: seq<u8>): Result<Taken<AmountDecimals>, Error> {
    var amount :- TakeU64(b);
    var decimals :- TakeByte(amount.rest);
    Ok(Taken(AmountDecimals(amount.value, decimals.value), decimals.rest))
  }

  function TakeMint(b: seq<u8>): Result<Taken<MintFields>, Error> {
    var decimals :- TakeByte(b);
    var key :- TakeKey(decimals.rest);
    var freeze :- TakeKeyOption(key.rest);
    Ok(Taken(MintFields(decimals.value, key.value, freeze.value), freeze.rest))
  }

  function TakeAuthority(b: seq<u8>): Result<Taken<AuthorityFields>, Error> {
    var code :- TakeByte(b);
    var kind :- AuthorityOf(code.value);
    var key :- TakeKeyOption(code.rest);
    Ok(Taken(AuthorityFields(kind, key.value), key.rest))
  }

  // ---- each reader and its writer undo each other ----

  lemma ByteField(x: u8, rest: seq<u8>, b: seq<u8>)
    ensures TakeByte([x] + rest) == Ok(Taken(x, rest))
    ensures TakeByte(b).Ok? ==> b == [TakeByte(b).value.value] + TakeByte(b).value.rest
  {
    Tail(x, rest);
  }

  lemma U16Field(n: u16, rest: seq<u8>, b: seq<u8>)
    ensures TakeU16(U16Bytes(n) + rest) == Ok(Taken(n, rest))
    ensures TakeU16(b).Ok? ==> b == U16Bytes(TakeU16(b).value.value) + TakeU16(b).value.rest
  {
    U16Back(n);
    assert (U16Bytes(n) + rest)[..2] == U16Bytes(n) && (U16Bytes(n) + rest)[2..] == rest;
  }

  lemma U64Field(n: u64, rest: seq<u8>, b: seq<u8>)
    ensures TakeU64(U64Bytes(n) + rest) == Ok(Taken(n, rest))
    ensures TakeU64(b).Ok? ==> b == U64Bytes(TakeU64(b).value.value) + TakeU64(b).value.rest
  {
    U64Back(n);
    assert (U64Bytes(n) + rest)[..8] == U64Bytes(n) && (U64Bytes(n) + rest)[8..] == rest;
  }

  lemma KeyField(k: Pubkey, rest: seq<u8>, b: seq<u8>)
    ensures TakeKey(KeyBytes(k) + rest) == Ok(Taken(k, rest))
    ensures TakeKey(b).Ok? ==> b == KeyBytes(TakeKey(b).value.value) + TakeKey(b).value.rest
  {
    KeyBack(k);
    assert (KeyBytes(k) + rest)[..32] == KeyBytes(k) && (KeyBytes(k) + rest)[32..] == rest;
  }

  lemma KeyOptionBack(k: Option<Pubkey>, rest: seq<u8>)
    ensures TakeKeyOption(KeyOptionBytes(k) + rest) == Ok(Taken(k, rest))
  {
    if k.Some? {
      KeyField(k.value, rest, []);
      Assoc([1], KeyBytes(k.value), rest);
      Tail(1, KeyBytes(k.value) + rest);
    } else {
      Tail(0, rest);
    }
  }

  lemma KeyOptionCanonical(b: seq<u8>)
    requires TakeKeyOption(b).Ok?
    ensures b == KeyOptionBytes(TakeKeyOption(b).value.value) + TakeKeyOption(b).value.rest
  {
    var x := TakeKeyOption(b).value;
    assert b == [b[0]] + b[1..];
    if b[0] == 1 {
      KeyField(0, [], b[1..]);
      Assoc([1], KeyBytes(x.value.value), x.rest);
    }
  }

  lemma TwoKeysField(x: TwoKeys, rest: seq<u8>, b: seq<u8>)
    ensures TakeTwoKeys(TwoKeysBytes(x) + rest) == Ok(Taken(x, rest))
    ensures TakeTwoKeys(b).Ok? ==> b == TwoKeysBytes(TakeTwoKeys(b).value.value) + TakeTwoKeys(b).value.rest
  {
    Assoc(KeyOptionBytes(x.first), KeyOptionBytes(x.second), rest);
    KeyOptionBack(x.first, KeyOptionBytes(x.second) + rest);
    KeyOptionBack(x.second, rest);
    if TakeTwoKeys(b).Ok? {
      var r := TakeTwoKeys(b).value;
      KeyOptionCanonical(b);
      KeyOptionCanonical(TakeKeyOption(b).value.rest);
      Assoc(KeyOptionBytes(r.value.first), KeyOptionBytes(r.value.second), r.rest);
    }
  }

  lemma RateField(x: Rate, rest: seq<u8>, b: seq<u8>)
    ensures TakeRate(RateBytes(x) + rest) == Ok(Taken(x, rest))
    ensures TakeRate(b).Ok? ==> b == RateBytes(TakeRate(b).value.value) + TakeRate(b).value.rest
  {
    Assoc(U16Bytes(x.basisPoints), U64Bytes(x.maximumFee), rest);
    U16Field(x.basisPoints, U64Bytes(x.maximumFee) + rest, b);
    U64Field(x.maximumFee, rest, if |b| >= 2 then b[2..] else []);
    if TakeRate(b).Ok? {
      var r := TakeRate(b).value;
      Assoc(U16Bytes(r.value.basisPoints), U64Bytes(r.value.maximumFee), r.rest);
    }
  }

  lemma AmountDecimalsField(x: AmountDecimals, rest: seq<u8>, b: seq<u8>)
    ensures TakeAmountDecimals(AmountDecimalsBytes(x) + rest) == Ok(Taken(x, rest))
    ensures TakeAmountDecimals(b).Ok? ==>
              b == AmountDecimalsBytes(TakeAmountDecimals(b).value.value) + TakeAmountDecimals(b).value.rest
  {
    Assoc(U64Bytes(x.amount), [x.decimals], rest);
    U64Field(x.amount, [x.decimals] + rest, b);
    ByteField(x.decimals, rest, if |b| >= 8 then b[8..] else []);
    if TakeAmountDecimals(b).Ok? {
      var r := TakeAmountDecimals(b).value;
      Assoc(U64Bytes(r.value.amount), [r.value.decimals], r.rest);
    }
  }

  lemma MintFieldsBack(x: MintFields, rest: seq<u8>)
    ensures TakeMint(MintFieldsBytes(x) + rest) == Ok(Taken(x, rest))
  {
    var key, freeze := KeyBytes(x.mintAuthority), KeyOptionBytes(x.freezeAuthority);
    Assoc([x.decimals], key + freeze, rest);
    Assoc(key, freeze, rest);
    ByteField(x.decimals, key + (freeze + rest), []);
    KeyField(x.mintAuthority, freeze + rest, []);
    KeyOptionBack(x.freezeAuthority, rest);
  }

  lemma MintFieldsCanonical(b: seq<u8>)
    requires TakeMint(b).Ok?
    ensures b == MintFieldsBytes(TakeMint(b).value.value) + TakeMint(b).value.rest
  {
    var r := TakeMint(b).value;
    var key, freeze := KeyBytes(r.value.mintAuthority), KeyOptionBytes(r.value.freezeAuthority);
    ByteField(0, [], b);
    KeyField(0, [], b[1..]);
    KeyOptionCanonical(TakeKey(b[1..]).value.rest);
    Assoc(key, freeze, r.rest);
    Assoc([r.value.decimals], key + freeze, r.rest);
  }

  lemma AuthorityBack(x: AuthorityFields, rest: seq<u8>)
    ensures TakeAuthority(AuthorityBytes(x) + rest) == Ok(Taken(x, rest))
  {
    var code := AuthorityCode(x.kind);
    Assoc([code], KeyOptionBytes(x.key), rest);
    ByteField(code, KeyOptionBytes(x.key) + rest, []);
    KeyOptionBack(x.key, rest);
    CodeOfAuthority(x.kind);
  }

  lemma CodeOfAuthority(kind: AuthorityType)
    ensures AuthorityOf(AuthorityCode(kind)) == Ok(kind)
  {}

  lemma AuthorityTaken(b: seq<u8>)
    requires TakeAuthority(b).Ok?
    ensures b == AuthorityBytes(TakeAuthority(b).value.value) + TakeAuthority(b).value.rest
  {
    var r := TakeAuthority(b).value;
    ByteField(0, [], b);
    KeyOptionCanonical(b[1..]);
    Assoc([b[0]], KeyOptionBytes(r.value.key), r.rest);
    AuthorityOfCode(b[0]);
  }

  lemma AuthorityOfCode(code: u8)
    ensures AuthorityOf(code).Ok? ==> AuthorityCode(AuthorityOf(code).value) == code
  {}

  // ---- lists of extension types ----

  function CodeAt(b: seq<u8>, i: nat): u16
    requires 2 * i + 2 <= |b|
  {
    U16Of(b[2 * i..2 * i + 2])
  }

  /** `chunks(2)`: the last chunk may be a single byte, which no type has; and a code may be no type's. */
  function TypesOf(b: seq<u8>): Result<seq<ExtensionType>, Error> {
    if |b| % 2 == 1 || exists i :: 0 <= i < |b| / 2 && CodeAt(b, i) >= EXTENSION_TYPES then Err(InvalidAccountData)
    else Ok(seq(|b| / 2, i requires 0 <= i < |b| / 2 && CodeAt(b, i) < EXTENSION_TYPES => CodeAt(b, i)))
  }

  lemma TypesCanonical(b: seq<u8>)
    ensures TypesOf(b).Ok? ==> TypesBytes(TypesOf(b).value) == b
  {
    if TypesOf(b).Ok? {
      var types := TypesOf(b).value;
      forall j | 0 <= j < |b| ensures TypesBytes(types)[j] == b[j] {
        assert types[j / 2] == CodeAt(b, j / 2);
        assert b[2 * (j / 2)..2 * (j / 2) + 2][j % 2] == b[j];
      }
    }
  }

  lemma CodeBack(types: seq<ExtensionType>, i: nat)
    requires i < |types|
    ensures CodeAt(TypesBytes(types), i) == types[i]
  {
    var b := TypesBytes(types);
    assert (2 * i) / 2 == i && (2 * i) % 2 == 0 && (2 * i + 1) / 2 == i && (2 * i + 1) % 2 == 1;
    assert b[2 * i] == U16Bytes(types[i])[0] && b[2 * i + 1] == U16Bytes(types[i])[1];
    assert b[2 * i..2 * i + 2] == U16Bytes(types[i]);
    U16Back(types[i]);
  }

  lemma TypesBack(types: seq<ExtensionType>)
    ensures TypesOf(TypesBytes(types)) == Ok(types)
  {
    var b := TypesBytes(types);
    assert |b| / 2 == |types|;
    forall i | 0 <= i < |types| ensures CodeAt(b, i) == types[i] { CodeBack(types, i); }
    assert TypesOf(b).Ok?;
    assert TypesOf(b).value == types;
  }

  /** The loop of tags 21 and 29. */
  method UnpackTypes(b: seq<u8>) returns (r: Result<seq<ExtensionType>, Error>)
    ensures r == TypesOf(b)
  {
    var types: seq<ExtensionType> := [];
    for i := 0 to |b| / 2
      invariant |types| == i && forall n :: 0 <= n < i ==> types[n] == CodeAt(b, n)
    {
      var code := U16Of(b[2 * i..2 * i + 2]);
      assert code == CodeAt(b, i);
      if code >= EXTENSION_TYPES { return Err(InvalidAccountData); }
      types := types + [code];
    }
    if |b| % 2 == 1 { return Err(InvalidAccountData); }
    assert forall i :: 0 <= i < |b| / 2 ==> CodeAt(b, i) < EXTENSION_TYPES;
    assert types == TypesOf(b).value;
    r := Ok(types);
  }

  /** The loop that packs them. */
  method PackTypes(types: seq<ExtensionType>) returns (buffer: seq<u8>)
    ensures buffer == TypesBytes(types)
  {
    buffer := [];
    for i := 0 to |types|
      invariant |buffer| == 2 * i && forall n :: 0 <= n < 2 * i ==> buffer[n] == TypesBytes(types)[n]
    {
      buffer := buffer + U16Bytes(types[i]);
    }
  }

  // ---- unpacking the transfer-fee instructions ----

  function UnpackFeeBody(tag: u8, b: seq<u8>): Result<Taken<FeeWire>, Error> {
    match tag
    case 0 =>
      var keys :- TakeTwoKeys(b);
      var rate :- TakeRate(keys.rest);
      Ok(Taken(InitializeTransferFeeConfig(keys.value.first, keys.value.second, rate.value.basisPoints,
                                           rate.value.maximumFee), rate.rest))
    case 1 =>
      var moved :- TakeAmountDecimals(b);
      var fee :- TakeU64(moved.rest);
      Ok(Taken(TransferCheckedWithFee(moved.value.amount, moved.value.decimals, fee.value), fee.rest))
    case 2 => Ok(Taken(WithdrawWithheldFromMint, b))
    case 3 =>
      var count :- TakeByte(b);
      Ok(Taken(WithdrawWithheldFromAccounts(count.value), count.rest))
    case 4 => Ok(Taken(HarvestWithheldToMint, b))
    case 5 =>
      var rate :- TakeRate(b);
      Ok(Taken(SetTransferFee(rate.value.basisPoints, rate.value.maximumFee), rate.rest))
    case _ => Err(InvalidInstruction)
  }

  function UnpackFee(b: seq<u8>): Result<Taken<FeeWire>, Error> {
    var tag :- TakeByte(b);
    UnpackFeeBody(tag.value, tag.rest)
  }

  lemma FeeBodyBack(i: FeeWire, rest: seq<u8>)
    ensures UnpackFeeBody(FeeTag(i), FeeBody(i) + rest) == Ok(Taken(i, rest))
  {
    match i {
      case InitializeTransferFeeConfig(c, w, bps, max) =>
        Assoc(TwoKeysBytes(TwoKeys(c, w)), RateBytes(Rate(bps, max)), rest);
        TwoKeysField(TwoKeys(c, w), RateBytes(Rate(bps, max)) + rest, []);
        RateField(Rate(bps, max), rest, []);
      case TransferCheckedWithFee(amount, decimals, fee) =>
        var x := AmountDecimals(amount, decimals);
        Assoc(AmountDecimalsBytes(x), U64Bytes(fee), rest);
        AmountDecimalsField(x, U64Bytes(fee) + rest, []);
        U64Field(fee, rest, []);
      case SetTransferFee(bps, max) => RateField(Rate(bps, max), rest, []);
      case WithdrawWithheldFromAccounts(count) => ByteField(count, rest, []);
      case _ => assert FeeBody(i) + rest == rest;
    }
  }

  lemma FeeConfigCanonical(b: seq<u8>)
    requires UnpackFeeBody(0, b).Ok?
    ensures var r := UnpackFeeBody(0, b).value; FeeTag(r.value) == 0 && b == FeeBody(r.value) + r.rest
  {
    var keys := TakeTwoKeys(b).value;
    var rate := TakeRate(keys.rest).value;
    TwoKeysField(TwoKeys(None, None), [], b);
    RateField(Rate(0, 0), [], keys.rest);
    Assoc(TwoKeysBytes(keys.value), RateBytes(rate.value), rate.rest);
  }

  lemma FeeTransferCanonical(b: seq<u8>)
    requires UnpackFeeBody(1, b).Ok?
    ensures var r := UnpackFeeBody(1, b).value; FeeTag(r.value) == 1 && b == FeeBody(r.value) + r.rest
  {
    var moved := TakeAmountDecimals(b).value;
    AmountDecimalsField(AmountDecimals(0, 0), [], b);
    U64Field(0, [], moved.rest);
    Assoc(AmountDecimalsBytes(moved.value), U64Bytes(TakeU64(moved.rest).value.value), TakeU64(moved.rest).value.rest);
  }

  lemma FeeRateCanonical(b: seq<u8>)
    requires UnpackFeeBody(5, b).Ok?
    ensures var r := UnpackFeeBody(5, b).value; FeeTag(r.value) == 5 && b == FeeBody(r.value) + r.rest
  {
    RateField(Rate(0, 0), [], b);
  }

  lemma FeeBodyCanonical(tag: u8, b: seq<u8>)
    requires UnpackFeeBody(tag, b).Ok?
    ensures var r := UnpackFeeBody(tag, b).value; FeeTag(r.value) == tag && b == FeeBody(r.value) + r.rest
  {
    match tag {
      case 0 => FeeConfigCanonical(b);
      case 1 => FeeTransferCanonical(b);
      case 3 => ByteField(0, [], b);
      case 5 => FeeRateCanonical(b);
      case _ =>
        var r := UnpackFeeBody(tag, b).value;
        assert FeeBody(r.value) + r.rest == r.rest;
    }
  }

  lemma FeeBack(i: FeeWire, rest: seq<u8>)
    ensures UnpackFee(PackFee(i) + rest) == Ok(Taken(i, rest))
  {
    Assoc([FeeTag(i)], FeeBody(i), rest);
    ByteField(FeeTag(i), FeeBody(i) + rest, []);
    FeeBodyBack(i, rest);
  }

  lemma FeeTagged(b: seq<u8>, tag: u8, body: seq<u8>, i: FeeWire, rest: seq<u8>)
    requires b == [tag] + body && FeeTag(i) == tag && body == FeeBody(i) + rest
    ensures b == PackFee(i) + rest
  {
    Assoc([tag], FeeBody(i), rest);
  }

  lemma FeeUnpacked(b: seq<u8>)
    requires UnpackFee(b).Ok?
    ensures b == PackFee(UnpackFee(b).value.value) + UnpackFee(b).value.rest
  {
    var r := UnpackFee(b).value;
    ByteField(0, [], b);
    FeeBodyCanonical(b[0], b[1..]);
    FeeTagged(b, b[0], b[1..], r.value, r.rest);
  }

  // ---- unpacking ----

  function AuthorityOf(code: u8): Result<AuthorityType, Error> {
    match code
    case 0 => Ok(MintTokens)
    case 1 => Ok(AuthorityType.FreezeAccountAuthority)
    case 2 => Ok(AccountOwner)
    case 3 => Ok(CloseAccountAuthority)
    case 4 => Ok(TransferFeeConfigAuthority)
    case 5 => Ok(WithheldWithdraw)
    case 6 => Ok(CloseMint)
    case 7 => Ok(InterestRate)
    case 8 => Ok(PermanentDelegateAuthority)
    case 9 => Ok(ConfidentialTransferMint)
    case 10 => Ok(TransferHookProgramId)
    case 11 => Ok(ConfidentialTransferFeeConfig)
    case 12 => Ok(MetadataPointer)
    case _ => Err(InvalidInstruction)
  }

  datatype Kind = KBare | KAmount | KDecimals | KKey | KByte | KMint | KAuthority | KTypes | KText | KOption | KFee
                | KUnknown

  /** Which fields follow a tag. */
  function KindOf(tag: u8): Kind {
    if 12 <= tag <= 15 then KDecimals
    else if tag == 3 || tag == 4 || tag == 7 || tag == 8 || tag == 23 then KAmount
    else if tag == 16 || tag == 18 || tag == 35 then KKey
    else if tag == 2 || tag == 19 then KByte
    else if tag == 0 || tag == 20 then KMint
    else if tag == 6 then KAuthority
    else if tag == 21 || tag == 29 then KTypes
    else if tag == 24 then KText
    else if tag == 25 then KOption
    else if tag == 26 then KFee
    else if tag <= 39 then KBare
    else KUnknown
  }

  /** The instructions that are a tag and nothing more. */
  function Bare(tag: u8): (i: Wire)
    requires KindOf(tag) == KBare
    ensures Tag(i) == tag && Body(i) == [] && !Unbounded(i)
  {
    if tag <= 17 then BareLow(tag) else BareHigh(tag)
  }

  function BareLow(tag: u8): (i: Wire)
    requires KindOf(tag) == KBare && tag <= 17
    ensures Tag(i) == tag && Body(i) == [] && !Unbounded(i)
  {
    match tag
    case 1 => InitializeAccount
    case 5 => Revoke
    case 9 => CloseAccount
    case 10 => FreezeAccount
    case 11 => ThawAccount
    case _ => SyncNative
  }

  function BareHigh(tag: u8): (i: Wire)
    requires KindOf(tag) == KBare && tag > 17
    ensures Tag(i) == tag && Body(i) == [] && !Unbounded(i)
  {
    if tag > 32 then BareTop(tag)
    else
      match tag
      case 22 => InitializeImmutableOwner
      case 27 => ConfidentialTransferExtension
      case 28 => DefaultAccountStateExtension
      case 30 => MemoTransferExtension
      case 31 => CreateNativeMint
      case _ => InitializeNonTransferableMint
  }

  function BareTop(tag: u8): (i: Wire)
    requires KindOf(tag) == KBare && tag > 32
    ensures Tag(i) == tag && Body(i) == [] && !Unbounded(i)
  {
    match tag
    case 33 => InterestBearingMintExtension
    case 34 => CpiGuardExtension
    case 36 => TransferHookExtension
    case 37 => ConfidentialTransferFeeExtension
    case 38 => WithdrawExcessLamports
    case _ => MetadataPointerExtension
  }

  /** What an amount means under each of its tags. */
  function WithAmount(tag: u8, amount: u64): (i: Wire)
    requires KindOf(tag) == KAmount
    ensures Tag(i) == tag && Body(i) == U64Bytes(amount) && !Unbounded(i)
  {
    match tag
    case 3 => Transfer(amount)
    case 4 => Approve(amount)
    case 7 => MintTo(amount)
    case 8 => Burn(amount)
    case _ => AmountToUiAmount(amount)
  }

  function WithDecimals(tag: u8, x: AmountDecimals): (i: Wire)
    requires KindOf(tag) == KDecimals
    ensures Tag(i) == tag && Body(i) == AmountDecimalsBytes(x) && !Unbounded(i)
  {
    match tag
    case 12 => TransferChecked(x.amount, x.decimals)
    case 13 => ApproveChecked(x.amount, x.decimals)
    case 14 => MintToChecked(x.amount, x.decimals)
    case _ => BurnChecked(x.amount, x.decimals)
  }

  function WithKey(tag: u8, key: Pubkey): (i: Wire)
    requires KindOf(tag) == KKey
    ensures Tag(i) == tag && Body(i) == KeyBytes(key) && !Unbounded(i)
  {
    match tag
    case 16 => InitializeAccount2(key)
    case 18 => InitializeAccount3(key)
    case _ => InitializePermanentDelegate(key)
  }

  function WithByte(tag: u8, m: u8): (i: Wire)
    requires KindOf(tag) == KByte
    ensures Tag(i) == tag && Body(i) == [m] && !Unbounded(i)
  {
    if tag == 2 then InitializeMultisig(m) else InitializeMultisig2(m)
  }

  function WithMint(tag: u8, x: MintFields): (i: Wire)
    requires KindOf(tag) == KMint
    ensures Tag(i) == tag && Body(i) == MintFieldsBytes(x) && !Unbounded(i)
  {
    if tag == 0 then InitializeMint(x.mintAuthority, x.freezeAuthority, x.decimals)
    else InitializeMint2(x.mintAuthority, x.freezeAuthority, x.decimals)
  }

  function WithTypes(tag: u8, types: seq<ExtensionType>): (i: Wire)
    requires KindOf(tag) == KTypes
    ensures Tag(i) == tag && Body(i) == TypesBytes(types) && Unbounded(i)
  {
    if tag == 21 then GetAccountDataSize(types) else Reallocate(types)
  }

  function UnpackBody(tag: u8, b: seq<u8>): Result<Wire, Error> {
    match KindOf(tag)
    case KBare => Ok(Bare(tag))
    case KAmount =>
      var x :- TakeU64(b);
      Ok(WithAmount(tag, x.value))
    case KDecimals =>
      var x :- TakeAmountDecimals(b);
      Ok(WithDecimals(tag, x.value))
    case KKey =>
      var x :- TakeKey(b);
      Ok(WithKey(tag, x.value))
    case KByte =>
      var x :- TakeByte(b);
      Ok(WithByte(tag, x.value))
    case KMint =>
      var x :- TakeMint(b);
      Ok(WithMint(tag, x.value))
    case KAuthority =>
      var x :- TakeAuthority(b);
      Ok(SetAuthority(x.value.kind, x.value.key))
    case KTypes =>
      var types :- TypesOf(b);
      Ok(WithTypes(tag, types))
    case KText => if ValidUtf8(b) then Ok(UiAmountToAmount(b)) else Err(InvalidInstruction)
    case KOption =>
      var x :- TakeKeyOption(b);
      Ok(InitializeMintCloseAuthority(x.value))
    case KFee =>
      var x :- UnpackFee(b);
      Ok(TransferFeeExtension(x.value))
    case KUnknown => Err(InvalidInstruction)
  }

  function Unpack(b: seq<u8>): Result<Wire, Error> {
    if b == [] then Err(InvalidInstruction) else UnpackBody(b[0], b[1..])
  }

  /** Instructions whose body runs to the end of the input. */
  predicate Unbounded(i: Wire) { i.GetAccountDataSize? || i.Reallocate? || i.UiAmountToAmount? }

  // ---- the codec laws ----

  predicate HasAmount(i: Wire) { i.Transfer? || i.Approve? || i.MintTo? || i.Burn? || i.AmountToUiAmount? }

  predicate HasDecimals(i: Wire) { i.TransferChecked? || i.ApproveChecked? || i.MintToChecked? || i.BurnChecked? }

  predicate HasKey(i: Wire) { i.InitializeAccount2? || i.InitializeAccount3? || i.InitializePermanentDelegate? }

  predicate HasByte(i: Wire) { i.InitializeMultisig? || i.InitializeMultisig2? }

  predicate HasMint(i: Wire) { i.InitializeMint? || i.InitializeMint2? }

  predicate HasOther(i: Wire) {
    i.SetAuthority? || i.InitializeMintCloseAuthority? || i.TransferFeeExtension? || Unbounded(i)
  }

  // What each kind of body is read as, whatever the tag.

  lemma AmountFrom(tag: u8, amount: u64, rest: seq<u8>)
    requires KindOf(tag) == KAmount
    ensures UnpackBody(tag, U64Bytes(amount) + rest) == Ok(WithAmount(tag, amount))
  {
    U64Field(amount, rest, []);
  }

  lemma DecimalsFrom(tag: u8, x: AmountDecimals, rest: seq<u8>)
    requires KindOf(tag) == KDecimals
    ensures UnpackBody(tag, AmountDecimalsBytes(x) + rest) == Ok(WithDecimals(tag, x))
  {
    AmountDecimalsField(x, rest, []);
  }

  lemma KeyFrom(tag: u8, key: Pubkey, rest: seq<u8>)
    requires KindOf(tag) == KKey
    ensures UnpackBody(tag, KeyBytes(key) + rest) == Ok(WithKey(tag, key))
  {
    KeyField(key, rest, []);
  }

  lemma ByteFrom(tag: u8, m: u8, rest: seq<u8>)
    requires KindOf(tag) == KByte
    ensures UnpackBody(tag, [m] + rest) == Ok(WithByte(tag, m))
  {
    ByteField(m, rest, []);
  }

  lemma MintFrom(tag: u8, x: MintFields, rest: seq<u8>)
    requires KindOf(tag) == KMint
    ensures UnpackBody(tag, MintFieldsBytes(x) + rest) == Ok(WithMint(tag, x))
  {
    MintFieldsBack(x, rest);
  }

  lemma TypesFrom(tag: u8, types: seq<ExtensionType>)
    requires KindOf(tag) == KTypes
    ensures UnpackBody(tag, TypesBytes(types)) == Ok(WithTypes(tag, types))
  {
    TypesBack(types);
  }

  // And an instruction is what its own tag and fields are read as.

  lemma AmountRebuilt(i: Wire)
    requires HasAmount(i)
    ensures KindOf(Tag(i)) == KAmount && WithAmount(Tag(i), i.amount) == i && Body(i) == U64Bytes(i.amount)
  {}

  lemma DecimalsRebuilt(i: Wire)
    requires HasDecimals(i)
    ensures var x := AmountDecimals(i.amount, i.decimals);
            KindOf(Tag(i)) == KDecimals && WithDecimals(Tag(i), x) == i && Body(i) == AmountDecimalsBytes(x)
  {}

  function KeyIn(i: Wire): Pubkey
    requires HasKey(i)
  {
    if i.InitializePermanentDelegate? then i.delegate else i.owner
  }

  lemma KeyRebuilt(i: Wire)
    requires HasKey(i)
    ensures KindOf(Tag(i)) == KKey && WithKey(Tag(i), KeyIn(i)) == i && Body(i) == KeyBytes(KeyIn(i))
  {}

  lemma MintRebuilt(i: Wire)
    requires HasMint(i)
    ensures var x := MintFields(i.decimals, i.mintAuthority, i.freezeAuthority);
            KindOf(Tag(i)) == KMint && WithMint(Tag(i), x) == i && Body(i) == MintFieldsBytes(x)
  {}

  lemma BareRebuilt(i: Wire)
    requires !HasAmount(i) && !HasDecimals(i) && !HasKey(i) && !HasByte(i) && !HasMint(i) && !HasOther(i)
    ensures KindOf(Tag(i)) == KBare && Bare(Tag(i)) == i && Body(i) == []
  {}

  lemma FieldsBack(i: Wire, rest: seq<u8>)
    requires HasAmount(i) || HasDecimals(i) || HasKey(i) || HasByte(i) || HasMint(i)
    ensures UnpackBody(Tag(i), Body(i) + rest) == Ok(i)
  {
    if HasAmount(i) {
      AmountRebuilt(i);
      AmountFrom(Tag(i), i.amount, rest);
    } else if HasDecimals(i) {
      DecimalsRebuilt(i);
      DecimalsFrom(Tag(i), AmountDecimals(i.amount, i.decimals), rest);
    } else if HasKey(i) {
      KeyRebuilt(i);
      KeyFrom(Tag(i), KeyIn(i), rest);
    } else if HasByte(i) {
      ByteFrom(Tag(i), i.m, rest);
    } else {
      MintRebuilt(i);
      MintFrom(Tag(i), MintFields(i.decimals, i.mintAuthority, i.freezeAuthority), rest);
    }
  }

  lemma OptionTaken(b: seq<u8>, k: Option<Pubkey>, rest: seq<u8>)
    requires TakeKeyOption(b) == Ok(Taken(k, rest))
    ensures UnpackBody(25, b) == Ok(InitializeMintCloseAuthority(k))
  {}

  lemma OptionFrom(k: Option<Pubkey>, rest: seq<u8>)
    ensures UnpackBody(25, KeyOptionBytes(k) + rest) == Ok(InitializeMintCloseAuthority(k))
  {
    KeyOptionBack(k, rest);
    OptionTaken(KeyOptionBytes(k) + rest, k, rest);
  }

  lemma AuthorityFrom(x: AuthorityFields, rest: seq<u8>)
    ensures UnpackBody(6, AuthorityBytes(x) + rest) == Ok(SetAuthority(x.kind, x.key))
  {
    AuthorityBack(x, rest);
  }

  lemma FeeTaken(b: seq<u8>, x: FeeWire, rest: seq<u8>)
    requires UnpackFee(b) == Ok(Taken(x, rest))
    ensures UnpackBody(26, b) == Ok(TransferFeeExtension(x))
  {}

  lemma FeeFrom(x: FeeWire, rest: seq<u8>)
    ensures UnpackBody(26, PackFee(x) + rest) == Ok(TransferFeeExtension(x))
  {
    FeeBack(x, rest);
    FeeTaken(PackFee(x) + rest, x, rest);
  }

  lemma OtherBack(i: Wire, rest: seq<u8>)
    requires HasOther(i) && (Unbounded(i) ==> rest == [])
    ensures UnpackBody(Tag(i), Body(i) + rest) == Ok(i)
  {
    match i {
      case SetAuthority(t, k) => AuthorityFrom(AuthorityFields(t, k), rest);
      case InitializeMintCloseAuthority(k) => OptionFrom(k, rest);
      case TransferFeeExtension(x) => FeeFrom(x, rest);
      case GetAccountDataSize(types) =>
        TypesFrom(21, types);
        assert Body(i) + rest == TypesBytes(types);
      case Reallocate(types) =>
        TypesFrom(29, types);
        assert Body(i) + rest == TypesBytes(types);
      case UiAmountToAmount(text) => assert Body(i) + rest == text;
    }
  }

  lemma BodyBack(i: Wire, rest: seq<u8>)
    requires Unbounded(i) ==> rest == []
    ensures UnpackBody(Tag(i), Body(i) + rest) == Ok(i)
  {
    if HasAmount(i) || HasDecimals(i) || HasKey(i) || HasByte(i) || HasMint(i) {
      FieldsBack(i, rest);
    } else if HasOther(i) {
      OtherBack(i, rest);
    } else {
      BareRebuilt(i);
    }
  }

  predicate Canonical(tag: u8, b: seq<u8>, i: Wire) {
    Tag(i) == tag && Body(i) <= b && (Unbounded(i) ==> Body(i) == b)
  }

  lemma FieldsCanonical(tag: u8, b: seq<u8>)
    requires UnpackBody(tag, b).Ok? && KindOf(tag) in {KBare, KAmount, KDecimals, KKey, KByte, KMint}
    ensures Canonical(tag, b, UnpackBody(tag, b).value)
  {
    var i := UnpackBody(tag, b).value;
    match KindOf(tag) {
      case KAmount => U64Field(0, [], b); CanonicalFrom(tag, b, i, TakeU64(b).value.rest);
      case KDecimals =>
        AmountDecimalsField(AmountDecimals(0, 0), [], b);
        CanonicalFrom(tag, b, i, TakeAmountDecimals(b).value.rest);
      case KKey => KeyField(0, [], b); CanonicalFrom(tag, b, i, TakeKey(b).value.rest);
      case KByte => ByteField(0, [], b); CanonicalFrom(tag, b, i, b[1..]);
      case KMint => MintFieldsCanonical(b); CanonicalFrom(tag, b, i, TakeMint(b).value.rest);
      case _ => CanonicalFrom(tag, b, i, b);
    }
  }

  lemma CanonicalFrom(tag: u8, b: seq<u8>, i: Wire, rest: seq<u8>)
    requires Tag(i) == tag && !Unbounded(i) && b == Body(i) + rest
    ensures Canonical(tag, b, i)
  {}

  lemma AuthorityCanonical(b: seq<u8>)
    requires TakeAuthority(b).Ok?
    ensures var x := TakeAuthority(b).value.value; Canonical(6, b, SetAuthority(x.kind, x.key))
  {
    var x := TakeAuthority(b).value;
    AuthorityTaken(b);
    CanonicalFrom(6, b, SetAuthority(x.value.kind, x.value.key), x.rest);
  }

  lemma OptionCanonical(b: seq<u8>)
    requires TakeKeyOption(b).Ok?
    ensures Canonical(25, b, InitializeMintCloseAuthority(TakeKeyOption(b).value.value))
  {
    var x := TakeKeyOption(b).value;
    KeyOptionCanonical(b);
    CanonicalFrom(25, b, InitializeMintCloseAuthority(x.value), x.rest);
  }

  lemma FeeCanonical(b: seq<u8>, x: FeeWire, rest: seq<u8>)
    requires b == PackFee(x) + rest
    ensures Canonical(26, b, TransferFeeExtension(x))
  {
    var i := TransferFeeExtension(x);
    assert Body(i) == PackFee(x);
    CanonicalFrom(26, b, i, rest);
  }

  lemma OthersCanonical(tag: u8, b: seq<u8>)
    requires UnpackBody(tag, b).Ok? && KindOf(tag) in {KAuthority, KTypes, KText, KOption, KFee}
    ensures Canonical(tag, b, UnpackBody(tag, b).value)
  {
    match KindOf(tag) {
      case KAuthority => AuthorityCanonical(b);
      case KTypes => TypesCanonical(b);
      case KOption => OptionCanonical(b);
      case KFee =>
        FeeUnpacked(b);
        FeeCanonical(b, UnpackFee(b).value.value, UnpackFee(b).value.rest);
      case _ =>
    }
  }

  lemma BodyCanonical(tag: u8, b: seq<u8>)
    requires UnpackBody(tag, b).Ok?
    ensures Canonical(tag, b, UnpackBody(tag, b).value)
  {
    if KindOf(tag) in {KBare, KAmount, KDecimals, KKey, KByte, KMint} {
      FieldsCanonical(tag, b);
    } else {
      OthersCanonical(tag, b);
    }
  }

  lemma UnpackTagged(tag: u8, body: seq<u8>)
    ensures Unpack([tag] + body) == UnpackBody(tag, body)
  {
    Tail(tag, body);
  }

  /** Every instruction survives packing; one with a fixed-size body also survives anything written after it, which is
      what the extension encoders rely on. */
  lemma UnpackPack(i: Wire, suffix: seq<u8>)
    requires Unbounded(i) ==> suffix == []
    ensures Unpack(Pack(i) + suffix) == Ok(i)
  {
    BodyBack(i, suffix);
    UnpackTagged(Tag(i), Body(i) + suffix);
    Assoc([Tag(i)], Body(i), suffix);
  }

  lemma CanonicalStarts(b: seq<u8>, i: Wire)
    requires b != [] && Canonical(b[0], b[1..], i)
    ensures if Unbounded(i) then b == Pack(i) else Pack(i) <= b
  {
    assert b == [b[0]] + b[1..];
  }

  /** Unpacking accepts an input as an instruction exactly when the input starts with its packed form, and for one that
      runs to the end, exactly when it is its packed form: no two encodings of one instruction exist. */
  lemma UnpackExactly(b: seq<u8>, i: Wire)
    ensures Unpack(b) == Ok(i) <==> if Unbounded(i) then b == Pack(i) else Pack(i) <= b
  {
    if Unbounded(i) {
      UnpackPack(i, []);
      assert Pack(i) + [] == Pack(i);
    } else if Pack(i) <= b {
      UnpackPack(i, b[|Pack(i)|..]);
      assert b == Pack(i) + b[|Pack(i)|..];
    }
    if Unpack(b) == Ok(i) {
      BodyCanonical(b[0], b[1..]);
      CanonicalStarts(b, i);
    }
  }

  /** An extension instruction, as the encoder builds it: the shared prefix, its own code, then its data. */
  function Encode(prefix: Wire, code: u8, data: seq<u8>): seq<u8> { Pack(prefix) + [code] + data }

  /** The prefix is recovered whatever follows it. */
  lemma EncodedPrefix(prefix: Wire, code: u8, data: seq<u8>)
    requires !Unbounded(prefix)
    ensures Unpack(Encode(prefix, code, data)) == Ok(prefix)
  {
    UnpackPack(prefix, [code] + data);
    Assoc(Pack(prefix), [code], data);
  }
}

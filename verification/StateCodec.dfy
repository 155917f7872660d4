/** The byte layout of mints, accounts and multisigs (`state.rs`), written in place, and the fixed-offset readers of
    `generic_token_account.rs`. */
module StateCodec {
  import opened Base
  import opened Bytes
  import opened TokenState
  import opened Ledger

  // ---- optional fields ----

  /** Byte `i` of a packed optional key: `None` clears the tag and leaves the body as it was. */
  function KeyByte(k: Option<Pubkey>, i: nat, was: u8): u8
    requires i < 36
  {
    if i == 0 then (if k.Some? then 1 else 0)
    else if i < 4 then 0
    else if k.Some? then KeyBytes(k.value)[i - 4]
    else was
  }

  /** `pack_coption_key` into 36 bytes. */
  function PackKey(k: Option<Pubkey>, was: seq<u8>): (r: seq<u8>)
    requires |was| == 36
    ensures |r| == 36
  {
    seq(36, i requires 0 <= i < 36 => KeyByte(k, i, was[i]))
  }

  function UnpackKey(b: seq<u8>): Result<Option<Pubkey>, Error>
    requires |b| == 36
  {
    if b[..4] == [0, 0, 0, 0] then Ok(None)
    else if b[..4] == [1, 0, 0, 0] then Ok(Some(KeyOf(b[4..])))
    else Err(InvalidAccountData)
  }

  function U64Byte(n: Option<u64>, i: nat, was: u8): u8
    requires i < 12
  {
    if i == 0 then (if n.Some? then 1 else 0)
    else if i < 4 then 0
    else if n.Some? then U64Bytes(n.value)[i - 4]
    else was
  }

  /** `pack_coption_u64` into 12 bytes. */
  function PackU64(n: Option<u64>, was: seq<u8>): (r: seq<u8>)
    requires |was| == 12
    ensures |r| == 12
  {
    seq(12, i requires 0 <= i < 12 => U64Byte(n, i, was[i]))
  }

  function UnpackU64(b: seq<u8>): Result<Option<u64>, Error>
    requires |b| == 12
  {
    if b[..4] == [0, 0, 0, 0] then Ok(None)
    else if b[..4] == [1, 0, 0, 0] then Ok(Some(U64Of(b[4..])))
    else Err(InvalidAccountData)
  }

  lemma KeyField(k: Option<Pubkey>, was: seq<u8>)
    requires |was| == 36
    ensures UnpackKey(PackKey(k, was)) == Ok(k)
    ensures UnpackKey(was).Ok? ==> PackKey(UnpackKey(was).value, was) == was
  {
    var b := PackKey(k, was);
    if k.Some? {
      KeyBack(k.value);
      assert b[4..] == KeyBytes(k.value) && b[..4] == [1, 0, 0, 0];
    } else {
      assert b[..4] == [0, 0, 0, 0];
    }
    KeyKept(was);
  }

  lemma KeyKept(was: seq<u8>)
    requires |was| == 36
    ensures UnpackKey(was).Ok? ==> PackKey(UnpackKey(was).value, was) == was
  {
    if UnpackKey(was).Ok? {
      var k := UnpackKey(was).value;
      assert was[0] == was[..4][0] && was[1] == was[..4][1] && was[2] == was[..4][2] && was[3] == was[..4][3];
      forall i | 0 <= i < 36 ensures KeyByte(k, i, was[i]) == was[i] {
        if i >= 4 { assert was[4..][i - 4] == was[i]; }
      }
    }
  }

  lemma U64Field(n: Option<u64>, was: seq<u8>)
    requires |was| == 12
    ensures UnpackU64(PackU64(n, was)) == Ok(n)
    ensures UnpackU64(was).Ok? ==> PackU64(UnpackU64(was).value, was) == was
  {
    var b := PackU64(n, was);
    if n.Some? {
      U64Back(n.value);
      assert b[4..] == U64Bytes(n.value) && b[..4] == [1, 0, 0, 0];
    } else {
      assert b[..4] == [0, 0, 0, 0];
    }
    U64Kept(was);
  }

  lemma U64Kept(was: seq<u8>)
    requires |was| == 12
    ensures UnpackU64(was).Ok? ==> PackU64(UnpackU64(was).value, was) == was
  {
    if UnpackU64(was).Ok? {
      var n := UnpackU64(was).value;
      assert was[0] == was[..4][0] && was[1] == was[..4][1] && was[2] == was[..4][2] && was[3] == was[..4][3];
      forall i | 0 <= i < 12 ensures U64Byte(n, i, was[i]) == was[i] {
        if i >= 4 { assert was[4..][i - 4] == was[i]; }
      }
    }
  }

  function BoolByte(b: bool): u8 { if b then 1 else 0 }

  function BoolOf(x: u8): Result<bool, Error> {
    if x == 0 then Ok(false) else if x == 1 then Ok(true) else Err(InvalidAccountData)
  }

  function StateByte(s: AccountState): u8 {
    match s case Uninitialized => 0 case Initialized => 1 case Frozen => 2
  }

  function StateOf(x: u8): Result<AccountState, Error> {
    if x == 0 then Ok(Uninitialized) else if x == 1 then Ok(Initialized) else if x == 2 then Ok(Frozen)
    else Err(InvalidAccountData)
  }

  // ---- mints: 36, 8, 1, 1, 36 ----

  function PackMint(m: Mint, was: seq<u8>): (r: seq<u8>)
    requires |was| == MINT_LEN
    ensures |r| == MINT_LEN
  {
    PackKey(m.mintAuthority, was[..36]) + U64Bytes(m.supply) + [m.decimals] + [BoolByte(m.isInitialized)]
    + PackKey(m.freezeAuthority, was[46..])
  }

  function UnpackMint(b: seq<u8>): Result<Mint, Error>
    requires |b| == MINT_LEN
  {
    var mintAuthority :- UnpackKey(b[..36]);
    var isInitialized :- BoolOf(b[45]);
    var freezeAuthority :- UnpackKey(b[46..]);
    Ok(Mint(mintAuthority, U64Of(b[36..44]), b[44], isInitialized, freezeAuthority))
  }

  lemma MintParts(m: Mint, was: seq<u8>)
    requires |was| == MINT_LEN
    ensures var b := PackMint(m, was);
            && b[..36] == PackKey(m.mintAuthority, was[..36]) && b[36..44] == U64Bytes(m.supply) && b[44] == m.decimals
            && b[45] == BoolByte(m.isInitialized) && b[46..] == PackKey(m.freezeAuthority, was[46..])
  {}

  lemma MintPackThenUnpack(m: Mint, was: seq<u8>)
    requires |was| == MINT_LEN
    ensures UnpackMint(PackMint(m, was)) == Ok(m)
  {
    MintParts(m, was);
    KeyField(m.mintAuthority, was[..36]);
    KeyField(m.freezeAuthority, was[46..]);
    U64Back(m.supply);
  }

  lemma MintUnpackThenPack(was: seq<u8>)
    requires |was| == MINT_LEN && UnpackMint(was).Ok?
    ensures PackMint(UnpackMint(was).value, was) == was
  {
    var m := UnpackMint(was).value;
    KeyField(m.mintAuthority, was[..36]);
    KeyField(m.freezeAuthority, was[46..]);
    assert was == was[..36] + was[36..44] + [was[44]] + [was[45]] + was[46..];
  }

  /** Unpacking what was packed gives the mint back, whatever the buffer held before; packing back what was unpacked
      changes no byte. */
  lemma MintCodec(m: Mint, was: seq<u8>)
    requires |was| == MINT_LEN
    ensures UnpackMint(PackMint(m, was)) == Ok(m)
    ensures UnpackMint(was).Ok? ==> PackMint(UnpackMint(was).value, was) == was
  {
    MintPackThenUnpack(m, was);
    if UnpackMint(was).Ok? { MintUnpackThenPack(was); }
  }

  // ---- accounts: 32, 32, 8, 36, 1, 12, 8, 36 ----

  function PackAccount(a: Account, was: seq<u8>): (r: seq<u8>)
    requires |was| == ACCOUNT_LEN
    ensures |r| == ACCOUNT_LEN
  {
    KeyBytes(a.mint) + KeyBytes(a.owner) + U64Bytes(a.amount) + PackKey(a.delegate, was[72..108])
    + [StateByte(a.state)] + PackU64(a.isNative, was[109..121]) + U64Bytes(a.delegatedAmount)
    + PackKey(a.closeAuthority, was[129..])
  }

  function UnpackAccount(b: seq<u8>): Result<Account, Error>
    requires |b| == ACCOUNT_LEN
  {
    var delegate :- UnpackKey(b[72..108]);
    var state :- StateOf(b[108]);
    var isNative :- UnpackU64(b[109..121]);
    var closeAuthority :- UnpackKey(b[129..]);
    Ok(Account(KeyOf(b[..32]), KeyOf(b[32..64]), U64Of(b[64..72]), delegate, state, isNative, U64Of(b[121..129]),
               closeAuthority))
  }

  lemma AccountParts(a: Account, was: seq<u8>)
    requires |was| == ACCOUNT_LEN
    ensures var b := PackAccount(a, was);
            && b[..32] == KeyBytes(a.mint) && b[32..64] == KeyBytes(a.owner) && b[64..72] == U64Bytes(a.amount)
            && b[72..108] == PackKey(a.delegate, was[72..108]) && b[108] == StateByte(a.state)
            && b[109..121] == PackU64(a.isNative, was[109..121]) && b[121..129] == U64Bytes(a.delegatedAmount)
            && b[129..] == PackKey(a.closeAuthority, was[129..])
  {}

  lemma AccountPackThenUnpack(a: Account, was: seq<u8>)
    requires |was| == ACCOUNT_LEN
    ensures UnpackAccount(PackAccount(a, was)) == Ok(a)
  {
    AccountParts(a, was);
    KeyBack(a.mint);
    KeyBack(a.owner);
    U64Back(a.amount);
    U64Back(a.delegatedAmount);
    KeyField(a.delegate, was[72..108]);
    U64Field(a.isNative, was[109..121]);
    KeyField(a.closeAuthority, was[129..]);
  }

  lemma AccountUnpackThenPack(was: seq<u8>)
    requires |was| == ACCOUNT_LEN && UnpackAccount(was).Ok?
    ensures PackAccount(UnpackAccount(was).value, was) == was
  {
    var a := UnpackAccount(was).value;
    KeyField(a.delegate, was[72..108]);
    U64Field(a.isNative, was[109..121]);
    KeyField(a.closeAuthority, was[129..]);
    assert was == was[..32] + was[32..64] + was[64..72] + was[72..108] + [was[108]] + was[109..121] + was[121..129]
                  + was[129..];
  }

  /** The same two facts for accounts. */
  lemma AccountCodec(a: Account, was: seq<u8>)
    requires |was| == ACCOUNT_LEN
    ensures UnpackAccount(PackAccount(a, was)) == Ok(a)
    ensures UnpackAccount(was).Ok? ==> PackAccount(UnpackAccount(was).value, was) == was
  {
    AccountPackThenUnpack(a, was);
    if UnpackAccount(was).Ok? { AccountUnpackThenPack(was); }
  }

  // ---- multisigs: 1, 1, 1, then eleven keys ----

  function FlatKeys(keys: seq<Pubkey>): (r: seq<u8>)
    ensures |r| == 32 * |keys|
  {
    if keys == [] then [] else FlatKeys(keys[..|keys| - 1]) + KeyBytes(keys[|keys| - 1])
  }

  function KeysOf(b: seq<u8>, n: nat): (r: seq<Pubkey>)
    requires |b| == 32 * n
    ensures |r| == n
  {
    if n == 0 then [] else KeysOf(b[..32 * (n - 1)], n - 1) + [KeyOf(b[32 * (n - 1)..])]
  }

  lemma {:induction false} KeysBack(keys: seq<Pubkey>)
    ensures KeysOf(FlatKeys(keys), |keys|) == keys
  {
    var n := |keys|;
    if n > 0 {
      KeysBack(keys[..n - 1]);
      KeyBack(keys[n - 1]);
      var b := FlatKeys(keys);
      assert b[..32 * (n - 1)] == FlatKeys(keys[..n - 1]) && b[32 * (n - 1)..] == KeyBytes(keys[n - 1]);
    }
  }

  lemma {:induction false} KeysCanonical(b: seq<u8>, n: nat)
    requires |b| == 32 * n
    ensures FlatKeys(KeysOf(b, n)) == b
  {
    if n > 0 {
      KeysCanonical(b[..32 * (n - 1)], n - 1);
      var keys := KeysOf(b, n);
      assert keys[..n - 1] == KeysOf(b[..32 * (n - 1)], n - 1);
      assert b == b[..32 * (n - 1)] + b[32 * (n - 1)..];
    }
  }

  function PackMultisig(m: Multisig): (r: seq<u8>)
    ensures |r| == MULTISIG_LEN
  {
    [m.m] + [m.n] + [BoolByte(m.isInitialized)] + FlatKeys(m.signers)
  }

  function UnpackMultisig(b: seq<u8>): Result<Multisig, Error>
    requires |b| == MULTISIG_LEN
  {
    var isInitialized :- BoolOf(b[2]);
    Ok(Multisig(b[0], b[1], isInitialized, KeysOf(b[3..], MAX_SIGNERS)))
  }

  lemma MultisigCodec(m: Multisig, was: seq<u8>)
    requires |was| == MULTISIG_LEN
    ensures UnpackMultisig(PackMultisig(m)) == Ok(m)
    ensures UnpackMultisig(was).Ok? ==> PackMultisig(UnpackMultisig(was).value) == was
  {
    KeysBack(m.signers);
    assert PackMultisig(m)[3..] == FlatKeys(m.signers);
    KeysCanonical(was[3..], MAX_SIGNERS);
    assert was == [was[0]] + [was[1]] + [was[2]] + was[3..];
  }

  // ---- writing in place ----

  /** `copy_from_slice` into part of a buffer. */
  method Write(dst: array<u8>, at: nat, bytes: seq<u8>)
    requires at + |bytes| <= dst.Length
    modifies dst
    ensures forall i :: at <= i < at + |bytes| ==> dst[i] == bytes[i - at]
    ensures forall i :: 0 <= i < dst.Length && !(at <= i < at + |bytes|) ==> dst[i] == old(dst[i])
  {
    for i := 0 to |bytes|
      invariant forall j :: at <= j < at + i ==> dst[j] == bytes[j - at]
      invariant forall j :: 0 <= j < dst.Length && !(at <= j < at + i) ==> dst[j] == old(dst[j])
    {
      dst[at + i] := bytes[i];
    }
  }

  /** `pack_coption_key` at an offset. */
  method WriteKey(dst: array<u8>, at: nat, k: Option<Pubkey>)
    requires at + 36 <= dst.Length
    modifies dst
    ensures forall i :: at <= i < at + 36 ==> dst[i] == KeyByte(k, i - at, old(dst[i]))
    ensures forall i :: 0 <= i < dst.Length && !(at <= i < at + 36) ==> dst[i] == old(dst[i])
  {
    match k {
      case Some(key) =>
        Write(dst, at, [1, 0, 0, 0]);
        Write(dst, at + 4, KeyBytes(key));
      case None => Write(dst, at, [0, 0, 0, 0]);
    }
  }

  /** `pack_coption_u64` at an offset. */
  method WriteU64(dst: array<u8>, at: nat, n: Option<u64>)
    requires at + 12 <= dst.Length
    modifies dst
    ensures forall i :: at <= i < at + 12 ==> dst[i] == U64Byte(n, i - at, old(dst[i]))
    ensures forall i :: 0 <= i < dst.Length && !(at <= i < at + 12) ==> dst[i] == old(dst[i])
  {
    match n {
      case Some(value) =>
        Write(dst, at, [1, 0, 0, 0]);
        Write(dst, at + 4, U64Bytes(value));
      case None => Write(dst, at, [0, 0, 0, 0]);
    }
  }

  /** Byte `i` of a packed mint. */
  function MintByte(m: Mint, i: nat, was: u8): u8
    requires i < MINT_LEN
  {
    if i < 36 then KeyByte(m.mintAuthority, i, was)
    else if i < 44 then U64Bytes(m.supply)[i - 36]
    else if i == 44 then m.decimals
    else if i == 45 then BoolByte(m.isInitialized)
    else KeyByte(m.freezeAuthority, i - 46, was)
  }

  lemma MintBytes(m: Mint, was: seq<u8>, i: nat)
    requires |was| == MINT_LEN && i < MINT_LEN
    ensures PackMint(m, was)[i] == MintByte(m, i, was[i])
  {
    MintParts(m, was);
    var b := PackMint(m, was);
    if i < 36 { assert b[..36][i] == b[i]; }
    else if i < 44 { assert b[36..44][i - 36] == b[i]; }
    else if i >= 46 { assert b[46..][i - 46] == b[i] && was[46..][i - 46] == was[i]; }
  }

  method PackMintInto(m: Mint, dst: array<u8>)
    requires dst.Length >= MINT_LEN
    modifies dst
    ensures dst[..MINT_LEN] == PackMint(m, old(dst[..MINT_LEN]))
    ensures dst[MINT_LEN..] == old(dst[MINT_LEN..])
  {
    ghost var was := dst[..MINT_LEN];
    WriteKey(dst, 0, m.mintAuthority);
    Write(dst, 36, U64Bytes(m.supply));
    dst[44] := m.decimals;
    dst[45] := if m.isInitialized then 1 else 0;
    WriteKey(dst, 46, m.freezeAuthority);
    forall i | 0 <= i < MINT_LEN ensures dst[i] == PackMint(m, was)[i] { MintBytes(m, was, i); }
  }

  /** Byte `i` of a packed account. */
  function AccountByte(a: Account, i: nat, was: u8): u8
    requires i < ACCOUNT_LEN
  {
    if i < 32 then KeyBytes(a.mint)[i]
    else if i < 64 then KeyBytes(a.owner)[i - 32]
    else if i < 72 then U64Bytes(a.amount)[i - 64]
    else if i < 108 then KeyByte(a.delegate, i - 72, was)
    else if i == 108 then StateByte(a.state)
    else if i < 121 then U64Byte(a.isNative, i - 109, was)
    else if i < 129 then U64Bytes(a.delegatedAmount)[i - 121]
    else KeyByte(a.closeAuthority, i - 129, was)
  }

  lemma AccountBytes(a: Account, was: seq<u8>, i: nat)
    requires |was| == ACCOUNT_LEN && i < ACCOUNT_LEN
    ensures PackAccount(a, was)[i] == AccountByte(a, i, was[i])
  {
    AccountParts(a, was);
    var b := PackAccount(a, was);
    if i < 32 { assert b[..32][i] == b[i]; }
    else if i < 64 { assert b[32..64][i - 32] == b[i]; }
    else if i < 72 { assert b[64..72][i - 64] == b[i]; }
    else if i < 108 { assert b[72..108][i - 72] == b[i] && was[72..108][i - 72] == was[i]; }
    else if i == 108 { }
    else if i < 121 { assert b[109..121][i - 109] == b[i] && was[109..121][i - 109] == was[i]; }
    else if i < 129 { assert b[121..129][i - 121] == b[i]; }
    else { assert b[129..][i - 129] == b[i] && was[129..][i - 129] == was[i]; }
  }

  method PackAccountInto(a: Account, dst: array<u8>)
    requires dst.Length >= ACCOUNT_LEN
    modifies dst
    ensures dst[..ACCOUNT_LEN] == PackAccount(a, old(dst[..ACCOUNT_LEN]))
    ensures dst[ACCOUNT_LEN..] == old(dst[ACCOUNT_LEN..])
  {
    ghost var was := dst[..ACCOUNT_LEN];
    Write(dst, 0, KeyBytes(a.mint));
    Write(dst, 32, KeyBytes(a.owner));
    Write(dst, 64, U64Bytes(a.amount));
    WriteKey(dst, 72, a.delegate);
    dst[108] := StateByte(a.state);
    WriteU64(dst, 109, a.isNative);
    Write(dst, 121, U64Bytes(a.delegatedAmount));
    WriteKey(dst, 129, a.closeAuthority);
    forall i | 0 <= i < ACCOUNT_LEN ensures dst[i] == PackAccount(a, was)[i] { AccountBytes(a, was, i); }
  }

  /** `Multisig::pack_into_slice`, key by key. */
  method PackMultisigInto(m: Multisig, dst: array<u8>)
    requires dst.Length >= MULTISIG_LEN
    modifies dst
    ensures dst[..MULTISIG_LEN] == PackMultisig(m)
    ensures dst[MULTISIG_LEN..] == old(dst[MULTISIG_LEN..])
  {
    dst[0], dst[1], dst[2] := m.m, m.n, if m.isInitialized then 1 else 0;
    for i := 0 to MAX_SIGNERS
      invariant dst[0] == m.m && dst[1] == m.n && dst[2] == BoolByte(m.isInitialized)
      invariant forall j :: 3 <= j < 3 + 32 * i ==> dst[j] == FlatKeys(m.signers[..i])[j - 3]
      invariant forall j :: MULTISIG_LEN <= j < dst.Length ==> dst[j] == old(dst[j])
    {
      assert m.signers[..i + 1][..i] == m.signers[..i];
      Write(dst, 3 + 32 * i, KeyBytes(m.signers[i]));
    }
    assert m.signers[..MAX_SIGNERS] == m.signers;
  }

  /** `Multisig::unpack_from_slice`, chunk by chunk. */
  method UnpackSigners(b: seq<u8>) returns (keys: seq<Pubkey>)
    requires |b| == 32 * MAX_SIGNERS
    ensures keys == KeysOf(b, MAX_SIGNERS)
  {
    keys := [];
    for i := 0 to MAX_SIGNERS
      invariant |keys| == i && keys == KeysOf(b[..32 * i], i)
    {
      var chunk := b[32 * i..32 * i + 32];
      assert b[..32 * (i + 1)][..32 * i] == b[..32 * i] && b[..32 * (i + 1)][32 * i..] == chunk;
      assert KeysOf(b[..32 * (i + 1)], i + 1) == KeysOf(b[..32 * i], i) + [KeyOf(chunk)];
      keys := keys + [KeyOf(chunk)];
    }
    assert b[..32 * MAX_SIGNERS] == b;
  }

  // ---- the fixed-offset readers ----

  const ACCOUNT_TYPE_ACCOUNT: u8 := 2
  const STATE_OFFSET := 108

  predicate IsInitializedData(b: seq<u8>) { |b| > STATE_OFFSET && b[STATE_OFFSET] != 0 }

  predicate ValidAccountData(b: seq<u8>) {
    (|b| == ACCOUNT_LEN && IsInitializedData(b))
    || (|b| >= ACCOUNT_LEN && |b| != MULTISIG_LEN && |b| > ACCOUNT_LEN && b[ACCOUNT_LEN] == ACCOUNT_TYPE_ACCOUNT
        && IsInitializedData(b))
  }

  function ReadOwner(b: seq<u8>): Option<Pubkey> {
    if ValidAccountData(b) then Some(KeyOf(b[32..64])) else None
  }

  function ReadMint(b: seq<u8>): Option<Pubkey> {
    if ValidAccountData(b) then Some(KeyOf(b[..32])) else None
  }

  /** A bare account, or one with extensions whose type byte says so. */
  predicate Typed(b: seq<u8>) {
    |b| == ACCOUNT_LEN || (|b| > ACCOUNT_LEN && |b| != MULTISIG_LEN && b[ACCOUNT_LEN] == ACCOUNT_TYPE_ACCOUNT)
  }

  /** On every buffer whose base unpacks, the readers answer exactly when the account is initialised and the buffer is
      bare or typed as an account, and they answer what unpacking says. */
  lemma ReadersAgree(b: seq<u8>)
    requires |b| >= ACCOUNT_LEN && UnpackAccount(b[..ACCOUNT_LEN]).Ok?
    ensures var a := UnpackAccount(b[..ACCOUNT_LEN]).value;
            && ReadOwner(b) == (if a.state != Uninitialized && Typed(b) then Some(a.owner) else None)
            && ReadMint(b) == (if a.state != Uninitialized && Typed(b) then Some(a.mint) else None)
  {
    var base := b[..ACCOUNT_LEN];
    assert base[..32] == b[..32] && base[32..64] == b[32..64] && base[108] == b[108];
  }

  /** The four bytes before an optional field that say whether it is there. */
  predicate OptionTag(tag: seq<u8>) { tag == [0, 0, 0, 0] || tag == [1, 0, 0, 0] }

  lemma UnpacksExactly(b: seq<u8>)
    requires |b| == ACCOUNT_LEN
    ensures UnpackAccount(b).Ok? <==>
            b[STATE_OFFSET] <= 2 && OptionTag(b[72..76]) && OptionTag(b[109..113]) && OptionTag(b[129..133])
  {
    assert b[72..108][..4] == b[72..76] && b[109..121][..4] == b[109..113] && b[129..][..4] == b[129..133];
  }

  /** The readers look at the length, the type byte and the state byte alone. For every buffer: they answer although the
      base does not unpack exactly when the state byte is past the last state or an option tag is neither none nor
      some. */
  lemma ReadersAcceptMore(b: seq<u8>)
    ensures ReadMint(b).Some? <==> ReadOwner(b).Some?
    ensures ReadOwner(b).Some? && UnpackAccount(b[..ACCOUNT_LEN]).Err? <==>
            && Typed(b) && b[STATE_OFFSET] != 0
            && (b[STATE_OFFSET] > 2
                || !OptionTag(b[72..76]) || !OptionTag(b[109..113]) || !OptionTag(b[129..133]))
  {
    if |b| >= ACCOUNT_LEN {
      var base := b[..ACCOUNT_LEN];
      UnpacksExactly(base);
      assert base[72..76] == b[72..76] && base[109..113] == b[109..113] && base[129..133] == b[129..133];
    }
  }
}

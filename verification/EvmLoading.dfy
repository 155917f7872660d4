/** How the emulator fills its accounts from the node: lazily, keeping the first value under every key, converting
    legacy accounts as they are met. */
module EvmLoading {
  import opened Base
  import opened EvmAccounts

  type Accounts = map<Key, Entry>

  /** The node's answers (overrides included), the rent table and the chain legacy balances belong to. */
  datatype Ctx = Ctx(rpc: Key -> Option<RpcAccount>, rent: nat -> u64, defaultChain: u64)

  datatype Fault = AlreadyInitialized | BadTag | Unimplemented | InsufficientBalance | IntegerOverflow | NonceOverflow
                 | Panic

  /** `FrozenMap::insert`: the first value under a key stays. */
  function Insert(m: Accounts, k: Key, e: Entry): Accounts {
    if k in m then m else m[k := e]
  }

  function AddEmpty(m: Accounts, k: Key): Accounts {
    Insert(m, k, NO_ENTRY)
  }

  function Put(m: Accounts, k: Key, e: Entry): Accounts {
    m[k := e]
  }

  function At(m: Accounts, k: Key): Entry {
    if k in m then m[k] else NO_ENTRY
  }

  // ---- accounts made by the emulator ----

  /** `assign` refuses an account that some program already owns. */
  function CreateBalance(ctx: Ctx, e: Entry, w: Wallet): Result<Entry, Fault> {
    if !e.content.Empty? then Err(AlreadyInitialized)
    else Ok(Entry(ctx.rent(BALANCE_LEN), BALANCE_LEN, Balance(w)))
  }

  function CreateContract(ctx: Ctx, e: Entry, chainId: u64, generation: u32, code: seq<u8>, statics: Statics)
    : Result<Entry, Fault>
  {
    if !e.content.Empty? then Err(AlreadyInitialized)
    else Ok(Entry(ctx.rent(CONTRACT_LEN + |code|), CONTRACT_LEN + |code|, Contract(chainId, generation, code, statics)))
  }

  function CreateCell(ctx: Ctx, e: Entry, cells: seq<SubCell>): Result<Entry, Fault> {
    if !e.content.Empty? then Err(AlreadyInitialized)
    else Ok(Entry(ctx.rent(CELL_LEN + SUBCELL_LEN * |cells|), CELL_LEN + SUBCELL_LEN * |cells|, Cell(cells)))
  }

  // ---- loading ----

  predicate HasWallet(body: Body)
    requires body.LegacyEther?
  {
    body.wallet.balance > 0 || body.wallet.nonce > 0
  }

  predicate HasContract(body: Body)
    requires body.LegacyEther?
  {
    |body.code| > 0 || body.generation > 0
  }

  function MigratedStatics(body: Body): Statics
    requires body.LegacyEther?
  {
    if body.code == [] then NoStatics() else body.statics
  }

  function MigrateWallet(ctx: Ctx, m: Accounts, k: Key, body: Body): Result<Accounts, Fault>
    requires body.LegacyEther?
  {
    var m1 := AddEmpty(m, k);
    if HasWallet(body) then
      var e :- CreateBalance(ctx, At(m1, k), body.wallet);
      Ok(Put(m1, k, e))
    else Ok(m1)
  }

  function MigrateContract(ctx: Ctx, m: Accounts, k: Key, body: Body): Result<Accounts, Fault>
    requires body.LegacyEther?
  {
    var m1 := AddEmpty(m, k);
    if HasContract(body) then
      var e :- CreateContract(ctx, At(m1, k), ctx.defaultChain, body.generation, body.code, MigratedStatics(body));
      Ok(Put(m1, k, e))
    else Ok(m1)
  }

  /** `_add_legacy_account`: one legacy account becomes a balance account and a contract account. */
  function AddLegacyEther(ctx: Ctx, m: Accounts, a: Address, body: Body): Result<Accounts, Fault>
    requires body.LegacyEther?
  {
    var m1 :- MigrateWallet(ctx, m, BalanceKey(a, ctx.defaultChain), body);
    MigrateContract(ctx, m1, ContractKey(a), body)
  }

  datatype Generation = Generation(accounts: Accounts, value: Option<u32>)

  /** The generation of a contract account that has code. */
  function GenerationOf(content: Content): Result<Option<u32>, Fault> {
    match content
    case Empty => Ok(None)
    case Contract(_, generation, code, _) => Ok(if |code| > 0 then Some(generation) else None)
    case _ => Err(BadTag)
  }

  /** The contract under a legacy cell, by the tags `_get_contract_generation_limited` knows. */
  function AddContractUnderCell(ctx: Ctx, m: Accounts, a: Address, account: RpcAccount): Result<Accounts, Fault> {
    match account.body
    case Current(content) =>
      if content.Balance? || content.Cell? then Err(Unimplemented)
      else Ok(Insert(m, ContractKey(a), Entry(account.lamports, account.len, content)))
    case LegacyEther(_, _, _, _) => AddLegacyEther(ctx, m, a, account.body)
    case _ => Err(Unimplemented)
  }

  function LoadContractUnderCell(ctx: Ctx, m: Accounts, a: Address): Result<Accounts, Fault> {
    if ContractKey(a) in m then Ok(m)
    else match ctx.rpc(ContractKey(a))
      case None => Ok(AddEmpty(m, ContractKey(a)))
      case Some(account) => AddContractUnderCell(ctx, m, a, account)
  }

  /** `_get_contract_generation_limited`: the contract under a legacy cell, loaded if it was not. */
  function LoadGeneration(ctx: Ctx, m: Accounts, a: Address): Result<Generation, Fault> {
    var m1 :- LoadContractUnderCell(ctx, m, a);
    var value :- GenerationOf(At(m1, ContractKey(a)).content);
    Ok(Generation(m1, value))
  }

  /** `_add_legacy_storage`: the cells survive only under a contract with code and the same generation. */
  function AddLegacyCell(ctx: Ctx, m: Accounts, k: Key, body: Body): Result<Accounts, Fault>
    requires k.CellKey? && body.LegacyCell?
  {
    var g :- LoadGeneration(ctx, m, k.address);
    var m1 := AddEmpty(g.accounts, k);
    if g.value == Some(body.generation) then
      var cell :- CreateCell(ctx, At(m1, k), body.cells);
      Ok(Put(m1, k, cell))
    else Ok(m1)
  }

  /** `add_account`: what the node answered, by its tag. */
  function AddAccount(ctx: Ctx, m: Accounts, k: Key, account: RpcAccount): Result<Accounts, Fault> {
    match account.body
    case Current(content) => Ok(Insert(m, k, Entry(account.lamports, account.len, content)))
    case LegacyEther(w, g, c, s) =>
      if k.ContractKey? then AddLegacyEther(ctx, m, k.address, account.body) else Err(BadTag)
    case LegacyCell(g, cells) => if k.CellKey? then AddLegacyCell(ctx, m, k, account.body) else Err(BadTag)
    case TagEmpty => Ok(AddEmpty(m, k))
    case OtherTag => Err(Unimplemented)
  }

  function LoadPlain(ctx: Ctx, m: Accounts, k: Key): Result<Accounts, Fault> {
    if k in m then Ok(m)
    else match ctx.rpc(k)
      case Some(account) => AddAccount(ctx, m, k, account)
      case None => Ok(AddEmpty(m, k))
  }

  /** `get_balance_account`: on the default chain a missing balance may sit in a legacy account. */
  function LoadWallet(ctx: Ctx, m: Accounts, a: Address, chainId: u64): Result<Accounts, Fault> {
    var bk, ck := BalanceKey(a, chainId), ContractKey(a);
    if bk in m || ctx.rpc(bk).Some? || chainId != ctx.defaultChain then LoadPlain(ctx, m, bk)
    else if ck in m then Ok(AddEmpty(m, bk))
    else
      match ctx.rpc(ck)
      case Some(account) =>
        var m1 :- AddAccount(ctx, m, ck, account);
        Ok(AddEmpty(m1, bk))
      case None => Ok(AddEmpty(AddEmpty(m, ck), bk))
  }

  // ---- reading ----

  datatype Read = ReadWallet(address: Address, chainId: u64) | ReadContract(address: Address)
                | ReadCell(address: Address, cell: CellNumber)

  function KeyOf(read: Read): Key {
    match read
    case ReadWallet(a, c) => BalanceKey(a, c)
    case ReadContract(a) => ContractKey(a)
    case ReadCell(a, i) => CellKey(a, i)
  }

  function Load(ctx: Ctx, m: Accounts, read: Read): Result<Accounts, Fault> {
    match read
    case ReadWallet(a, c) => LoadWallet(ctx, m, a, c)
    case _ => LoadPlain(ctx, m, KeyOf(read))
  }

  /** The tag check each reader makes on a non-empty account. */
  predicate RightKind(k: Key, content: Content) {
    match k
    case BalanceKey(_, _) => content.Empty? || content.Balance?
    case ContractKey(_) => content.Empty? || content.Contract?
    case CellKey(_, _) => content.Empty? || content.Cell?
    case OtherKey(_) => true
  }

  datatype Answer = Answer(accounts: Accounts, content: Content)

  function WalletIn(content: Content): Wallet {
    if content.Balance? then content.wallet else NO_WALLET
  }

  function DynamicIn(content: Content, subindex: u8): Word {
    if content.Cell? then Lookup(content.cells, subindex) else 0
  }

  /** The 256 slots of a cell. */
  function CellTable(content: Content): (r: seq<SubCell>)
    ensures |r| == 256 && forall j :: 0 <= j < 256 ==> r[j] == SubCell(j, DynamicIn(content, j))
  {
    seq(256, j requires 0 <= j < 256 => SubCell(j, DynamicIn(content, j)))
  }

  /** What a reader sees: a missing balance account and one that holds nothing look the same, and so do cells with the
      same slots. */
  function Seen(k: Key, content: Content): Content {
    match k
    case BalanceKey(_, _) => Balance(WalletIn(content))
    case CellKey(_, _) => Cell(CellTable(content))
    case _ => content
  }

  /** A cell is seen by its slots. */
  lemma SeenCells(k: Key, x: Content, y: Content)
    requires k.CellKey?
    ensures Seen(k, x) == Seen(k, y) <==> forall j: u8 :: DynamicIn(x, j) == DynamicIn(y, j)
  {
    if Seen(k, x) == Seen(k, y) {
      forall j: u8 ensures DynamicIn(x, j) == DynamicIn(y, j) { assert CellTable(x)[j] == CellTable(y)[j]; }
    }
  }

  /** A read: load, then look at the account. */
  function Open(ctx: Ctx, m: Accounts, read: Read): Result<Answer, Fault> {
    var m1 :- Load(ctx, m, read);
    var content := At(m1, KeyOf(read)).content;
    :- Need(RightKind(KeyOf(read), content), BadTag);
    Ok(Answer(m1, content))
  }

  /** A read and what is seen: balance, nonce, code and slot reads are functions of it. */
  function Perform(ctx: Ctx, m: Accounts, read: Read): Result<Answer, Fault> {
    var r :- Open(ctx, m, read);
    Ok(r.(content := Seen(KeyOf(read), r.content)))
  }

  /** The values a sequence of reads returns, first to last. */
  function PerformAll(ctx: Ctx, m: Accounts, asked: seq<Read>): Result<seq<Content>, Fault>
    decreases |asked|
  {
    if asked == [] then Ok([])
    else
      var first :- Perform(ctx, m, asked[0]);
      var rest :- PerformAll(ctx, first.accounts, asked[1..]);
      Ok([first.content] + rest)
  }

  // ---- what a key holds before anything is loaded ----

  /** The node's answers have the kind their key calls for, wherever the emulator asks. */
  predicate KindOk(k: Key, answer: Option<RpcAccount>) {
    answer.Some? && !k.OtherKey? ==>
      match answer.value.body
      case Current(content) => RightKind(k, content)
      case LegacyEther(_, _, _, _) => k.ContractKey?
      case LegacyCell(_, _) => k.CellKey?
      case TagEmpty => true
      case OtherTag => false
  }

  ghost predicate WellKinded(ctx: Ctx) {
    forall k: Key :: KindOk(k, ctx.rpc(k))
  }

  function BodyAt(ctx: Ctx, k: Key): Body {
    if ctx.rpc(k).Some? then ctx.rpc(k).value.body else Current(Empty)
  }

  predicate IsLegacyEther(ctx: Ctx, a: Address) { BodyAt(ctx, ContractKey(a)).LegacyEther? }
  predicate IsLegacyCell(ctx: Ctx, k: Key) { BodyAt(ctx, k).LegacyCell? }

  function LegacyContract(ctx: Ctx, body: Body): Content
    requires body.LegacyEther?
  {
    if HasContract(body)
    then Contract(ctx.defaultChain, body.generation, body.code, MigratedStatics(body))
    else Empty
  }

  function BaseContract(ctx: Ctx, a: Address): Content {
    match BodyAt(ctx, ContractKey(a))
    case Current(content) => content
    case LegacyEther(_, _, _, _) => LegacyContract(ctx, BodyAt(ctx, ContractKey(a)))
    case _ => Empty
  }

  function BaseWallet(ctx: Ctx, a: Address, chainId: u64): Content {
    if ctx.rpc(BalanceKey(a, chainId)).Some? then
      match BodyAt(ctx, BalanceKey(a, chainId))
      case Current(content) => content
      case _ => Empty
    else if chainId == ctx.defaultChain && IsLegacyEther(ctx, a) && HasWallet(BodyAt(ctx, ContractKey(a))) then
      Balance(BodyAt(ctx, ContractKey(a)).wallet)
    else Empty
  }

  /** The generation a legacy cell must carry to be visible, if any would do. */
  function LiveGeneration(content: Content): Option<u32> {
    if content.Contract? && |content.code| > 0 then Some(content.generation) else None
  }

  function BaseCell(ctx: Ctx, a: Address, i: CellNumber): Content {
    match BodyAt(ctx, CellKey(a, i))
    case Current(content) => content
    case LegacyCell(g, cells) => if LiveGeneration(BaseContract(ctx, a)) == Some(g) then Cell(cells) else Empty
    case _ => Empty
  }

  /** The value of a key in a fresh storage, whichever way it is reached. */
  function BaseContent(ctx: Ctx, k: Key): Content {
    match k
    case BalanceKey(a, c) => BaseWallet(ctx, a, c)
    case ContractKey(a) => BaseContract(ctx, a)
    case CellKey(a, i) => BaseCell(ctx, a, i)
    case OtherKey(_) => Empty
  }

  // ---- when migration does not depend on the order of reads ----

  /** A legacy account and a current balance account at its default-chain address do not contradict each other. */
  predicate NoClashAt(ctx: Ctx, a: Address) {
    var bk := BalanceKey(a, ctx.defaultChain);
    IsLegacyEther(ctx, a) && ctx.rpc(bk).Some? ==>
      !HasWallet(BodyAt(ctx, ContractKey(a))) && WalletIn(BaseWallet(ctx, a, ctx.defaultChain)) == NO_WALLET
  }

  ghost predicate NoClash(ctx: Ctx) {
    forall a: Address :: NoClashAt(ctx, a)
  }

  /** No legacy cell hangs under a contract account that is allocated but has no tag. */
  predicate NoBareCellAt(ctx: Ctx, a: Address, i: CellNumber) {
    IsLegacyCell(ctx, CellKey(a, i)) ==>
      !BodyAt(ctx, ContractKey(a)).TagEmpty?
  }

  ghost predicate NoBareCell(ctx: Ctx) {
    forall a: Address, i: CellNumber :: NoBareCellAt(ctx, a, i)
  }

  // ---- what every load keeps ----

  /** A legacy account is loaded together with its default-chain balance, unless the node has one of its own. */
  predicate PairedAt(ctx: Ctx, m: Accounts, a: Address) {
    var bk, ck := BalanceKey(a, ctx.defaultChain), ContractKey(a);
    IsLegacyEther(ctx, a) ==> (ck in m ==> bk in m) && (bk in m && ck !in m ==> ctx.rpc(bk).Some?)
  }

  /** A loaded contract judges a legacy cell as the node's contract would. */
  predicate SameLiveness(ctx: Ctx, m: Accounts, k: Key)
    requires k.CellKey?
  {
    IsLegacyCell(ctx, k) && !Hollow(BodyAt(ctx, k).cells) && ContractKey(k.address) in m ==>
      var g := Some(BodyAt(ctx, k).generation);
      LiveGeneration(m[ContractKey(k.address)].content) == g <==> LiveGeneration(BaseContract(ctx, k.address)) == g
  }

  ghost predicate Sound(ctx: Ctx, m: Accounts) {
    && (forall k :: k in m ==> RightKind(k, m[k].content))
    && (forall a: Address :: PairedAt(ctx, m, a))
    && (forall k: Key :: k.CellKey? ==> SameLiveness(ctx, m, k))
  }

  /** Entries loaded before stay, and a new entry is seen as its key's base value. */
  ghost predicate Extends(ctx: Ctx, m: Accounts, m': Accounts) {
    && (forall k :: k in m ==> k in m' && m'[k] == m[k])
    && (forall k :: k in m' && k !in m ==> Seen(k, m'[k].content) == Seen(k, BaseContent(ctx, k))
                                           && RightKind(k, m'[k].content))
  }

  /** The node's answers under which nothing depends on the order of reads. */
  ghost predicate Ordered(ctx: Ctx) {
    WellKinded(ctx) && NoClash(ctx) && NoBareCell(ctx)
  }

  lemma ExtendsTrans(ctx: Ctx, m: Accounts, m1: Accounts, m2: Accounts)
    requires Extends(ctx, m, m1) && Extends(ctx, m1, m2)
    ensures Extends(ctx, m, m2)
  {}

  /** An extension that keeps legacy pairs together is as sound as what it extends. */
  lemma ExtendsSound(ctx: Ctx, m: Accounts, m': Accounts)
    requires Sound(ctx, m) && Extends(ctx, m, m') && forall a: Address :: PairedAt(ctx, m', a)
    ensures Sound(ctx, m')
  {
    forall k | k in m' ensures RightKind(k, m'[k].content) { if k in m { assert m'[k] == m[k]; } }
    forall k: Key | k.CellKey? ensures SameLiveness(ctx, m', k) { assert SameLiveness(ctx, m, k); }
  }

  lemma AddLegacyEtherAdds(ctx: Ctx, m: Accounts, a: Address)
    requires IsLegacyEther(ctx, a) && ContractKey(a) !in m
    requires NoClashAt(ctx, a) && PairedAt(ctx, m, a)
    requires KindOk(BalanceKey(a, ctx.defaultChain), ctx.rpc(BalanceKey(a, ctx.defaultChain)))
    ensures AddLegacyEther(ctx, m, a, BodyAt(ctx, ContractKey(a))).Ok?
    ensures var m' := AddLegacyEther(ctx, m, a, BodyAt(ctx, ContractKey(a))).value;
            Extends(ctx, m, m') && m'.Keys == m.Keys + {ContractKey(a), BalanceKey(a, ctx.defaultChain)}
            && m'[ContractKey(a)].content == BaseContract(ctx, a)
  {}

  lemma AddLegacyEtherExtends(ctx: Ctx, m: Accounts, a: Address)
    requires Ordered(ctx) && Sound(ctx, m) && IsLegacyEther(ctx, a) && ContractKey(a) !in m
    ensures AddLegacyEther(ctx, m, a, BodyAt(ctx, ContractKey(a))).Ok?
    ensures var m' := AddLegacyEther(ctx, m, a, BodyAt(ctx, ContractKey(a))).value;
            Extends(ctx, m, m') && Sound(ctx, m')
            && m'.Keys == m.Keys + {ContractKey(a), BalanceKey(a, ctx.defaultChain)}
            && m'[ContractKey(a)].content == BaseContract(ctx, a)
  {
    var bk := BalanceKey(a, ctx.defaultChain);
    assert NoClashAt(ctx, a) && PairedAt(ctx, m, a) && KindOk(bk, ctx.rpc(bk));
    AddLegacyEtherAdds(ctx, m, a);
    var m' := AddLegacyEther(ctx, m, a, BodyAt(ctx, ContractKey(a))).value;
    PairedAfter(ctx, m, m', a);
    ExtendsSound(ctx, m, m');
  }

  lemma PairedAfter(ctx: Ctx, m: Accounts, m': Accounts, a: Address)
    requires Sound(ctx, m) && m'.Keys == m.Keys + {ContractKey(a), BalanceKey(a, ctx.defaultChain)}
    ensures forall b: Address :: PairedAt(ctx, m', b)
  {
    forall b: Address ensures PairedAt(ctx, m', b) { assert PairedAt(ctx, m, b); }
  }

  /** Inserting a key's own base value, when the key is not a legacy contract or its default-chain balance. */
  lemma InsertExtends(ctx: Ctx, m: Accounts, k: Key, e: Entry)
    requires !k.OtherKey? && Sound(ctx, m)
    requires k !in m ==> RightKind(k, e.content) && Seen(k, e.content) == Seen(k, BaseContent(ctx, k))
    requires k !in m && IsLegacyEther(ctx, k.address) ==>
               && !k.ContractKey? && (k == BalanceKey(k.address, ctx.defaultChain) ==>
                    ctx.rpc(k).Some? || ContractKey(k.address) in m)
    ensures Extends(ctx, m, Insert(m, k, e)) && Sound(ctx, Insert(m, k, e)) && k in Insert(m, k, e)
  {
    var m' := Insert(m, k, e);
    assert Extends(ctx, m, m');
    forall b: Address ensures PairedAt(ctx, m', b) { assert PairedAt(ctx, m, b); }
    ExtendsSound(ctx, m, m');
  }

  lemma LoadGenerationExtends(ctx: Ctx, m: Accounts, k: Key)
    requires Ordered(ctx) && Sound(ctx, m) && k.CellKey? && IsLegacyCell(ctx, k)
    ensures LoadGeneration(ctx, m, k.address).Ok?
    ensures var g := LoadGeneration(ctx, m, k.address).value;
            && Extends(ctx, m, g.accounts) && Sound(ctx, g.accounts)
            && (k in g.accounts <==> k in m)
            && (!Hollow(BodyAt(ctx, k).cells) ==>
                  (g.value == Some(BodyAt(ctx, k).generation)
                   <==> LiveGeneration(BaseContract(ctx, k.address)) == Some(BodyAt(ctx, k).generation)))
  {
    var a := k.address;
    var ck := ContractKey(a);
    assert NoBareCellAt(ctx, a, k.cell) && KindOk(ck, ctx.rpc(ck)) && SameLiveness(ctx, m, k);
    if ck in m {
    } else if IsLegacyEther(ctx, a) {
      AddLegacyEtherExtends(ctx, m, a);
    } else if ctx.rpc(ck).Some? {
      InsertExtends(ctx, m, ck, Entry(ctx.rpc(ck).value.lamports, ctx.rpc(ck).value.len, BodyAt(ctx, ck).content));
    } else {
      InsertExtends(ctx, m, ck, NO_ENTRY);
    }
  }

  lemma AddLegacyCellExtends(ctx: Ctx, m: Accounts, k: Key)
    requires Ordered(ctx) && Sound(ctx, m) && k.CellKey? && IsLegacyCell(ctx, k) && k !in m
    ensures AddLegacyCell(ctx, m, k, BodyAt(ctx, k)).Ok?
    ensures var m' := AddLegacyCell(ctx, m, k, BodyAt(ctx, k)).value;
            Extends(ctx, m, m') && Sound(ctx, m') && k in m'
  {
    LoadGenerationExtends(ctx, m, k);
    var g := LoadGeneration(ctx, m, k.address).value;
    var m' := AddLegacyCell(ctx, m, k, BodyAt(ctx, k)).value;
    assert m' == Insert(g.accounts, k, m'[k]);
    InsertExtends(ctx, g.accounts, k, m'[k]);
    ExtendsTrans(ctx, m, g.accounts, m');
  }

  lemma LoadPlainExtends(ctx: Ctx, m: Accounts, k: Key)
    requires Ordered(ctx) && Sound(ctx, m) && !k.OtherKey?
    requires k == BalanceKey(k.address, ctx.defaultChain) ==> k in m || ctx.rpc(k).Some?
    ensures LoadPlain(ctx, m, k).Ok?
    ensures var m' := LoadPlain(ctx, m, k).value; Extends(ctx, m, m') && Sound(ctx, m') && k in m'
  {
    assert KindOk(k, ctx.rpc(k));
    if k !in m {
      match BodyAt(ctx, k) {
        case LegacyEther(_, _, _, _) => AddLegacyEtherExtends(ctx, m, k.address);
        case LegacyCell(_, _) => AddLegacyCellExtends(ctx, m, k);
        case Current(_) => InsertExtends(ctx, m, k, At(LoadPlain(ctx, m, k).value, k));
        case TagEmpty => InsertExtends(ctx, m, k, NO_ENTRY);
        case OtherTag =>
      }
    }
  }

  lemma LoadWalletExtends(ctx: Ctx, m: Accounts, a: Address, chainId: u64)
    requires Ordered(ctx) && Sound(ctx, m)
    ensures LoadWallet(ctx, m, a, chainId).Ok?
    ensures var m' := LoadWallet(ctx, m, a, chainId).value;
            Extends(ctx, m, m') && Sound(ctx, m') && BalanceKey(a, chainId) in m'
  {
    var bk, ck := BalanceKey(a, chainId), ContractKey(a);
    if bk in m || ctx.rpc(bk).Some? || chainId != ctx.defaultChain {
      LoadPlainExtends(ctx, m, bk);
    } else {
      assert PairedAt(ctx, m, a);
      LoadPlainExtends(ctx, m, ck);
      var m1 := LoadPlain(ctx, m, ck).value;
      assert PairedAt(ctx, m1, a);
      InsertExtends(ctx, m1, bk, NO_ENTRY);
      ExtendsTrans(ctx, m, m1, AddEmpty(m1, bk));
    }
  }

  /** Under ordered answers no load fails; every load adds base values and disturbs nothing. */
  lemma LoadExtends(ctx: Ctx, m: Accounts, read: Read)
    requires Ordered(ctx) && Sound(ctx, m)
    ensures Load(ctx, m, read).Ok?
    ensures var m' := Load(ctx, m, read).value; Extends(ctx, m, m') && Sound(ctx, m') && KeyOf(read) in m'
  {
    match read {
      case ReadWallet(a, c) => LoadWalletExtends(ctx, m, a, c);
      case _ => LoadPlainExtends(ctx, m, KeyOf(read));
    }
  }

  // ---- migration and the order of reads ----

  function BaseValue(ctx: Ctx, read: Read): Content {
    Seen(KeyOf(read), BaseContent(ctx, KeyOf(read)))
  }

  /** What the reads of a sequence give each on its own. */
  function BaseValues(ctx: Ctx, asked: seq<Read>): seq<Content> {
    if asked == [] then [] else [BaseValue(ctx, asked[0])] + BaseValues(ctx, asked[1..])
  }

  /** Everything loaded so far is seen as its base value. */
  ghost predicate Untouched(ctx: Ctx, m: Accounts) {
    forall k :: k in m ==> Seen(k, m[k].content) == Seen(k, BaseContent(ctx, k))
  }

  lemma ReadGivesBase(ctx: Ctx, m: Accounts, read: Read)
    requires Ordered(ctx) && Sound(ctx, m) && Untouched(ctx, m)
    ensures Perform(ctx, m, read).Ok?
    ensures var r := Perform(ctx, m, read).value;
            Sound(ctx, r.accounts) && Untouched(ctx, r.accounts)
            && r.content == BaseValue(ctx, read)
  {
    LoadExtends(ctx, m, read);
    var m1 := Load(ctx, m, read).value;
    assert RightKind(KeyOf(read), m1[KeyOf(read)].content);
  }

  lemma {:induction false} ReadsGiveBase(ctx: Ctx, m: Accounts, asked: seq<Read>)
    requires Ordered(ctx) && Sound(ctx, m) && Untouched(ctx, m)
    ensures PerformAll(ctx, m, asked) == Ok(BaseValues(ctx, asked))
    decreases |asked|
  {
    if asked != [] {
      ReadGivesBase(ctx, m, asked[0]);
      var first := Perform(ctx, m, asked[0]).value;
      ReadsGiveBase(ctx, first.accounts, asked[1..]);
    }
  }

  /** Every read succeeds, with the same value in whatever order and company it is made. */
  ghost predicate OrderIndependent(ctx: Ctx) {
    forall asked: seq<Read> :: PerformAll(ctx, map[], asked) == Ok(BaseValues(ctx, asked))
  }

  lemma SoundEmpty(ctx: Ctx)
    ensures Sound(ctx, map[])
  {}

  /** A legacy account whose default-chain balance address is in use: its wallet is read from the balance address before
      its code is, and from the legacy account after; and where the two are the same, the code cannot be read after the
      wallet. */
  lemma ClashShows(ctx: Ctx, a: Address)
    requires WellKinded(ctx) && !NoClashAt(ctx, a)
    ensures IsLegacyEther(ctx, a)
    ensures var w, c, body := ReadWallet(a, ctx.defaultChain), ReadContract(a), BodyAt(ctx, ContractKey(a));
            var before := WalletIn(BaseWallet(ctx, a, ctx.defaultChain));
            && Alone(ctx, w) == Ok(Balance(before))
            && PerformAll(ctx, map[], [c, w]) == Ok([LegacyContract(ctx, body), Balance(body.wallet)])
            && (body.wallet == before ==> PerformAll(ctx, map[], [w, c]) == Err(AlreadyInitialized))
  {
    var w, c := ReadWallet(a, ctx.defaultChain), ReadContract(a);
    var bk := BalanceKey(a, ctx.defaultChain);
    assert KindOk(bk, ctx.rpc(bk)) && KindOk(ContractKey(a), ctx.rpc(ContractKey(a)));
    TwoReads(ctx, c, w);
    TwoReads(ctx, w, c);
    var m1 := Load(ctx, map[], c).value;
    assert Load(ctx, map[], c) == AddLegacyEther(ctx, map[], a, BodyAt(ctx, ContractKey(a)));
    assert bk in m1;
  }

  /** What a read returns when it is the first. */
  function Alone(ctx: Ctx, read: Read): Result<Content, Fault> {
    var r :- Perform(ctx, map[], read);
    Ok(r.content)
  }

  lemma OneRead(ctx: Ctx, x: Read)
    ensures PerformAll(ctx, map[], [x]) == (var r := Alone(ctx, x); if r.Err? then Err(r.error) else Ok([r.value]))
    ensures BaseValues(ctx, [x]) == [BaseValue(ctx, x)]
  {
    assert [x][1..] == [];
    assert BaseValues(ctx, [x]) == [BaseValue(ctx, x)] + BaseValues(ctx, []);
    var first := Perform(ctx, map[], x);
    if first.Ok? {
      assert PerformAll(ctx, first.value.accounts, [x][1..]) == Ok([]);
      assert [first.value.content] + [] == [first.value.content];
    }
  }

  lemma TwoReads(ctx: Ctx, x: Read, y: Read)
    ensures PerformAll(ctx, map[], [x, y]) ==
            (var first := Perform(ctx, map[], x);
             if first.Err? then Err(first.error)
             else
               var second := Perform(ctx, first.value.accounts, y);
               if second.Err? then Err(second.error) else Ok([first.value.content, second.value.content]))
    ensures BaseValues(ctx, [x, y]) ==
            [BaseValue(ctx, x), BaseValue(ctx, y)]
  {
    assert [x, y][1..] == [y] && [y][1..] == [];
    assert BaseValues(ctx, [y]) == [BaseValue(ctx, y)] + BaseValues(ctx, []);
    assert BaseValues(ctx, [x, y]) == [BaseValue(ctx, x)] + BaseValues(ctx, [y]);
    var first := Perform(ctx, map[], x);
    if first.Ok? {
      var second := Perform(ctx, first.value.accounts, y);
      if second.Ok? {
        assert PerformAll(ctx, second.value.accounts, [y][1..]) == Ok([]);
        assert PerformAll(ctx, first.value.accounts, [y]) == Ok([second.value.content] + []);
        assert [second.value.content] + [] == [second.value.content];
        assert [first.value.content] + [second.value.content] == [first.value.content, second.value.content];
      } else {
        assert PerformAll(ctx, first.value.accounts, [y]) == Err(second.error);
      }
    }
  }

  /** A legacy cell under an allocated contract account without a tag stops the emulator when it is read first, and
      reads as empty after the contract. */
  lemma BareCellShows(ctx: Ctx, a: Address, i: CellNumber)
    requires WellKinded(ctx) && !NoBareCellAt(ctx, a, i)
    ensures Alone(ctx, ReadCell(a, i)) == Err(Unimplemented)
    ensures PerformAll(ctx, map[], [ReadContract(a), ReadCell(a, i)]) == Ok([Empty, Cell(CellTable(Empty))])
  {
    var k, ck := CellKey(a, i), ContractKey(a);
    TwoReads(ctx, ReadContract(a), ReadCell(a, i));
    assert LoadPlain(ctx, map[], ck) == Ok(map[ck := NO_ENTRY]);
    assert LoadGeneration(ctx, map[ck := NO_ENTRY], a) == Ok(Generation(map[ck := NO_ENTRY], None));
  }

  // ---- what a fresh storage reads, from the node's answers ----

  /** The wallet under a balance address, or with none there and on the default chain, the legacy account's. */
  lemma FreshWallet(ctx: Ctx, a: Address, chainId: u64)
    requires Ordered(ctx)
    ensures var own, under := ctx.rpc(BalanceKey(a, chainId)), ctx.rpc(ContractKey(a));
            Alone(ctx, ReadWallet(a, chainId)) == Ok(Balance(
              if own.Some? && own.value.body.Current? && own.value.body.content.Balance?
              then own.value.body.content.wallet
              else if own.None? && chainId == ctx.defaultChain && under.Some? && under.value.body.LegacyEther?
              then under.value.body.wallet
              else Wallet(0, 0)))
  {
    SoundEmpty(ctx);
    ReadGivesBase(ctx, map[], ReadWallet(a, chainId));
    var bk := BalanceKey(a, chainId);
    assert KindOk(bk, ctx.rpc(bk));
  }

  /** The contract as it is, or made of a legacy account with code or a generation: on the default chain, with that
      generation and code, and with the static slots only beside code. */
  lemma FreshContract(ctx: Ctx, a: Address)
    requires Ordered(ctx)
    ensures var r, under := Alone(ctx, ReadContract(a)), ctx.rpc(ContractKey(a));
            && r.Ok?
            && (under.None? || under.value.body.TagEmpty? ==> r.value == Empty)
            && (under.Some? && under.value.body.Current? ==> r.value == under.value.body.content)
            && (under.Some? && under.value.body.LegacyEther? ==>
                  var legacy, contract := under.value.body, r.value;
                  if legacy.code == [] && legacy.generation == 0 then contract == Empty
                  else
                    && contract.Contract? && contract.chainId == ctx.defaultChain
                    && contract.generation == legacy.generation && contract.code == legacy.code
                    && forall i :: 0 <= i < 64 ==>
                         contract.statics[i] == if legacy.code == [] then 0 else legacy.statics[i])
  {
    SoundEmpty(ctx);
    ReadGivesBase(ctx, map[], ReadContract(a));
  }

  /** The slots of a cell as they are, or those of a legacy cell exactly where the contract reads as one with code and
      the cell's generation. */
  lemma FreshCell(ctx: Ctx, a: Address, i: CellNumber, j: u8)
    requires Ordered(ctx)
    ensures Alone(ctx, ReadContract(a)).Ok? && Alone(ctx, ReadCell(a, i)).Ok?
    ensures var contract, answer := Alone(ctx, ReadContract(a)).value, ctx.rpc(CellKey(a, i));
            DynamicIn(Alone(ctx, ReadCell(a, i)).value, j) ==
              if answer.Some? && answer.value.body.Current? && answer.value.body.content.Cell?
              then Lookup(answer.value.body.content.cells, j)
              else if answer.Some? && answer.value.body.LegacyCell? && contract.Contract? && contract.code != []
                      && contract.generation == answer.value.body.generation
              then Lookup(answer.value.body.cells, j)
              else 0
  {
    SoundEmpty(ctx);
    ReadGivesBase(ctx, map[], ReadContract(a));
    ReadGivesBase(ctx, map[], ReadCell(a, i));
    CellAsTable(BaseCell(ctx, a, i), j);
  }

  lemma {:induction false} TableLookup(content: Content, n: nat, j: u8)
    requires n <= j
    ensures Lookup(CellTable(content)[n..], j) == DynamicIn(content, j)
    decreases 256 - n
  {
    var table := CellTable(content);
    assert table[n..][1..] == table[n + 1..] && table[n..][0] == table[n];
    if n < j { TableLookup(content, n + 1, j); }
  }

  /** Writing a cell out as a table keeps its slots. */
  lemma CellAsTable(content: Content, j: u8)
    ensures DynamicIn(Cell(CellTable(content)), j) == DynamicIn(content, j)
  {
    TableLookup(content, 0, j);
    assert CellTable(content)[0..] == CellTable(content);
  }

  /** The read that asks for a key. */
  function ReadOf(k: Key): (read: Read)
    requires !k.OtherKey?
    ensures KeyOf(read) == k
  {
    match k
    case BalanceKey(a, c) => ReadWallet(a, c)
    case ContractKey(a) => ReadContract(a)
    case CellKey(a, i) => ReadCell(a, i)
  }

  /** An answer of the wrong kind is refused. */
  lemma WrongKindShows(ctx: Ctx, k: Key)
    requires !KindOk(k, ctx.rpc(k))
    ensures Alone(ctx, ReadOf(k)).Err?
  {}

  /** For every node: exactly when every read succeeds with the same value in every order. */
  lemma OrderIndependence(ctx: Ctx)
    ensures OrderIndependent(ctx) <==> WellKinded(ctx) && NoClash(ctx) && NoBareCell(ctx)
  {
    if !WellKinded(ctx) {
      var k: Key :| !KindOk(k, ctx.rpc(k));
      WrongKindShows(ctx, k);
      OneRead(ctx, ReadOf(k));
    } else if NoClash(ctx) && NoBareCell(ctx) {
      SoundEmpty(ctx);
      forall asked: seq<Read> ensures PerformAll(ctx, map[], asked) == Ok(BaseValues(ctx, asked)) {
        ReadsGiveBase(ctx, map[], asked);
      }
    } else if !NoClash(ctx) {
      var a: Address :| !NoClashAt(ctx, a);
      var w, c := ReadWallet(a, ctx.defaultChain), ReadContract(a);
      ClashShows(ctx, a);
      TwoReads(ctx, c, w);
    } else {
      var a: Address, i: CellNumber :| !NoBareCellAt(ctx, a, i);
      BareCellShows(ctx, a, i);
      OneRead(ctx, ReadCell(a, i));
    }
  }
}

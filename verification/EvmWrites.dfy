/** The emulator's writes on its accounts, and the plain maps they stand for. */
module EvmWrites {
  import opened Base
  import opened EvmAccounts
  import opened EvmLoading

  /** A write leaves accounts behind whether it succeeds or not. */
  datatype Wrote = Wrote(accounts: Accounts, outcome: Outcome<Fault>)

  function TopUp(ctx: Ctx, e: Entry): Entry {
    if e.lamports < ctx.rent(e.len) then e.(lamports := ctx.rent(e.len)) else e
  }

  /** `get_or_create_ethereum_balance` on an account that was just loaded. */
  function OpenBalance(ctx: Ctx, e: Entry): Result<Entry, Fault> {
    match e.content
    case Empty => CreateBalance(ctx, e, NO_WALLET)
    case Balance(_) => Ok(e)
    case _ => Err(BadTag)
  }

  function WithWallet(ctx: Ctx, e: Entry, w: Wallet): Entry {
    TopUp(ctx, e.(content := Balance(w)))
  }

  /** A balance account loaded and opened. */
  function OpenWallet(ctx: Ctx, m: Accounts, a: Address, chainId: u64): Wrote {
    var k := BalanceKey(a, chainId);
    match LoadWallet(ctx, m, a, chainId)
    case Err(f) => Wrote(m, Fail(f))
    case Ok(m1) =>
      match OpenBalance(ctx, At(m1, k))
      case Err(f) => Wrote(m1, Fail(f))
      case Ok(e) => Wrote(Put(m1, k, e), Pass)
  }

  /** A change of one wallet: load, open, then either refuse or store. */
  function WriteWallet(ctx: Ctx, m: Accounts, a: Address, chainId: u64, change: Wallet -> Result<Wallet, Fault>)
    : Wrote
  {
    var k, open := BalanceKey(a, chainId), OpenWallet(ctx, m, a, chainId);
    if open.outcome.Fail? then open
    else
      var e := At(open.accounts, k);
      match change(WalletIn(e.content))
      case Err(f) => Wrote(open.accounts, Fail(f))
      case Ok(w) => Wrote(Put(open.accounts, k, WithWallet(ctx, e, w)), Pass)
  }

  function Minted(w: Wallet, value: Word): Result<Wallet, Fault> {
    if w.balance + value > WORD_MAX then Err(IntegerOverflow) else Ok(w.(balance := w.balance + value))
  }

  function Burned(w: Wallet, value: Word): Result<Wallet, Fault> {
    if w.balance < value then Err(InsufficientBalance) else Ok(w.(balance := w.balance - value))
  }

  function Bumped(w: Wallet): Result<Wallet, Fault> {
    if w.nonce + 1 > U64_MAX then Err(NonceOverflow) else Ok(w.(nonce := w.nonce + 1))
  }

  function Minting(value: Word): Wallet -> Result<Wallet, Fault> { w => Minted(w, value) }
  function Burning(value: Word): Wallet -> Result<Wallet, Fault> { w => Burned(w, value) }
  function Bumping(): Wallet -> Result<Wallet, Fault> { w => Bumped(w) }

  function Mint(ctx: Ctx, m: Accounts, a: Address, chainId: u64, value: Word): Wrote {
    WriteWallet(ctx, m, a, chainId, Minting(value))
  }

  function Burn(ctx: Ctx, m: Accounts, a: Address, chainId: u64, value: Word): Wrote {
    WriteWallet(ctx, m, a, chainId, Burning(value))
  }

  function IncrementNonce(ctx: Ctx, m: Accounts, a: Address, chainId: u64): Wrote {
    WriteWallet(ctx, m, a, chainId, Bumping())
  }

  /** Burn, then mint: a refused mint leaves the burn in place. */
  function Transfer(ctx: Ctx, m: Accounts, from: Address, to: Address, chainId: u64, value: Word): Wrote {
    var burned := Burn(ctx, m, from, chainId, value);
    if burned.outcome.Fail? then burned else Mint(ctx, burned.accounts, to, chainId, value)
  }

  /** `set_code`: a new contract, or code over a contract that has none, keeping its generation and static slots. */
  function SetCode(ctx: Ctx, m: Accounts, a: Address, chainId: u64, code: seq<u8>): Wrote {
    var k := ContractKey(a);
    match LoadPlain(ctx, m, k)
    case Err(f) => Wrote(m, Fail(f))
    case Ok(m1) => DeployOver(ctx, m1, k, chainId, code)
  }

  function DeployOver(ctx: Ctx, m: Accounts, k: Key, chainId: u64, code: seq<u8>): Wrote {
    var len := CONTRACT_LEN + |code|;
    match At(m, k).content
    case Empty => Wrote(Put(m, k, Entry(ctx.rent(len), len, Contract(chainId, 0, code, NoStatics()))), Pass)
    case Contract(_, generation, deployed, statics) =>
      if |deployed| > 0 then Wrote(m, Fail(AlreadyInitialized))
      else Wrote(Put(m, k, Entry(ctx.rent(len), len, Contract(chainId, generation, code, statics))), Pass)
    case _ => Wrote(m, Fail(BadTag))
  }

  /** `set_storage`: static slots live in the contract account, the others in cells. */
  function SetStorage(ctx: Ctx, m: Accounts, a: Address, index: Word, value: Word): Wrote {
    match SlotOf(index)
    case Static(i) =>
      (match LoadPlain(ctx, m, ContractKey(a))
       case Err(f) => Wrote(m, Fail(f))
       case Ok(m1) => StoreStatic(ctx, m1, ContractKey(a), i, value))
    case Dynamic(cell, subindex) =>
      match LoadPlain(ctx, m, CellKey(a, cell))
      case Err(f) => Wrote(m, Fail(f))
      case Ok(m1) => StoreDynamic(ctx, m1, CellKey(a, cell), subindex, value)
  }

  function StoreStatic(ctx: Ctx, m: Accounts, k: Key, i: nat, value: Word): Wrote {
    var e := At(m, k);
    if i >= STATIC_SLOTS then Wrote(m, Fail(Panic))
    else if e.content.Empty? then
      Wrote(Put(m, k, Entry(ctx.rent(CONTRACT_LEN), CONTRACT_LEN, Contract(0, 0, [], NoStatics()[i := value]))), Pass)
    else if e.content.Contract? then
      Wrote(Put(m, k, TopUp(ctx, e.(content := e.content.(statics := e.content.statics[i := value])))), Pass)
    else Wrote(m, Fail(BadTag))
  }

  function StoreDynamic(ctx: Ctx, m: Accounts, k: Key, subindex: u8, value: Word): Wrote {
    var e := At(m, k);
    if e.content.Empty? then
      if value == 0 then Wrote(m, Pass)
      else
        var len := CELL_LEN + SUBCELL_LEN;
        var created := Entry(ctx.rent(CELL_LEN), len, Cell([SubCell(subindex, value)]));
        Wrote(Put(m, k, TopUp(ctx, created)), Pass)
    else if e.content.Cell? then
      var cells := Updated(e.content.cells, subindex, value);
      var grown := e.len + SUBCELL_LEN * (|cells| - |e.content.cells|);
      Wrote(Put(m, k, TopUp(ctx, Entry(e.lamports, grown, Cell(cells)))), Pass)
    else Wrote(m, Fail(BadTag))
  }

  // ---- the plain maps ----

  datatype Deployed = Deployed(chainId: u64, code: seq<u8>)

  /** Balances and nonces, deployed contracts and slots: total maps, one value for every key. */
  datatype Plain = Plain(
    wallets: imap<(Address, u64), Wallet>,
    contracts: imap<Address, Option<Deployed>>,
    slots: imap<(Address, Slot), Word>)

  ghost predicate Total(p: Plain) {
    && (forall k: (Address, u64) :: k in p.wallets)
    && (forall a: Address :: a in p.contracts)
    && (forall k: (Address, Slot) :: k in p.slots)
  }

  function DeployedIn(content: Content): Option<Deployed> {
    if content.Contract? then Some(Deployed(content.chainId, content.code)) else None
  }

  function StaticIn(content: Content, i: nat): Word {
    if content.Contract? && i < STATIC_SLOTS then content.statics[i] else 0
  }

  /** The content a key would be read as. */
  function ContentAt(ctx: Ctx, m: Accounts, k: Key): Content {
    if k in m then m[k].content else BaseContent(ctx, k)
  }

  function WalletAt(ctx: Ctx, m: Accounts, a: Address, chainId: u64): Wallet {
    WalletIn(ContentAt(ctx, m, BalanceKey(a, chainId)))
  }

  function DeployedAt(ctx: Ctx, m: Accounts, a: Address): Option<Deployed> {
    DeployedIn(ContentAt(ctx, m, ContractKey(a)))
  }

  function SlotAt(ctx: Ctx, m: Accounts, a: Address, slot: Slot): Word {
    match slot
    case Static(i) => StaticIn(ContentAt(ctx, m, ContractKey(a)), i)
    case Dynamic(cell, subindex) => DynamicIn(ContentAt(ctx, m, CellKey(a, cell)), subindex)
  }

  /** The plain maps that accounts over a node's answers stand for. */
  ghost function View(ctx: Ctx, m: Accounts): (p: Plain)
    ensures Total(p)
  {
    Plain(imap k: (Address, u64) {:trigger WalletAt(ctx, m, k.0, k.1)} :: WalletAt(ctx, m, k.0, k.1),
          imap a: Address {:trigger DeployedAt(ctx, m, a)} :: DeployedAt(ctx, m, a),
          imap k: (Address, Slot) {:trigger SlotAt(ctx, m, k.0, k.1)} :: SlotAt(ctx, m, k.0, k.1))
  }

  datatype PlainWrote = PlainWrote(plain: Plain, outcome: Outcome<Fault>)

  ghost function PlainWallet(p: Plain, a: Address, chainId: u64, change: Wallet -> Result<Wallet, Fault>): PlainWrote
    requires Total(p)
  {
    match change(p.wallets[(a, chainId)])
    case Ok(w) => PlainWrote(p.(wallets := p.wallets[(a, chainId) := w]), Pass)
    case Err(f) => PlainWrote(p, Fail(f))
  }

  ghost function PlainTransfer(p: Plain, from: Address, to: Address, chainId: u64, value: Word): PlainWrote
    requires Total(p)
  {
    var burned := PlainWallet(p, from, chainId, Burning(value));
    if burned.outcome.Fail? then burned else PlainWallet(burned.plain, to, chainId, Minting(value))
  }

  ghost function PlainSetCode(p: Plain, a: Address, chainId: u64, code: seq<u8>): PlainWrote
    requires Total(p)
  {
    if p.contracts[a].Some? && |p.contracts[a].value.code| > 0 then PlainWrote(p, Fail(AlreadyInitialized))
    else PlainWrote(p.(contracts := p.contracts[a := Some(Deployed(chainId, code))]), Pass)
  }

  /** A static write to an address without a contract also makes one, on chain 0 and without code. */
  ghost function PlainSetStorage(p: Plain, a: Address, index: Word, value: Word): PlainWrote
    requires Total(p)
  {
    var slot := SlotOf(index);
    var stored := p.(slots := p.slots[(a, slot) := value]);
    PlainWrote(if slot.Static? && p.contracts[a].None? then
                 stored.(contracts := p.contracts[a := Some(Deployed(0, []))])
               else stored, Pass)
  }

  // ---- refinement ----

  /** The generation a deployment over this content would carry. */
  function StoredGeneration(content: Content): u32 {
    if content.Contract? then content.generation else 0
  }

  /** A deployment cannot bring a value of a legacy cell back to life: there is none, the contract already has code, or
      it carries another generation. */
  predicate SettledAt(ctx: Ctx, k: Key)
    requires k.CellKey?
  {
    IsLegacyCell(ctx, k) ==>
      || Hollow(BodyAt(ctx, k).cells)
      || LiveGeneration(BaseContract(ctx, k.address)).Some?
      || StoredGeneration(BaseContract(ctx, k.address)) != BodyAt(ctx, k).generation
  }

  /** The node's answers under which the emulator is a plain map. */
  ghost predicate Settled(ctx: Ctx) {
    Ordered(ctx) && forall k: Key :: k.CellKey? ==> SettledAt(ctx, k)
  }

  /** A loaded contract keeps its generation, and its code once it has some. */
  predicate AnchoredAt(ctx: Ctx, m: Accounts, a: Address) {
    ContractKey(a) in m ==>
      && StoredGeneration(m[ContractKey(a)].content) == StoredGeneration(BaseContract(ctx, a))
      && (LiveGeneration(BaseContract(ctx, a)).Some? ==> LiveGeneration(m[ContractKey(a)].content).Some?)
  }

  ghost predicate Good(ctx: Ctx, m: Accounts) {
    Sound(ctx, m) && forall a: Address :: AnchoredAt(ctx, m, a)
  }

  lemma ExtendsGood(ctx: Ctx, m: Accounts, m': Accounts)
    requires Good(ctx, m) && Extends(ctx, m, m') && Sound(ctx, m')
    ensures Good(ctx, m')
  {
    forall a: Address ensures AnchoredAt(ctx, m', a) { assert AnchoredAt(ctx, m, a); }
  }

  lemma ExtendsContent(ctx: Ctx, m: Accounts, m': Accounts, k: Key)
    requires Extends(ctx, m, m')
    ensures Seen(k, ContentAt(ctx, m', k)) == Seen(k, ContentAt(ctx, m, k))
  {}

  lemma ViewFrom(ctx: Ctx, m: Accounts, m': Accounts)
    requires forall a: Address, c: u64 :: WalletAt(ctx, m', a, c) == WalletAt(ctx, m, a, c)
    requires forall a: Address :: DeployedAt(ctx, m', a) == DeployedAt(ctx, m, a)
    requires forall a: Address, s: Slot :: SlotAt(ctx, m', a, s) == SlotAt(ctx, m, a, s)
    ensures View(ctx, m') == View(ctx, m)
  {
    assert View(ctx, m').wallets == View(ctx, m).wallets;
    assert View(ctx, m').contracts == View(ctx, m).contracts;
    assert View(ctx, m').slots == View(ctx, m).slots;
  }

  /** Loading changes no plain map. */
  lemma ExtendsView(ctx: Ctx, m: Accounts, m': Accounts)
    requires Extends(ctx, m, m')
    ensures View(ctx, m') == View(ctx, m)
  {
    forall a: Address, c: u64 ensures WalletAt(ctx, m', a, c) == WalletAt(ctx, m, a, c) {
      ExtendsContent(ctx, m, m', BalanceKey(a, c));
    }
    forall a: Address ensures DeployedAt(ctx, m', a) == DeployedAt(ctx, m, a) {
      ExtendsContent(ctx, m, m', ContractKey(a));
    }
    forall a: Address, s: Slot ensures SlotAt(ctx, m', a, s) == SlotAt(ctx, m, a, s) {
      ExtendsContent(ctx, m, m', ContractKey(a));
      if s.Dynamic? {
        var k := CellKey(a, s.cell);
        ExtendsContent(ctx, m, m', k);
        SeenCells(k, ContentAt(ctx, m', k), ContentAt(ctx, m, k));
      }
    }
    ViewFrom(ctx, m, m');
  }

  /** Replacing a balance account's content changes one wallet. */
  lemma PutWallet(ctx: Ctx, m: Accounts, a: Address, chainId: u64, e: Entry)
    requires Good(ctx, m) && BalanceKey(a, chainId) in m && RightKind(BalanceKey(a, chainId), e.content)
    ensures Good(ctx, Put(m, BalanceKey(a, chainId), e))
    ensures View(ctx, Put(m, BalanceKey(a, chainId), e)) ==
            View(ctx, m).(wallets := View(ctx, m).wallets[(a, chainId) := WalletIn(e.content)])
  {
    PutKeepsGood(ctx, m, BalanceKey(a, chainId), e);
    PutWalletView(ctx, m, a, chainId, e);
  }

  lemma PutWalletView(ctx: Ctx, m: Accounts, a: Address, chainId: u64, e: Entry)
    ensures View(ctx, Put(m, BalanceKey(a, chainId), e)) ==
            View(ctx, m).(wallets := View(ctx, m).wallets[(a, chainId) := WalletIn(e.content)])
  {
    var m' := Put(m, BalanceKey(a, chainId), e);
    forall b: Address, c: u64 ensures WalletAt(ctx, m', b, c) ==
      if (b, c) == (a, chainId) then WalletIn(e.content) else WalletAt(ctx, m, b, c) {}
    forall b: Address ensures DeployedAt(ctx, m', b) == DeployedAt(ctx, m, b) {}
    forall b: Address, s: Slot ensures SlotAt(ctx, m', b, s) == SlotAt(ctx, m, b, s) {}
    assert View(ctx, m').wallets == View(ctx, m).wallets[(a, chainId) := WalletIn(e.content)];
    assert View(ctx, m').contracts == View(ctx, m).contracts && View(ctx, m').slots == View(ctx, m).slots;
  }

  lemma PutKeepsGood(ctx: Ctx, m: Accounts, k: Key, e: Entry)
    requires Good(ctx, m) && k in m && RightKind(k, e.content) && !k.ContractKey?
    ensures Good(ctx, Put(m, k, e))
  {
    PutSound(ctx, m, k, e);
    forall b: Address ensures AnchoredAt(ctx, Put(m, k, e), b) { assert AnchoredAt(ctx, m, b); }
  }

  lemma PutSound(ctx: Ctx, m: Accounts, k: Key, e: Entry)
    requires Sound(ctx, m) && k in m && RightKind(k, e.content)
    requires k.ContractKey? ==>
      forall i: CellNumber :: SameLiveness(ctx, Put(m, k, e), CellKey(k.address, i))
    ensures Sound(ctx, Put(m, k, e))
  {
    var m' := Put(m, k, e);
    forall b: Address ensures PairedAt(ctx, m', b) { assert PairedAt(ctx, m, b); }
    forall j: Key | j.CellKey? ensures SameLiveness(ctx, m', j) {
      assert SameLiveness(ctx, m, j);
      if k == ContractKey(j.address) { assert SameLiveness(ctx, m', CellKey(k.address, j.cell)); }
    }
  }

  /** Replacing a cell's content changes the slots of that cell only. */
  lemma PutCell(ctx: Ctx, m: Accounts, a: Address, cell: CellNumber, e: Entry, subindex: u8, value: Word)
    requires CellKey(a, cell) in m && e.content.Cell?
    requires forall j: u8 :: DynamicIn(e.content, j) ==
               if j == subindex then value else DynamicIn(m[CellKey(a, cell)].content, j)
    ensures View(ctx, Put(m, CellKey(a, cell), e)) ==
            View(ctx, m).(slots := View(ctx, m).slots[(a, Dynamic(cell, subindex)) := value])
  {
    var m' := Put(m, CellKey(a, cell), e);
    forall b: Address, c: u64 ensures WalletAt(ctx, m', b, c) == WalletAt(ctx, m, b, c) {}
    forall b: Address ensures DeployedAt(ctx, m', b) == DeployedAt(ctx, m, b) {}
    forall b: Address, s: Slot ensures SlotAt(ctx, m', b, s) ==
      if (b, s) == (a, Dynamic(cell, subindex)) then value else SlotAt(ctx, m, b, s) {}
    assert View(ctx, m').slots == View(ctx, m).slots[(a, Dynamic(cell, subindex)) := value];
    assert View(ctx, m').contracts == View(ctx, m).contracts && View(ctx, m').wallets == View(ctx, m).wallets;
  }

  /** A contract account may change its chain, its static slots, and go from no code to some. */
  lemma PutContract(ctx: Ctx, m: Accounts, a: Address, e: Entry)
    requires Settled(ctx) && Good(ctx, m) && ContractKey(a) in m && e.content.Contract?
    requires StoredGeneration(e.content) == StoredGeneration(m[ContractKey(a)].content)
    requires LiveGeneration(m[ContractKey(a)].content).Some? ==> LiveGeneration(e.content).Some?
    ensures Good(ctx, Put(m, ContractKey(a), e))
  {
    var k := ContractKey(a);
    var m' := Put(m, k, e);
    assert AnchoredAt(ctx, m, a);
    forall i: CellNumber ensures SameLiveness(ctx, m', CellKey(a, i)) {
      assert SettledAt(ctx, CellKey(a, i));
    }
    PutSound(ctx, m, k, e);
    forall b: Address ensures AnchoredAt(ctx, m', b) { assert AnchoredAt(ctx, m, b); }
  }

  /** What the plain maps show of a new contract content. */
  lemma PutContractView(ctx: Ctx, m: Accounts, a: Address, e: Entry, i: nat, value: Word)
    requires ContractKey(a) in m && e.content.Contract? && i < STATIC_SLOTS
    requires forall j: nat :: StaticIn(e.content, j) ==
               if j == i then value else StaticIn(m[ContractKey(a)].content, j)
    ensures View(ctx, Put(m, ContractKey(a), e)) ==
            View(ctx, m).(contracts := View(ctx, m).contracts[a := DeployedIn(e.content)],
                          slots := View(ctx, m).slots[(a, Static(i)) := value])
  {
    var m' := Put(m, ContractKey(a), e);
    forall b: Address, c: u64 ensures WalletAt(ctx, m', b, c) == WalletAt(ctx, m, b, c) {}
    forall b: Address ensures DeployedAt(ctx, m', b) ==
      if b == a then DeployedIn(e.content) else DeployedAt(ctx, m, b) {}
    forall b: Address, s: Slot ensures SlotAt(ctx, m', b, s) ==
      if (b, s) == (a, Static(i)) then value else SlotAt(ctx, m, b, s) {}
    assert View(ctx, m').wallets == View(ctx, m).wallets;
    assert View(ctx, m').contracts == View(ctx, m).contracts[a := DeployedIn(e.content)];
    assert View(ctx, m').slots == View(ctx, m).slots[(a, Static(i)) := value];
  }

  // ---- each write is the plain write ----

  lemma WriteWalletRefines(ctx: Ctx, m: Accounts, a: Address, chainId: u64, change: Wallet -> Result<Wallet, Fault>)
    requires Settled(ctx) && Good(ctx, m)
    ensures var wrote, plain := WriteWallet(ctx, m, a, chainId, change), PlainWallet(View(ctx, m), a, chainId, change);
            Good(ctx, wrote.accounts) && View(ctx, wrote.accounts) == plain.plain && wrote.outcome == plain.outcome
  {
    OpenWalletRefines(ctx, m, a, chainId);
    var m1 := OpenWallet(ctx, m, a, chainId).accounts;
    var e := m1[BalanceKey(a, chainId)];
    var w := change(e.content.wallet);
    assert View(ctx, m1).wallets[(a, chainId)] == WalletAt(ctx, m1, a, chainId);
    if w.Ok? { PutWallet(ctx, m1, a, chainId, WithWallet(ctx, e, w.value)); }
  }

  /** Opening a balance account shows what was there. */
  lemma OpenWalletRefines(ctx: Ctx, m: Accounts, a: Address, chainId: u64)
    requires Settled(ctx) && Good(ctx, m)
    ensures var open := OpenWallet(ctx, m, a, chainId);
            && open.outcome.Pass? && Good(ctx, open.accounts) && View(ctx, open.accounts) == View(ctx, m)
            && BalanceKey(a, chainId) in open.accounts && open.accounts[BalanceKey(a, chainId)].content.Balance?
  {
    LoadWalletExtends(ctx, m, a, chainId);
    var k := BalanceKey(a, chainId);
    var m1 := LoadWallet(ctx, m, a, chainId).value;
    ExtendsGood(ctx, m, m1);
    ExtendsView(ctx, m, m1);
    assert RightKind(k, m1[k].content);
    var e := OpenBalance(ctx, m1[k]).value;
    PutWallet(ctx, m1, a, chainId, e);
    assert View(ctx, m1).wallets[(a, chainId)] == WalletAt(ctx, m1, a, chainId) == WalletIn(e.content);
    assert View(ctx, m1).wallets[(a, chainId) := WalletIn(e.content)] == View(ctx, m1).wallets;
  }

  lemma TransferRefines(ctx: Ctx, m: Accounts, from: Address, to: Address, chainId: u64, value: Word)
    requires Settled(ctx) && Good(ctx, m)
    ensures var wrote, plain := Transfer(ctx, m, from, to, chainId, value),
                                PlainTransfer(View(ctx, m), from, to, chainId, value);
            Good(ctx, wrote.accounts) && View(ctx, wrote.accounts) == plain.plain && wrote.outcome == plain.outcome
  {
    WriteWalletRefines(ctx, m, from, chainId, Burning(value));
    var burned := Burn(ctx, m, from, chainId, value);
    WriteWalletRefines(ctx, burned.accounts, to, chainId, Minting(value));
  }

  lemma LoadContractGood(ctx: Ctx, m: Accounts, k: Key)
    requires Settled(ctx) && Good(ctx, m) && (k.ContractKey? || k.CellKey?)
    ensures LoadPlain(ctx, m, k).Ok?
    ensures var m1 := LoadPlain(ctx, m, k).value;
            Good(ctx, m1) && View(ctx, m1) == View(ctx, m) && k in m1 && RightKind(k, m1[k].content)
  {
    LoadPlainExtends(ctx, m, k);
    ExtendsGood(ctx, m, LoadPlain(ctx, m, k).value);
    ExtendsView(ctx, m, LoadPlain(ctx, m, k).value);
  }

  lemma SetCodeRefines(ctx: Ctx, m: Accounts, a: Address, chainId: u64, code: seq<u8>)
    requires Settled(ctx) && Good(ctx, m)
    ensures var wrote, plain := SetCode(ctx, m, a, chainId, code), PlainSetCode(View(ctx, m), a, chainId, code);
            Good(ctx, wrote.accounts) && View(ctx, wrote.accounts) == plain.plain && wrote.outcome == plain.outcome
  {
    var k := ContractKey(a);
    LoadContractGood(ctx, m, k);
    var m1 := LoadPlain(ctx, m, k).value;
    assert View(ctx, m1).contracts[a] == DeployedAt(ctx, m1, a);
    var wrote := DeployOver(ctx, m1, k, chainId, code);
    if wrote.outcome.Pass? {
      PutContract(ctx, m1, a, wrote.accounts[k]);
      var first := StaticIn(m1[k].content, 0);
      PutContractView(ctx, m1, a, wrote.accounts[k], 0, first);
      assert View(ctx, m1).slots[(a, Static(0))] == SlotAt(ctx, m1, a, Static(0)) == first;
      assert View(ctx, m1).slots[(a, Static(0)) := first] == View(ctx, m1).slots;
    }
  }

  lemma SetStaticRefines(ctx: Ctx, m: Accounts, a: Address, index: Word, value: Word)
    requires Settled(ctx) && Good(ctx, m) && index < STATIC_SLOTS
    ensures var wrote, plain := SetStorage(ctx, m, a, index, value), PlainSetStorage(View(ctx, m), a, index, value);
            Good(ctx, wrote.accounts) && View(ctx, wrote.accounts) == plain.plain && wrote.outcome == plain.outcome
  {
    var k := ContractKey(a);
    LoadContractGood(ctx, m, k);
    var m1 := LoadPlain(ctx, m, k).value;
    assert View(ctx, m1).contracts[a] == DeployedAt(ctx, m1, a);
    var wrote := StoreStatic(ctx, m1, k, index, value);
    PutContract(ctx, m1, a, wrote.accounts[k]);
    PutContractView(ctx, m1, a, wrote.accounts[k], index, value);
    if m1[k].content.Contract? {
      assert DeployedIn(wrote.accounts[k].content) == DeployedIn(m1[k].content);
      assert View(ctx, m1).contracts[a := DeployedIn(m1[k].content)] == View(ctx, m1).contracts;
    }
  }

  lemma SetDynamicRefines(ctx: Ctx, m: Accounts, a: Address, index: Word, value: Word)
    requires Settled(ctx) && Good(ctx, m) && index >= STATIC_SLOTS
    ensures var wrote, plain := SetStorage(ctx, m, a, index, value), PlainSetStorage(View(ctx, m), a, index, value);
            Good(ctx, wrote.accounts) && View(ctx, wrote.accounts) == plain.plain && wrote.outcome == plain.outcome
  {
    var slot := SlotOf(index);
    var k := CellKey(a, slot.cell);
    LoadContractGood(ctx, m, k);
    var m1 := LoadPlain(ctx, m, k).value;
    var content := m1[k].content;
    var wrote := StoreDynamic(ctx, m1, k, slot.subindex, value);
    if content.Empty? && value == 0 {
      assert View(ctx, m1).slots[(a, slot)] == SlotAt(ctx, m1, a, slot) == 0;
      assert View(ctx, m1).slots[(a, slot) := 0] == View(ctx, m1).slots;
    } else {
      forall j: u8 ensures DynamicIn(wrote.accounts[k].content, j) ==
        if j == slot.subindex then value else DynamicIn(content, j)
      {
        UpdatedLookup(if content.Cell? then content.cells else [], slot.subindex, value, j);
      }
      PutKeepsGood(ctx, m1, k, wrote.accounts[k]);
      PutCell(ctx, m1, a, slot.cell, wrote.accounts[k], slot.subindex, value);
    }
  }

  lemma SetStorageRefines(ctx: Ctx, m: Accounts, a: Address, index: Word, value: Word)
    requires Settled(ctx) && Good(ctx, m)
    ensures var wrote, plain := SetStorage(ctx, m, a, index, value), PlainSetStorage(View(ctx, m), a, index, value);
            Good(ctx, wrote.accounts) && View(ctx, wrote.accounts) == plain.plain && wrote.outcome == plain.outcome
  {
    if index < STATIC_SLOTS {
      SetStaticRefines(ctx, m, a, index, value);
    } else {
      SetDynamicRefines(ctx, m, a, index, value);
    }
  }

  /** The account a slot is kept in. */
  function SlotKey(a: Address, slot: Slot): Key {
    match slot
    case Static(_) => ContractKey(a)
    case Dynamic(cell, _) => CellKey(a, cell)
  }

  /** A store that leaves the accounts as loading them did stored what was there. */
  lemma NothingStored(ctx: Ctx, m: Accounts, a: Address, index: Word, value: Word)
    requires Settled(ctx) && Good(ctx, m)
    requires LoadPlain(ctx, m, SlotKey(a, SlotOf(index))) == Ok(SetStorage(ctx, m, a, index, value).accounts)
    ensures View(ctx, m).slots[(a, SlotOf(index))] == value
  {
    SetStorageRefines(ctx, m, a, index, value);
    LoadContractGood(ctx, m, SlotKey(a, SlotOf(index)));
    assert PlainSetStorage(View(ctx, m), a, index, value).plain.slots[(a, SlotOf(index))] == value;
  }

  // ---- rent ----

  /** The bytes a content takes. */
  function SizeOf(content: Content): nat {
    match content
    case Balance(_) => 106
    case Contract(_, _, code, _) => 2094 + |code|
    case Cell(cells) => 6 + 33 * |cells|
    case _ => 0
  }

  /** The account has the size of its content and lamports enough to stay. */
  predicate Exempt(ctx: Ctx, e: Entry) {
    e.len == SizeOf(e.content) && e.lamports >= ctx.rent(e.len)
  }

  /** An account that is as long as its content, unless it is empty. */
  predicate Fitting(m: Accounts, k: Key) {
    k in m && !m[k].content.Empty? ==> m[k].len == SizeOf(m[k].content)
  }

  /** Whatever the node answered and whatever was loaded before: a wallet that was written is exempt from rent. */
  lemma WalletExempt(ctx: Ctx, m: Accounts, a: Address, chainId: u64, change: Wallet -> Result<Wallet, Fault>)
    requires var loaded := LoadWallet(ctx, m, a, chainId); loaded.Ok? ==> Fitting(loaded.value, BalanceKey(a, chainId))
    ensures var wrote := WriteWallet(ctx, m, a, chainId, change);
            wrote.outcome.Pass? ==>
              BalanceKey(a, chainId) in wrote.accounts && Exempt(ctx, wrote.accounts[BalanceKey(a, chainId)])
  {}

  /** So is a contract that was deployed, and one whose static slot or a cell whose slot was stored. */
  lemma CodeExempt(ctx: Ctx, m: Accounts, a: Address, chainId: u64, code: seq<u8>)
    ensures var wrote := SetCode(ctx, m, a, chainId, code);
            wrote.outcome.Pass? ==> ContractKey(a) in wrote.accounts && Exempt(ctx, wrote.accounts[ContractKey(a)])
  {}

  lemma StoreExempt(ctx: Ctx, m: Accounts, a: Address, index: Word, value: Word)
    requires var loaded := LoadPlain(ctx, m, SlotKey(a, SlotOf(index)));
             loaded.Ok? ==> Fitting(loaded.value, SlotKey(a, SlotOf(index)))
    ensures var wrote, k := SetStorage(ctx, m, a, index, value), SlotKey(a, SlotOf(index));
            wrote.outcome.Pass? && !At(wrote.accounts, k).content.Empty? ==> Exempt(ctx, wrote.accounts[k])
  {}

  /** What a conversion makes or fills holds exactly the lamports that exempt it. */
  lemma ConvertedExempt(ctx: Ctx, m: Accounts, a: Address, body: Body)
    requires body.LegacyEther? && AddLegacyEther(ctx, m, a, body).Ok?
    ensures var m' := AddLegacyEther(ctx, m, a, body).value;
            forall k :: k in m' && (k !in m || m'[k] != m[k]) ==>
              m'[k] == NO_ENTRY || (Exempt(ctx, m'[k]) && m'[k].lamports == ctx.rent(m'[k].len))
  {}

  lemma ConvertedCellExempt(ctx: Ctx, m: Accounts, k: Key, body: Body)
    requires k.CellKey? && body.LegacyCell? && AddLegacyCell(ctx, m, k, body).Ok?
    ensures var m' := AddLegacyCell(ctx, m, k, body).value;
            k in m' && (k !in m || m'[k] != m[k]) ==>
              m'[k] == NO_ENTRY || (Exempt(ctx, m'[k]) && m'[k].lamports == ctx.rent(m'[k].len))
  {}

  /** Without the settled condition the plain map is lost: some slot of a legacy cell is zero when it is read before the
      deployment and shows its old value when it is read after it. */
  lemma UnsettledResurfaces(ctx: Ctx, k: Key, chainId: u64, code: seq<u8>)
    requires Ordered(ctx) && k.CellKey? && !SettledAt(ctx, k) && |code| > 0
    ensures BaseContent(ctx, k) == Empty && IsLegacyCell(ctx, k)
    ensures exists j: u8 :: Lookup(BodyAt(ctx, k).cells, j) != 0
    ensures var deployed := SetCode(ctx, map[], k.address, chainId, code);
            && deployed.outcome.Pass?
            && var loaded := LoadPlain(ctx, deployed.accounts, k);
               loaded.Ok? && k in loaded.value && loaded.value[k].content == Cell(BodyAt(ctx, k).cells)
  {
    SoundEmpty(ctx);
    var ck := ContractKey(k.address);
    LoadPlainExtends(ctx, map[], ck);
    var m1 := LoadPlain(ctx, map[], ck).value;
    assert Seen(ck, m1[ck].content) == Seen(ck, BaseContract(ctx, k.address));
    var deployed := DeployOver(ctx, m1, ck, chainId, code).accounts;
    assert k !in m1;
    assert LoadGeneration(ctx, deployed, k.address) == Ok(Generation(deployed, Some(BodyAt(ctx, k).generation)));
  }
}

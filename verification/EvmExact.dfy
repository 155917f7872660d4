/** Exactly when the emulator is a plain map: a condition on the node's answers that is enough for every run of reads
    and writes, and without which some run of one or two operations shows something else. */
module EvmExact {
  import opened Base
  import opened EvmAccounts
  import opened EvmLoading
  import opened EvmWrites
  import opened EvmStorage

  /** What one read or write leaves and answers. */
  datatype Did = Did(accounts: Accounts, answer: Result<Reply, Fault>)

  function DidWrite(w: Wrote): Did {
    Did(w.accounts, Replied(w.outcome))
  }

  function DidRead(m: Accounts, got: Result<Answer, Fault>, reply: Content -> Reply): Did {
    match got
    case Ok(r) => Did(r.accounts, Ok(reply(r.content)))
    case Err(f) => Did(m, Err(f))
  }

  /** The account a slot is read from, and the value in it. */
  function SlotRead(a: Address, slot: Slot): Read {
    match slot
    case Static(_) => ReadContract(a)
    case Dynamic(cell, _) => ReadCell(a, cell)
  }

  function WordIn(slot: Slot, content: Content): Word {
    match slot
    case Static(i) => StaticIn(content, i)
    case Dynamic(_, subindex) => DynamicIn(content, subindex)
  }

  predicate IsAccess(op: Op) { op.IsRead() || op.IsWrite() }

  /** A read or a write on the emulator's accounts: load by load, as the emulator performs it. */
  function Do(ctx: Ctx, m: Accounts, op: Op): Did
    requires IsAccess(op)
  {
    match op
    case OpWallet(a, chainId) => DidRead(m, Open(ctx, m, ReadWallet(a, chainId)), c => GotWallet(WalletIn(c)))
    case OpContract(a) => DidRead(m, Open(ctx, m, ReadContract(a)), c => GotContract(DeployedIn(c)))
    case OpSlot(a, index) =>
      var slot := SlotOf(index);
      DidRead(m, Open(ctx, m, SlotRead(a, slot)), c => GotWord(WordIn(slot, c)))
    case OpSetStorage(a, index, value) => DidWrite(SetStorage(ctx, m, a, index, value))
    case OpSetCode(a, chainId, code) => DidWrite(SetCode(ctx, m, a, chainId, code))
    case OpIncrementNonce(a, chainId) => DidWrite(IncrementNonce(ctx, m, a, chainId))
    case OpTransfer(from, to, chainId, amount) => DidWrite(Transfer(ctx, m, from, to, chainId, amount))
  }

  predicate AllAccess(ops: seq<Op>) {
    forall i :: 0 <= i < |ops| ==> IsAccess(ops[i])
  }

  datatype DidAll = DidAll(accounts: Accounts, answers: seq<Result<Reply, Fault>>)

  /** A run of reads and writes from an emulator that has loaded nothing. */
  function DoAll(ctx: Ctx, ops: seq<Op>): DidAll
    requires AllAccess(ops)
  {
    if ops == [] then DidAll(map[], [])
    else
      var before := DoAll(ctx, ops[..|ops| - 1]);
      var last := Do(ctx, before.accounts, ops[|ops| - 1]);
      DidAll(last.accounts, before.answers + [last.answer])
  }

  /** The plain machine that accounts without copies and logs stand for. */
  ghost function MachineOf(ctx: Ctx, m: Accounts): (s: Machine)
    ensures TotalMachine(s)
  {
    Machine(Frame(View(ctx, m), []), [])
  }

  /** Every run of reads and writes answers as the plain maps do. */
  ghost predicate IsPlain(ctx: Ctx) {
    forall ops: seq<Op> :: AllAccess(ops) ==> DoAll(ctx, ops).answers == RunAll(MachineOf(ctx, map[]), ops).answers
  }

  // ---- settled answers are enough ----

  lemma OpenRefines(ctx: Ctx, m: Accounts, read: Read)
    requires Settled(ctx) && Good(ctx, m)
    ensures Open(ctx, m, read).Ok?
    ensures var r := Open(ctx, m, read).value;
            && Good(ctx, r.accounts) && View(ctx, r.accounts) == View(ctx, m)
            && r.content == ContentAt(ctx, r.accounts, KeyOf(read))
  {
    LoadExtends(ctx, m, read);
    var m1 := Load(ctx, m, read).value;
    assert RightKind(KeyOf(read), m1[KeyOf(read)].content);
    ExtendsGood(ctx, m, m1);
    ExtendsView(ctx, m, m1);
  }

  lemma ReadRefines(ctx: Ctx, m: Accounts, op: Op)
    requires Settled(ctx) && Good(ctx, m) && op.IsRead()
    ensures var d := Do(ctx, m, op);
            Good(ctx, d.accounts) && Step(MachineOf(ctx, m), op) == Stepped(MachineOf(ctx, d.accounts), d.answer)
  {
    var read := match op
      case OpWallet(a, chainId) => ReadWallet(a, chainId)
      case OpContract(a) => ReadContract(a)
      case OpSlot(a, index) => SlotRead(a, SlotOf(index));
    OpenRefines(ctx, m, read);
    var m1 := Open(ctx, m, read).value.accounts;
    match op {
      case OpWallet(a, chainId) => assert View(ctx, m1).wallets[(a, chainId)] == WalletAt(ctx, m1, a, chainId);
      case OpContract(a) => assert View(ctx, m1).contracts[a] == DeployedAt(ctx, m1, a);
      case OpSlot(a, index) => assert View(ctx, m1).slots[(a, SlotOf(index))] == SlotAt(ctx, m1, a, SlotOf(index));
    }
  }

  lemma ContractWriteRefines(ctx: Ctx, m: Accounts, op: Op)
    requires Settled(ctx) && Good(ctx, m) && (op.OpSetStorage? || op.OpSetCode?)
    ensures var d := Do(ctx, m, op);
            Good(ctx, d.accounts) && Step(MachineOf(ctx, m), op) == Stepped(MachineOf(ctx, d.accounts), d.answer)
  {
    match op {
      case OpSetStorage(a, index, value) => SetStorageRefines(ctx, m, a, index, value);
      case OpSetCode(a, chainId, code) => SetCodeRefines(ctx, m, a, chainId, code);
    }
  }

  lemma WalletWriteRefines(ctx: Ctx, m: Accounts, op: Op)
    requires Settled(ctx) && Good(ctx, m) && (op.OpIncrementNonce? || op.OpTransfer?)
    ensures var d := Do(ctx, m, op);
            Good(ctx, d.accounts) && Step(MachineOf(ctx, m), op) == Stepped(MachineOf(ctx, d.accounts), d.answer)
  {
    match op {
      case OpIncrementNonce(a, chainId) => WriteWalletRefines(ctx, m, a, chainId, Bumping());
      case OpTransfer(from, to, chainId, amount) => TransferRefines(ctx, m, from, to, chainId, amount);
    }
  }

  lemma {:induction false} RunRefines(ctx: Ctx, ops: seq<Op>)
    requires Settled(ctx) && AllAccess(ops)
    ensures var d := DoAll(ctx, ops);
            Good(ctx, d.accounts) && RunAll(MachineOf(ctx, map[]), ops) == Ran(MachineOf(ctx, d.accounts), d.answers)
  {
    if ops == [] {
      SoundEmpty(ctx);
    } else {
      var front, op := ops[..|ops| - 1], ops[|ops| - 1];
      RunRefines(ctx, front);
      var m := DoAll(ctx, front).accounts;
      assert IsAccess(op);
      if op.IsRead() { ReadRefines(ctx, m, op); }
      else if op.OpSetStorage? || op.OpSetCode? { ContractWriteRefines(ctx, m, op); }
      else { WalletWriteRefines(ctx, m, op); }
    }
  }

  // ---- and each part of the condition is needed ----

  lemma OneOp(ctx: Ctx, op: Op)
    requires IsAccess(op)
    ensures DoAll(ctx, [op]).answers == [Do(ctx, map[], op).answer]
    ensures RunAll(MachineOf(ctx, map[]), [op]).answers == [Step(MachineOf(ctx, map[]), op).answer]
  {
    assert [op][..0] == [];
    assert DoAll(ctx, []) == DidAll(map[], []);
    assert RunAll(MachineOf(ctx, map[]), []) == Ran(MachineOf(ctx, map[]), []);
  }

  lemma TwoOps(ctx: Ctx, x: Op, y: Op)
    requires IsAccess(x) && IsAccess(y)
    ensures DoAll(ctx, [x, y]).answers == [Do(ctx, map[], x).answer, Do(ctx, Do(ctx, map[], x).accounts, y).answer]
    ensures TotalMachine(Step(MachineOf(ctx, map[]), x).machine)
    ensures var s := Step(MachineOf(ctx, map[]), x);
            RunAll(MachineOf(ctx, map[]), [x, y]).answers == [s.answer, Step(s.machine, y).answer]
  {
    StepTotal(MachineOf(ctx, map[]), x);
    OneOp(ctx, x);
    assert [x, y][..1] == [x] && [x][..0] == [];
    assert DoAll(ctx, [x]).accounts == Do(ctx, map[], x).accounts by { assert DoAll(ctx, []) == DidAll(map[], []); }
    assert RunAll(MachineOf(ctx, map[]), []) == Ran(MachineOf(ctx, map[]), []);
    assert RunAll(MachineOf(ctx, map[]), [x]).machine == Step(MachineOf(ctx, map[]), x).machine;
  }

  /** An index that is kept in a given cell. */
  function IndexIn(cell: CellNumber, subindex: u8): (index: Word)
    ensures SlotOf(index) == Dynamic(cell, subindex)
  {
    var index := (CELL_COUNT + cell) * 256 + subindex;
    assert index / 256 == CELL_COUNT + cell && index % 256 == subindex;
    assert (CELL_COUNT + cell) % CELL_COUNT == cell;
    index
  }

  /** The operation that reads a key. */
  function Asking(k: Key): Op
    requires !k.OtherKey?
  {
    match k
    case BalanceKey(a, c) => OpWallet(a, c)
    case ContractKey(a) => OpContract(a)
    case CellKey(a, i) => OpSlot(a, IndexIn(i, 0))
  }

  /** A read that fails is not plain. */
  lemma RefusedShows(ctx: Ctx, k: Key)
    requires !k.OtherKey? && Alone(ctx, ReadOf(k)).Err?
    ensures !IsPlain(ctx)
  {
    var op := Asking(k);
    OneOp(ctx, op);
    assert Do(ctx, map[], op).answer.Err? && Step(MachineOf(ctx, map[]), op).answer.Ok?;
    assert AllAccess([op]);
    DifferenceShows(ctx, [op]);
  }

  /** So is a second answer that differs from the plain machine's. */
  lemma SecondShows(ctx: Ctx, x: Op, y: Op)
    requires IsAccess(x) && IsAccess(y) && TotalMachine(Step(MachineOf(ctx, map[]), x).machine)
    requires Do(ctx, Do(ctx, map[], x).accounts, y).answer != Step(Step(MachineOf(ctx, map[]), x).machine, y).answer
    ensures !IsPlain(ctx)
  {
    var ops := [x, y];
    assert AllAccess(ops);
    TwoOps(ctx, x, y);
    DifferenceShows(ctx, ops);
  }

  lemma DifferenceShows(ctx: Ctx, ops: seq<Op>)
    requires AllAccess(ops) && DoAll(ctx, ops).answers != RunAll(MachineOf(ctx, map[]), ops).answers
    ensures !IsPlain(ctx)
  {}

  /** The wallet after the contract is the legacy one; where that is the node's too, the contract is refused after it.
      */
  lemma ClashDone(ctx: Ctx, a: Address)
    requires WellKinded(ctx) && !NoClashAt(ctx, a)
    ensures var w, c, body := OpWallet(a, ctx.defaultChain), OpContract(a), BodyAt(ctx, ContractKey(a));
            && body.LegacyEther?
            && Do(ctx, Do(ctx, map[], c).accounts, w).answer == Ok(GotWallet(body.wallet))
            && (body.wallet == WalletAt(ctx, map[], a, ctx.defaultChain) ==>
                  Do(ctx, Do(ctx, map[], w).accounts, c).answer.Err?)
  {
    ClashShows(ctx, a);
    TwoReads(ctx, ReadContract(a), ReadWallet(a, ctx.defaultChain));
    TwoReads(ctx, ReadWallet(a, ctx.defaultChain), ReadContract(a));
  }

  lemma ClashNotPlain(ctx: Ctx, a: Address)
    requires WellKinded(ctx) && !NoClashAt(ctx, a)
    ensures !IsPlain(ctx)
  {
    var w, c := OpWallet(a, ctx.defaultChain), OpContract(a);
    ClashDone(ctx, a);
    assert View(ctx, map[]).wallets[(a, ctx.defaultChain)] == WalletAt(ctx, map[], a, ctx.defaultChain);
    if BodyAt(ctx, ContractKey(a)).wallet == WalletAt(ctx, map[], a, ctx.defaultChain) {
      SecondShows(ctx, w, c);
    } else {
      SecondShows(ctx, c, w);
    }
  }

  lemma UnsettledDone(ctx: Ctx, k: Key, j: u8)
    requires Ordered(ctx) && k.CellKey? && !SettledAt(ctx, k)
    ensures var deployed := Do(ctx, map[], OpSetCode(k.address, 0, [1])).accounts;
            Do(ctx, deployed, OpSlot(k.address, IndexIn(k.cell, j))).answer ==
            Ok(GotWord(Lookup(BodyAt(ctx, k).cells, j)))
  {
    UnsettledResurfaces(ctx, k, 0, [1]);
  }

  /** Deploying leaves every slot of the plain maps. */
  lemma PlainAfterDeploy(ctx: Ctx, k: Key, j: u8)
    requires k.CellKey? && BaseContent(ctx, k) == Empty
    ensures var deployed := Step(MachineOf(ctx, map[]), OpSetCode(k.address, 0, [1])).machine;
            && TotalMachine(deployed)
            && Step(deployed, OpSlot(k.address, IndexIn(k.cell, j))).answer == Ok(GotWord(0))
  {
    var slot := Dynamic(k.cell, j);
    StepTotal(MachineOf(ctx, map[]), OpSetCode(k.address, 0, [1]));
    assert View(ctx, map[]).slots[(k.address, slot)] == SlotAt(ctx, map[], k.address, slot) == 0;
  }

  lemma UnsettledNotPlain(ctx: Ctx, k: Key)
    requires Ordered(ctx) && k.CellKey? && !SettledAt(ctx, k)
    ensures !IsPlain(ctx)
  {
    UnsettledResurfaces(ctx, k, 0, [1]);
    var j: u8 :| Lookup(BodyAt(ctx, k).cells, j) != 0;
    UnsettledDone(ctx, k, j);
    PlainAfterDeploy(ctx, k, j);
    SecondShows(ctx, OpSetCode(k.address, 0, [1]), OpSlot(k.address, IndexIn(k.cell, j)));
  }

  /** For every node: the emulator answers every run of reads and writes as plain maps of balances, nonces, contracts
      and slots would if and only if the node's answers are of the right kinds, ordered and settled. */
  lemma PlainExactly(ctx: Ctx)
    ensures IsPlain(ctx) <==> Settled(ctx)
  {
    if Settled(ctx) {
      forall ops: seq<Op> | AllAccess(ops)
        ensures DoAll(ctx, ops).answers == RunAll(MachineOf(ctx, map[]), ops).answers
      {
        RunRefines(ctx, ops);
      }
    } else if !WellKinded(ctx) {
      var k: Key :| !KindOk(k, ctx.rpc(k));
      WrongKindShows(ctx, k);
      RefusedShows(ctx, k);
    } else if !NoClash(ctx) {
      var a: Address :| !NoClashAt(ctx, a);
      ClashNotPlain(ctx, a);
    } else if !NoBareCell(ctx) {
      var a: Address, i: CellNumber :| !NoBareCellAt(ctx, a, i);
      BareCellShows(ctx, a, i);
      RefusedShows(ctx, CellKey(a, i));
    } else {
      var k: Key :| k.CellKey? && !SettledAt(ctx, k);
      UnsettledNotPlain(ctx, k);
    }
  }
}

/** The emulator's account storage: accounts filled lazily from the node, a stack of saved copies, marks on the
    accounts a transaction needs, and the logs. It refines plain maps with a stack of saved copies. */
module EvmStorage {
  import opened Base
  import opened EvmAccounts
  import opened EvmLoading
  import opened EvmWrites

  datatype Log = Log(address: Address, topics: seq<Word>, data: seq<u8>)

  datatype Mark = Mark(isWritable: bool, isLegacy: bool, lamportsAfterUpgrade: Option<u64>)
  type Marks = map<Key, Mark>

  const NO_MARK := Mark(false, false, None)

  // ---- the abstract machine ----

  datatype Frame = Frame(plain: Plain, logs: seq<Log>)

  /** Plain maps and logs now, and the copies saved by snapshots, oldest first. */
  datatype Machine = Machine(now: Frame, saved: seq<Frame>)

  datatype Op =
    | OpWallet(address: Address, chainId: u64)
    | OpContract(address: Address)
    | OpSlot(address: Address, index: Word)
    | OpSetStorage(address: Address, index: Word, value: Word)
    | OpSetCode(address: Address, chainId: u64, code: seq<u8>)
    | OpIncrementNonce(address: Address, chainId: u64)
    | OpTransfer(from: Address, to: Address, chainId: u64, amount: Word)
    | OpLog(log: Log)
    | OpSnapshot
    | OpRevert
    | OpCommit
  {
    predicate IsRead() { OpWallet? || OpContract? || OpSlot? }
    predicate IsWrite() { OpSetStorage? || OpSetCode? || OpIncrementNonce? || OpTransfer? }
  }

  /** What an operation gives back: the value it read, or that it is done. */
  datatype Reply = Done | GotWallet(wallet: Wallet) | GotContract(deployed: Option<Deployed>) | GotWord(value: Word)

  function Replied(outcome: Outcome<Fault>): Result<Reply, Fault> {
    if outcome.Pass? then Ok(Done) else Err(outcome.error)
  }

  datatype Stepped = Stepped(machine: Machine, answer: Result<Reply, Fault>)

  ghost predicate TotalMachine(s: Machine) {
    Total(s.now.plain) && forall i :: 0 <= i < |s.saved| ==> Total(s.saved[i].plain)
  }

  ghost function Now(s: Machine, wrote: PlainWrote): Stepped {
    Stepped(s.(now := s.now.(plain := wrote.plain)), Replied(wrote.outcome))
  }

  /** Back to the newest copy. Returning to a first snapshot that already held logs stops the machine. */
  ghost function Reverted(s: Machine): Stepped {
    var depth := |s.saved|;
    if depth == 0 then Stepped(s, Err(Panic))
    else Stepped(Machine(s.saved[depth - 1], s.saved[..depth - 1]),
                 if depth == 1 && s.saved[0].logs != [] then Err(Panic) else Ok(Done))
  }

  ghost function Committed(s: Machine): Stepped {
    if |s.saved| == 0 then Stepped(s, Err(Panic)) else Stepped(s.(saved := s.saved[..|s.saved| - 1]), Ok(Done))
  }

  lemma RevertedTo(s: Machine, last: nat, s': Machine)
    requires |s.saved| == last + 1 && s' == Machine(s.saved[last], s.saved[..last])
    ensures Reverted(s) == Stepped(s', if last == 0 && s'.now.logs != [] then Err(Panic) else Ok(Done))
  {}

  /** One operation on the plain machine. */
  ghost function Step(s: Machine, op: Op): Stepped
    requires TotalMachine(s)
  {
    match op
    case OpWallet(a, chainId) => Stepped(s, Ok(GotWallet(s.now.plain.wallets[(a, chainId)])))
    case OpContract(a) => Stepped(s, Ok(GotContract(s.now.plain.contracts[a])))
    case OpSlot(a, index) => Stepped(s, Ok(GotWord(s.now.plain.slots[(a, SlotOf(index))])))
    case OpSetStorage(a, index, value) => Now(s, PlainSetStorage(s.now.plain, a, index, value))
    case OpSetCode(a, chainId, code) => Now(s, PlainSetCode(s.now.plain, a, chainId, code))
    case OpIncrementNonce(a, chainId) => Now(s, PlainWallet(s.now.plain, a, chainId, Bumping()))
    case OpTransfer(from, to, chainId, amount) => Now(s, PlainTransfer(s.now.plain, from, to, chainId, amount))
    case OpLog(log) => Stepped(s.(now := s.now.(logs := s.now.logs + [log])), Ok(Done))
    case OpSnapshot => Stepped(s.(saved := s.saved + [s.now]), Ok(Done))
    case OpRevert => Reverted(s)
    case OpCommit => Committed(s)
  }

  datatype Ran = Ran(machine: Machine, answers: seq<Result<Reply, Fault>>)

  lemma StepTotal(s: Machine, op: Op)
    requires TotalMachine(s)
    ensures TotalMachine(Step(s, op).machine)
  {}

  ghost function RunAll(s: Machine, ops: seq<Op>): (r: Ran)
    requires TotalMachine(s)
    ensures TotalMachine(r.machine)
  {
    if ops == [] then Ran(s, [])
    else
      var before := RunAll(s, ops[..|ops| - 1]);
      var stepped := Step(before.machine, ops[|ops| - 1]);
      StepTotal(before.machine, ops[|ops| - 1]);
      Ran(stepped.machine, before.answers + [stepped.answer])
  }

  // ---- marks ----

  predicate Grown(u: Marks, u': Marks) {
    forall k :: k in u ==> k in u' && (u[k].isWritable ==> u'[k].isWritable) && (u[k].isLegacy ==> u'[k].isLegacy)
  }

  predicate MarkedAll(m: Accounts, u: Marks) {
    forall k :: k in m ==> k in u
  }

  /** The lamports noted for a key by the upgrade of a legacy account. */
  function AfterUpgrade(u: Marks, k: Key): Option<u64> {
    if k in u then u[k].lamportsAfterUpgrade else None
  }

  predicate Upgraded(u: Marks, k: Key) { AfterUpgrade(u, k).Some? }

  /** Every upgraded account is still loaded. */
  ghost predicate StillLoaded(m: Accounts, u: Marks) {
    forall k :: Upgraded(u, k) ==> k in m && !k.OtherKey?
  }

  predicate Writable(u: Marks, k: Key) { k in u && u[k].isWritable }

  /** What the node itself shows under a key; a legacy account is not shown as it is. */
  function NodeContent(ctx: Ctx, k: Key): Content {
    match BodyAt(ctx, k)
    case Current(content) => content
    case _ => Empty
  }

  /** An account that shows something else than the node does is marked writable. */
  predicate ChangesMarked(ctx: Ctx, m: Accounts, u: Marks) {
    forall k :: k in m && Seen(k, m[k].content) != Seen(k, NodeContent(ctx, k)) ==> Writable(u, k)
  }

  /** Marks are never lost, every account loaded meanwhile has one, and no upgraded account is dropped. */
  ghost predicate MarksGrow(m: Accounts, u: Marks, m': Accounts, u': Marks) {
    Grown(u, u') && (MarkedAll(m, u) ==> MarkedAll(m', u')) && (StillLoaded(m, u) ==> StillLoaded(m', u'))
  }

  /** Changes stay marked as well, unless a balance address contradicts a legacy account. */
  ghost predicate MarksKept(ctx: Ctx, m: Accounts, u: Marks, m': Accounts, u': Marks) {
    MarksGrow(m, u, m', u') && (NoClash(ctx) && ChangesMarked(ctx, m, u) ==> ChangesMarked(ctx, m', u'))
  }

  lemma MarksKeptTrans(ctx: Ctx, m: Accounts, u: Marks, m1: Accounts, u1: Marks, m2: Accounts, u2: Marks)
    requires MarksKept(ctx, m, u, m1, u1) && MarksKept(ctx, m1, u1, m2, u2)
    ensures MarksKept(ctx, m, u, m2, u2)
  {}

  /** A writable account may be replaced. */
  lemma PutKept(ctx: Ctx, m: Accounts, u: Marks, k: Key, e: Entry)
    requires k in m && Writable(u, k)
    ensures MarksKept(ctx, m, u, Put(m, k, e), u)
  {}

  /** Upgrades are noted for no key but these. */
  ghost predicate SameUpgrades(u: Marks, u': Marks, keys: set<Key>) {
    forall k :: k !in keys ==> AfterUpgrade(u', k) == AfterUpgrade(u, k)
  }

  /** Lamports the balance half of a legacy account ends up with. */
  function WalletLamports(ctx: Ctx, body: Body): u64
    requires body.LegacyEther?
  {
    if HasWallet(body) then ctx.rent(BALANCE_LEN) else 0
  }

  /** And the contract half. */
  function ContractLamports(ctx: Ctx, body: Body): u64
    requires body.LegacyEther?
  {
    if HasContract(body) then ctx.rent(CONTRACT_LEN + |body.code|) else 0
  }

  /** The upgrade of legacy account `a` is noted, both halves, and no other. */
  ghost predicate EtherNoted(ctx: Ctx, a: Address, u: Marks, u': Marks) {
    var body, bk, ck := BodyAt(ctx, ContractKey(a)), BalanceKey(a, ctx.defaultChain), ContractKey(a);
    && body.LegacyEther? && AfterUpgrade(u', bk) == Some(WalletLamports(ctx, body))
    && AfterUpgrade(u', ck) == Some(ContractLamports(ctx, body)) && SameUpgrades(u, u', {bk, ck})
  }

  /** What holds of the current accounts and of every saved copy. */
  ghost predicate FrameOk(ctx: Ctx, m: Accounts, u: Marks) {
    Good(ctx, m) && MarkedAll(m, u) && ChangesMarked(ctx, m, u)
  }

  ghost predicate FramesOk(ctx: Ctx, stack: seq<Accounts>, u: Marks) {
    forall i :: 0 <= i < |stack| ==> FrameOk(ctx, stack[i], u)
  }

  /** The lengths noted with the copies rise up to the logs' own. */
  predicate EndsOk(ends: seq<nat>, length: nat) {
    (forall i :: 0 <= i < |ends| ==> ends[i] <= length) && forall i, j :: 0 <= i < j < |ends| ==> ends[i] <= ends[j]
  }

  lemma FrameOkGrows(ctx: Ctx, m: Accounts, u: Marks, u': Marks)
    requires FrameOk(ctx, m, u) && Grown(u, u')
    ensures FrameOk(ctx, m, u')
  {}

  /** The saved copies: accounts, and the logs up to the length noted with them. */
  ghost function SavedFrames(ctx: Ctx, stack: seq<Accounts>, logs: seq<Log>, ends: seq<nat>): seq<Frame>
    requires |ends| == |stack| && EndsOk(ends, |logs|)
  {
    seq(|stack|, i requires 0 <= i < |stack| => Frame(View(ctx, stack[i]), logs[..ends[i]]))
  }

  lemma FramesOkPop(ctx: Ctx, stack: seq<Accounts>, u: Marks, last: nat)
    requires FramesOk(ctx, stack, u) && |stack| == last + 1
    ensures FrameOk(ctx, stack[last], u) && FramesOk(ctx, stack[..last], u)
  {
    forall i | 0 <= i < last ensures FrameOk(ctx, stack[..last][i], u) { assert FrameOk(ctx, stack[i], u); }
  }

  /** Without the newest copy and the logs after it, the older copies are what they were. */
  lemma SavedFramesPop(ctx: Ctx, stack: seq<Accounts>, logs: seq<Log>, ends: seq<nat>, last: nat)
    requires |ends| == |stack| == last + 1 && EndsOk(ends, |logs|)
    ensures EndsOk(ends[..last], ends[last])
    ensures var frames := SavedFrames(ctx, stack, logs, ends);
            && frames[last] == Frame(View(ctx, stack[last]), logs[..ends[last]])
            && SavedFrames(ctx, stack[..last], logs[..ends[last]], ends[..last]) == frames[..last]
  {
    forall i | 0 <= i < last ensures logs[..ends[last]][..ends[i]] == logs[..ends[i]] {
      assert ends[i] <= ends[last];
    }
  }

  predicate WalletLoads(ctx: Ctx, m: Accounts, a: Address, chainId: u64) {
    var loaded := LoadWallet(ctx, m, a, chainId);
    loaded.Ok? && BalanceKey(a, chainId) in loaded.value
  }

  predicate KeyLoads(ctx: Ctx, m: Accounts, k: Key) {
    var loaded := LoadPlain(ctx, m, k);
    loaded.Ok? && k in loaded.value
  }

  /** A legacy account loaded first leaves its two halves and nothing else. */
  lemma LoadedOnly(ctx: Ctx, a: Address)
    requires IsLegacyEther(ctx, a)
    ensures LoadPlain(ctx, map[], ContractKey(a)).Ok?
    ensures var bk, ck := BalanceKey(a, ctx.defaultChain), ContractKey(a);
            var m := LoadPlain(ctx, map[], ck).value;
            && m.Keys == {bk, ck} && m[bk].lamports == WalletLamports(ctx, BodyAt(ctx, ck))
            && m[ck].lamports == ContractLamports(ctx, BodyAt(ctx, ck))
  {}

  class Emulator {
    const ctx: Ctx
    var accounts: Accounts
    var callStack: seq<Accounts>
    var cache: map<Key, Option<RpcAccount>>
    var used: Marks
    var logs: seq<Log>
    var logsStack: seq<nat>
    var externalCall: bool
    var revertsBeforeCalls: bool
    var revertsAfterCalls: bool

    ghost predicate CacheOk()
      reads `cache
    {
      forall k :: k in cache ==> cache[k] == ctx.rpc(k)
    }

    ghost predicate Valid()
      reads `accounts, `callStack, `cache, `used, `logs, `logsStack
    {
      && Settled(ctx) && CacheOk() && FrameOk(ctx, accounts, used)
      && FramesOk(ctx, callStack, used) && |logsStack| == |callStack| && EndsOk(logsStack, |logs|)
    }

    ghost predicate UpgradesLoaded()
      reads `accounts, `used
    {
      StillLoaded(accounts, used)
    }

    /** The plain machine this storage stands for. */
    ghost function Abstract(): (s: Machine)
      requires Valid()
      reads `accounts, `callStack, `cache, `used, `logs, `logsStack
      ensures TotalMachine(s)
    {
      Machine(Frame(View(ctx, accounts), logs), SavedFrames(ctx, callStack, logs, logsStack))
    }

    /** `new`: nothing loaded, the overrides already answered. */
    constructor (rpc: Key -> Option<RpcAccount>, overrides: map<Key, Option<RpcAccount>>, rent: nat -> u64,
                 defaultChain: u64)
      ensures ctx == Ctx(k => if k in overrides then overrides[k] else rpc(k), rent, defaultChain)
      ensures Settled(ctx) ==> Valid() && Abstract() == Machine(Frame(View(ctx, map[]), []), [])
      ensures UpgradesLoaded()
    {
      ctx := Ctx(k => if k in overrides then overrides[k] else rpc(k), rent, defaultChain);
      accounts, callStack, cache, used := map[], [], overrides, map[];
      logs, logsStack := [], [];
      externalCall, revertsBeforeCalls, revertsAfterCalls := false, false, false;
    }

    // ---- the node and the marks ----

    method Fetch(k: Key) returns (answer: Option<RpcAccount>)
      requires CacheOk()
      modifies this`cache
      ensures CacheOk() && answer == ctx.rpc(k) && cache == old(cache)[k := answer]
    {
      if k in cache { return cache[k]; }
      answer := ctx.rpc(k);
      cache := cache[k := answer];
    }

    method MarkAccount(k: Key, writable: bool)
      modifies this`used
      ensures Grown(old(used), used) && used.Keys == old(used).Keys + {k} && (writable ==> Writable(used, k))
      ensures SameUpgrades(old(used), used, {})
    {
      var mark := if k in used then used[k] else NO_MARK;
      used := used[k := mark.(isWritable := mark.isWritable || writable)];
    }

    method MarkLegacy(k: Key, writable: bool, after: Option<u64>)
      modifies this`used
      ensures Grown(old(used), used) && used.Keys == old(used).Keys + {k}
      ensures used[k].isLegacy && (writable ==> Writable(used, k))
      ensures SameUpgrades(old(used), used, {k})
      ensures AfterUpgrade(used, k) == if after.None? then AfterUpgrade(old(used), k) else after
    {
      var mark := if k in used then used[k] else NO_MARK;
      mark := mark.(isWritable := mark.isWritable || writable, isLegacy := true);
      if after.Some? { mark := mark.(lamportsAfterUpgrade := after); }
      used := used[k := mark];
    }

    // ---- loading ----

    method AddEmptyAccount(k: Key)
      modifies this`accounts, this`used
      ensures accounts == AddEmpty(old(accounts), k) && k in accounts && k in used
      ensures SameUpgrades(old(used), used, {})
      ensures MarksGrow(old(accounts), old(used), accounts, used)
      ensures Seen(k, NodeContent(ctx, k)) == Seen(k, Empty) ==>
                MarksKept(ctx, old(accounts), old(used), accounts, used)
    {
      MarkAccount(k, false);
      if k !in accounts { accounts := accounts[k := NO_ENTRY]; }
    }

    method InsertAccount(k: Key, e: Entry)
      modifies this`accounts, this`used
      ensures accounts == Insert(old(accounts), k, e)
      ensures e.content == NodeContent(ctx, k) ==> MarksKept(ctx, old(accounts), old(used), accounts, used)
    {
      MarkAccount(k, false);
      if k !in accounts { accounts := accounts[k := e]; }
    }

    method MigrateLegacyBalance(k: Key, body: Body) returns (r: Outcome<Fault>)
      requires body.LegacyEther? && !k.OtherKey?
      modifies this`accounts, this`used
      ensures match MigrateWallet(ctx, old(accounts), k, body)
              case Ok(m) => r.Pass? && accounts == m
              case Err(f) => r == Fail(f)
      ensures MarksGrow(old(accounts), old(used), accounts, used)
      ensures HasWallet(body) || Seen(k, NodeContent(ctx, k)) == Seen(k, Empty) ==>
                MarksKept(ctx, old(accounts), old(used), accounts, used)
      ensures SameUpgrades(old(used), used, {k})
      ensures r.Pass? ==> AfterUpgrade(used, k) == Some(WalletLamports(ctx, body))
    {
      AddEmptyAccount(k);
      if body.wallet.balance > 0 || body.wallet.nonce > 0 {
        var created := CreateBalance(ctx, accounts[k], body.wallet);
        if created.Err? { return Fail(created.error); }
        accounts := accounts[k := created.value];
        MarkLegacy(k, true, Some(created.value.lamports));
      } else {
        MarkLegacy(k, false, Some(0));
      }
      r := Pass;
    }

    /** The contract half is writable even when nothing is left of it: the legacy account is destroyed. */
    method MigrateLegacyContract(k: Key, body: Body) returns (r: Outcome<Fault>)
      requires body.LegacyEther? && !k.OtherKey?
      modifies this`accounts, this`used
      ensures match MigrateContract(ctx, old(accounts), k, body)
              case Ok(m) => r.Pass? && accounts == m
              case Err(f) => r == Fail(f)
      ensures MarksKept(ctx, old(accounts), old(used), accounts, used)
      ensures r.Pass? ==> k in accounts && Writable(used, k)
      ensures SameUpgrades(old(used), used, {k})
      ensures r.Pass? ==> AfterUpgrade(used, k) == Some(ContractLamports(ctx, body))
    {
      AddEmptyAccount(k);
      if |body.code| > 0 || body.generation > 0 {
        var created := CreateContract(ctx, accounts[k], ctx.defaultChain, body.generation, body.code,
                                      MigratedStatics(body));
        if created.Err? { return Fail(created.error); }
        accounts := accounts[k := created.value];
        MarkLegacy(k, true, Some(created.value.lamports));
      } else {
        MarkLegacy(k, true, Some(0));
      }
      r := Pass;
    }

    method AddLegacyAccount(a: Address, body: Body) returns (r: Outcome<Fault>)
      requires body.LegacyEther? && body == BodyAt(ctx, ContractKey(a))
      modifies this`accounts, this`used
      ensures match AddLegacyEther(ctx, old(accounts), a, body)
              case Ok(m) => r.Pass? && accounts == m
              case Err(f) => r == Fail(f)
      ensures MarksKept(ctx, old(accounts), old(used), accounts, used)
      ensures r.Pass? ==> ContractKey(a) in accounts && Writable(used, ContractKey(a))
      ensures r.Pass? ==> EtherNoted(ctx, a, old(used), used)
    {
      assert NoClash(ctx) ==> NoClashAt(ctx, a);
      r := MigrateLegacyBalance(BalanceKey(a, ctx.defaultChain), body);
      if r.Fail? { return; }
      r := MigrateLegacyContract(ContractKey(a), body);
    }

    method ContractGeneration(a: Address) returns (r: Outcome<Fault>, g: Option<u32>)
      requires CacheOk()
      modifies this`accounts, this`used, this`cache
      ensures CacheOk() && MarksKept(ctx, old(accounts), old(used), accounts, used)
      ensures match LoadGeneration(ctx, old(accounts), a)
              case Ok(loaded) => r.Pass? && accounts == loaded.accounts && g == loaded.value
              case Err(f) => r == Fail(f)
    {
      var ck := ContractKey(a);
      r, g := Pass, None;
      if ck !in accounts {
        var answer := Fetch(ck);
        if answer.None? {
          AddEmptyAccount(ck);
        } else {
          match answer.value.body {
            case Current(content) =>
              if content.Balance? || content.Cell? { return Fail(Unimplemented), None; }
              accounts := accounts[ck := Entry(answer.value.lamports, answer.value.len, content)];
            case LegacyEther(_, _, _, _) =>
              r := AddLegacyAccount(a, answer.value.body);
              if r.Fail? { return; }
            case _ => return Fail(Unimplemented), None;
          }
        }
      }
      MarkLegacy(ck, false, None);
      match accounts[ck].content {
        case Empty =>
        case Contract(_, generation, code, _) => if |code| > 0 { g := Some(generation); }
        case _ => r := Fail(BadTag);
      }
    }

    method AddLegacyStorage(k: Key, body: Body) returns (r: Outcome<Fault>)
      requires CacheOk() && k.CellKey? && body.LegacyCell? && body == BodyAt(ctx, k)
      modifies this`accounts, this`used, this`cache
      ensures CacheOk() && MarksKept(ctx, old(accounts), old(used), accounts, used)
      ensures match AddLegacyCell(ctx, old(accounts), k, body)
              case Ok(m) => r.Pass? && accounts == m
              case Err(f) => r == Fail(f)
    {
      var g;
      r, g := ContractGeneration(k.address);
      if r.Fail? { return; }
      AddEmptyAccount(k);
      if g == Some(body.generation) {
        var created := CreateCell(ctx, accounts[k], body.cells);
        if created.Err? { return Fail(created.error); }
        accounts := accounts[k := created.value];
        MarkLegacy(k, true, Some(created.value.lamports));
      } else {
        MarkLegacy(k, true, Some(0));
      }
    }

    method AddFetched(k: Key, account: RpcAccount) returns (r: Outcome<Fault>)
      requires CacheOk() && ctx.rpc(k) == Some(account)
      modifies this`accounts, this`used, this`cache
      ensures CacheOk() && MarksKept(ctx, old(accounts), old(used), accounts, used)
      ensures match AddAccount(ctx, old(accounts), k, account)
              case Ok(m) => r.Pass? && accounts == m
              case Err(f) => r == Fail(f)
      ensures r.Pass? && account.body.LegacyEther? ==>
                k.ContractKey? && EtherNoted(ctx, k.address, old(used), used) && cache == old(cache)
    {
      r := Pass;
      match account.body {
        case Current(content) => InsertAccount(k, Entry(account.lamports, account.len, content));
        case LegacyEther(_, _, _, _) =>
          if !k.ContractKey? { return Fail(BadTag); }
          r := AddLegacyAccount(k.address, account.body);
        case LegacyCell(_, _) =>
          if !k.CellKey? { return Fail(BadTag); }
          r := AddLegacyStorage(k, account.body);
        case TagEmpty => AddEmptyAccount(k);
        case OtherTag => r := Fail(Unimplemented);
      }
    }

    /** `get_contract_account` and `get_storage_account`. */
    method GetAccount(k: Key) returns (r: Outcome<Fault>)
      requires CacheOk()
      modifies this`accounts, this`used, this`cache
      ensures CacheOk() && MarksKept(ctx, old(accounts), old(used), accounts, used)
      ensures match LoadPlain(ctx, old(accounts), k)
              case Ok(m) => r.Pass? && accounts == m
              case Err(f) => r == Fail(f)
      ensures r.Pass? && k !in old(accounts) && BodyAt(ctx, k).LegacyEther? ==>
                k.ContractKey? && EtherNoted(ctx, k.address, old(used), used) && cache == old(cache)[k := ctx.rpc(k)]
    {
      r := Pass;
      if k in accounts { return; }
      var answer := Fetch(k);
      if answer.Some? { r := AddFetched(k, answer.value); } else { AddEmptyAccount(k); }
    }

    method GetBalanceAccount(a: Address, chainId: u64) returns (r: Outcome<Fault>)
      requires CacheOk()
      modifies this`accounts, this`used, this`cache
      ensures CacheOk() && MarksKept(ctx, old(accounts), old(used), accounts, used)
      ensures match LoadWallet(ctx, old(accounts), a, chainId)
              case Ok(m) => r.Pass? && accounts == m
              case Err(f) => r == Fail(f)
    {
      var bk, ck := BalanceKey(a, chainId), ContractKey(a);
      r := Pass;
      if bk in accounts { return; }
      var answer := Fetch(bk);
      if answer.Some? {
        r := AddFetched(bk, answer.value);
      } else {
        if chainId == ctx.defaultChain && ck !in accounts {
          var legacy := Fetch(ck);
          if legacy.Some? {
            r := AddFetched(ck, legacy.value);
            if r.Fail? { return; }
          } else {
            AddEmptyAccount(ck);
          }
        }
        AddEmptyAccount(bk);
      }
    }

    // ---- reading ----

    /** Loading under `Valid` never fails and changes no plain map. */
    method OpenBalanceAccount(a: Address, chainId: u64)
      requires Valid()
      modifies this`accounts, this`used, this`cache
      ensures Valid() && Abstract() == old(Abstract()) && Grown(old(used), used)
      ensures old(UpgradesLoaded()) ==> UpgradesLoaded()
      ensures LoadWallet(ctx, old(accounts), a, chainId) == Ok(accounts)
      ensures BalanceKey(a, chainId) in accounts
    {
      var r := GetBalanceAccount(a, chainId);
      LoadWalletExtends(ctx, old(accounts), a, chainId);
      Loaded(old(accounts), old(used));
    }

    method OpenAccount(k: Key)
      requires Valid() && (k.ContractKey? || k.CellKey?)
      modifies this`accounts, this`used, this`cache
      ensures Valid() && Abstract() == old(Abstract()) && Grown(old(used), used)
      ensures old(UpgradesLoaded()) ==> UpgradesLoaded()
      ensures LoadPlain(ctx, old(accounts), k) == Ok(accounts)
      ensures k in accounts && RightKind(k, accounts[k].content)
      ensures k !in old(accounts) && BodyAt(ctx, k).LegacyEther? ==>
                k.ContractKey? && EtherNoted(ctx, k.address, old(used), used) && cache == old(cache)[k := ctx.rpc(k)]
    {
      var r := GetAccount(k);
      LoadPlainExtends(ctx, old(accounts), k);
      Loaded(old(accounts), old(used));
      assert Abstract().saved == old(Abstract()).saved;
    }

    /** What an extension of the accounts leaves valid. */
    lemma Loaded(m: Accounts, u: Marks)
      requires NoClash(ctx) && FrameOk(ctx, m, u)
      requires Extends(ctx, m, accounts) && Sound(ctx, accounts) && MarksKept(ctx, m, u, accounts, used)
      ensures FrameOk(ctx, accounts, used) && View(ctx, accounts) == View(ctx, m)
    {
      ExtendsGood(ctx, m, accounts);
      ExtendsView(ctx, m, accounts);
    }

    method GetWallet(a: Address, chainId: u64) returns (w: Wallet)
      requires Valid()
      modifies this`accounts, this`used, this`cache
      ensures Valid() && Abstract() == old(Abstract())
      ensures old(UpgradesLoaded()) ==> UpgradesLoaded()
      ensures w == Abstract().now.plain.wallets[(a, chainId)]
    {
      OpenBalanceAccount(a, chainId);
      w := WalletIn(accounts[BalanceKey(a, chainId)].content);
      assert w == WalletAt(ctx, accounts, a, chainId);
    }

    method GetContract(a: Address) returns (deployed: Option<Deployed>)
      requires Valid()
      modifies this`accounts, this`used, this`cache
      ensures LoadPlain(ctx, old(accounts), ContractKey(a)) == Ok(accounts)
      ensures ContractKey(a) !in old(accounts) && IsLegacyEther(ctx, a) ==>
                EtherNoted(ctx, a, old(used), used) && cache == old(cache)[ContractKey(a) := ctx.rpc(ContractKey(a))]
      ensures Valid() && Abstract() == old(Abstract())
      ensures old(UpgradesLoaded()) ==> UpgradesLoaded()
      ensures deployed == Abstract().now.plain.contracts[a]
    {
      OpenAccount(ContractKey(a));
      var content := accounts[ContractKey(a)].content;
      deployed := if content.Contract? then Some(Deployed(content.chainId, content.code)) else None;
      assert deployed == DeployedAt(ctx, accounts, a);
    }

    method GetStorage(a: Address, index: Word) returns (value: Word)
      requires Valid()
      modifies this`accounts, this`used, this`cache
      ensures Valid() && Abstract() == old(Abstract())
      ensures old(UpgradesLoaded()) ==> UpgradesLoaded()
      ensures value == Abstract().now.plain.slots[(a, SlotOf(index))]
    {
      value := 0;
      if index < STATIC_SLOTS {
        OpenAccount(ContractKey(a));
        var content := accounts[ContractKey(a)].content;
        if content.Contract? { value := content.statics[index]; }
      } else {
        var subindex, cell := index % 256, (index / 256) % CELL_COUNT;
        OpenAccount(CellKey(a, cell));
        var content := accounts[CellKey(a, cell)].content;
        if content.Cell? { value := GetSubCell(content.cells, subindex); }
      }
      assert value == SlotAt(ctx, accounts, a, SlotOf(index));
    }

    // ---- writing ----

    /** `get_or_create_ethereum_balance`, after the account was loaded. */
    method OpenWallet(k: Key) returns (r: Outcome<Fault>, w: Wallet)
      requires k in accounts
      modifies this`accounts
      ensures match OpenBalance(ctx, old(accounts)[k])
              case Ok(e) => r.Pass? && e.content == Balance(w) && accounts == Put(old(accounts), k, e)
              case Err(f) => r == Fail(f) && accounts == old(accounts)
    {
      r, w := Pass, NO_WALLET;
      match accounts[k].content {
        case Empty => accounts := accounts[k := CreateBalance(ctx, accounts[k], NO_WALLET).value];
        case Balance(wallet) => w := wallet; assert accounts == Put(accounts, k, accounts[k]);
        case _ => r := Fail(BadTag);
      }
    }

    /** Loads a balance account and opens it. */
    method AccessWallet(a: Address, chainId: u64) returns (r: Outcome<Fault>, w: Wallet)
      requires CacheOk() && WalletLoads(ctx, accounts, a, chainId)
      modifies this`accounts, this`used, this`cache
      ensures CacheOk() && MarksKept(ctx, old(accounts), old(used), accounts, used)
      ensures Wrote(accounts, r) == EvmWrites.OpenWallet(ctx, old(accounts), a, chainId)
      ensures BalanceKey(a, chainId) in accounts && (r.Pass? ==> accounts[BalanceKey(a, chainId)].content == Balance(w))
    {
      r := GetBalanceAccount(a, chainId);
      r, w := OpenWallet(BalanceKey(a, chainId));
    }

    /** The new wallet, and `update_lamports`. */
    method StoreWallet(k: Key, w: Wallet)
      requires k in accounts
      modifies this`accounts
      ensures accounts == Put(old(accounts), k, WithWallet(ctx, old(accounts)[k], w))
    {
      var e := accounts[k].(content := Balance(w));
      if e.lamports < ctx.rent(e.len) { e := e.(lamports := ctx.rent(e.len)); }
      accounts := accounts[k := e];
    }

    method StoreAndMark(k: Key, w: Wallet)
      requires k in accounts
      modifies this`accounts, this`used
      ensures accounts == Put(old(accounts), k, WithWallet(ctx, old(accounts)[k], w))
      ensures MarksKept(ctx, old(accounts), old(used), accounts, used) && Writable(used, k)
    {
      StoreWallet(k, w);
      MarkAccount(k, true);
    }

    method ProcessMint(a: Address, chainId: u64, value: Word) returns (r: Outcome<Fault>)
      requires CacheOk() && WalletLoads(ctx, accounts, a, chainId)
      modifies this`accounts, this`used, this`cache
      ensures CacheOk() && MarksKept(ctx, old(accounts), old(used), accounts, used)
      ensures Wrote(accounts, r) == EvmWrites.Mint(ctx, old(accounts), a, chainId, value)
      ensures r.Pass? ==> Writable(used, BalanceKey(a, chainId))
    {
      var k, w := BalanceKey(a, chainId), NO_WALLET;
      r, w := AccessWallet(a, chainId);
      if r.Fail? { return; }
      if w.balance + value > WORD_MAX { return Fail(IntegerOverflow); }
      ghost var m, u := accounts, used;
      StoreAndMark(k, w.(balance := w.balance + value));
      MarksKeptTrans(ctx, old(accounts), old(used), m, u, accounts, used);
    }

    /** Burning marks the account before it opens it. */
    method AccessMarked(a: Address, chainId: u64) returns (r: Outcome<Fault>, w: Wallet)
      requires CacheOk() && WalletLoads(ctx, accounts, a, chainId)
      modifies this`accounts, this`used, this`cache
      ensures CacheOk() && MarksKept(ctx, old(accounts), old(used), accounts, used)
      ensures Wrote(accounts, r) == EvmWrites.OpenWallet(ctx, old(accounts), a, chainId)
      ensures BalanceKey(a, chainId) in accounts && (r.Pass? ==> accounts[BalanceKey(a, chainId)].content == Balance(w))
      ensures Writable(used, BalanceKey(a, chainId))
    {
      var k := BalanceKey(a, chainId);
      r := GetBalanceAccount(a, chainId);
      MarkAccount(k, true);
      r, w := OpenWallet(k);
    }

    method ProcessBurn(a: Address, chainId: u64, value: Word) returns (r: Outcome<Fault>)
      requires CacheOk() && WalletLoads(ctx, accounts, a, chainId)
      modifies this`accounts, this`used, this`cache
      ensures CacheOk() && MarksKept(ctx, old(accounts), old(used), accounts, used)
      ensures Wrote(accounts, r) == EvmWrites.Burn(ctx, old(accounts), a, chainId, value)
      ensures r.Pass? ==> Writable(used, BalanceKey(a, chainId))
    {
      var k, w := BalanceKey(a, chainId), NO_WALLET;
      r, w := AccessMarked(a, chainId);
      if r.Fail? { return; }
      if w.balance < value { return Fail(InsufficientBalance); }
      ghost var m := accounts;
      StoreWallet(k, w.(balance := w.balance - value));
      PutKept(ctx, m, used, k, accounts[k]);
      MarksKeptTrans(ctx, old(accounts), old(used), m, used, accounts, used);
    }

    method ProcessIncrementNonce(a: Address, chainId: u64) returns (r: Outcome<Fault>)
      requires CacheOk() && WalletLoads(ctx, accounts, a, chainId)
      modifies this`accounts, this`used, this`cache
      ensures CacheOk() && MarksKept(ctx, old(accounts), old(used), accounts, used)
      ensures Wrote(accounts, r) == EvmWrites.IncrementNonce(ctx, old(accounts), a, chainId)
      ensures r.Pass? ==> Writable(used, BalanceKey(a, chainId))
    {
      var k, w := BalanceKey(a, chainId), NO_WALLET;
      r, w := AccessWallet(a, chainId);
      if r.Fail? { return; }
      if w.nonce == U64_MAX { return Fail(NonceOverflow); }
      ghost var m, u := accounts, used;
      StoreAndMark(k, w.(nonce := w.nonce + 1));
      MarksKeptTrans(ctx, old(accounts), old(used), m, u, accounts, used);
    }

    method ProcessSetCode(a: Address, chainId: u64, code: seq<u8>) returns (r: Outcome<Fault>)
      requires CacheOk() && KeyLoads(ctx, accounts, ContractKey(a))
      modifies this`accounts, this`used, this`cache
      ensures CacheOk() && MarksKept(ctx, old(accounts), old(used), accounts, used)
      ensures Wrote(accounts, r) == EvmWrites.SetCode(ctx, old(accounts), a, chainId, code)
      ensures r.Pass? ==> Writable(used, ContractKey(a))
    {
      var k := ContractKey(a);
      r := GetAccount(k);
      var content, len := accounts[k].content, CONTRACT_LEN + |code|;
      var generation: u32, statics := 0, NoStatics();
      if content.Contract? {
        if |content.code| > 0 { return Fail(AlreadyInitialized); }
        generation, statics := content.generation, content.statics;
      } else if !content.Empty? {
        return Fail(BadTag);
      }
      MarkAccount(k, true);
      accounts := accounts[k := Entry(ctx.rent(len), len, Contract(chainId, generation, code, statics))];
    }

    method ProcessSetStatic(a: Address, i: nat, value: Word) returns (r: Outcome<Fault>)
      requires CacheOk() && KeyLoads(ctx, accounts, ContractKey(a)) && i < STATIC_SLOTS
      modifies this`accounts, this`used, this`cache
      ensures CacheOk() && MarksKept(ctx, old(accounts), old(used), accounts, used)
      ensures Wrote(accounts, r) == EvmWrites.SetStorage(ctx, old(accounts), a, i, value)
      ensures r.Pass? ==> Writable(used, ContractKey(a))
    {
      var k := ContractKey(a);
      r := GetAccount(k);
      var e := accounts[k];
      if e.content.Empty? {
        e := Entry(ctx.rent(CONTRACT_LEN), CONTRACT_LEN, Contract(0, 0, [], NoStatics()));
      } else if !e.content.Contract? {
        return Fail(BadTag);
      }
      e := e.(content := e.content.(statics := e.content.statics[i := value]));
      accounts := accounts[k := TopUp(ctx, e)];
      MarkAccount(k, true);
    }

    /** The second half of a dynamic write, on the loaded cell; writing zero to an absent cell does nothing. */
    method StoreSubCell(k: Key, subindex: u8, value: Word) returns (r: Outcome<Fault>)
      requires k in accounts
      modifies this`accounts, this`used
      ensures MarksKept(ctx, old(accounts), old(used), accounts, used)
      ensures Wrote(accounts, r) == StoreDynamic(ctx, old(accounts), k, subindex, value)
      ensures r.Pass? ==> Writable(used, k) || accounts == old(accounts)
    {
      var e := accounts[k];
      if e.content.Empty? {
        if value == 0 { return Pass; }
        e := Entry(ctx.rent(CELL_LEN), CELL_LEN, Cell([]));
      } else if !e.content.Cell? {
        return Fail(BadTag);
      }
      var cells := UpdateSubCell(e.content.cells, subindex, value);
      e := Entry(e.lamports, e.len + SUBCELL_LEN * (|cells| - |e.content.cells|), Cell(cells));
      accounts := accounts[k := TopUp(ctx, e)];
      MarkAccount(k, true);
      r := Pass;
    }

    method ProcessSetDynamic(a: Address, index: Word, value: Word) returns (r: Outcome<Fault>)
      requires CacheOk() && KeyLoads(ctx, accounts, SlotKey(a, SlotOf(index))) && index >= STATIC_SLOTS
      modifies this`accounts, this`used, this`cache
      ensures CacheOk() && MarksKept(ctx, old(accounts), old(used), accounts, used)
      ensures Wrote(accounts, r) == EvmWrites.SetStorage(ctx, old(accounts), a, index, value)
      ensures r.Pass? ==> Writable(used, SlotKey(a, SlotOf(index)))
                          || LoadPlain(ctx, old(accounts), SlotKey(a, SlotOf(index))) == Ok(accounts)
    {
      var subindex, cell := index % 256, (index / 256) % CELL_COUNT;
      r := GetAccount(CellKey(a, cell));
      r := StoreSubCell(CellKey(a, cell), subindex, value);
    }

    // ---- the storage as a plain machine ----

    /** What one write leaves valid. */
    lemma Refined(m: Accounts, u: Marks)
      requires Settled(ctx) && CacheOk() && FrameOk(ctx, m, u)
      requires FramesOk(ctx, callStack, u) && |logsStack| == |callStack| && EndsOk(logsStack, |logs|)
      requires MarksKept(ctx, m, u, accounts, used) && Good(ctx, accounts)
      ensures Valid()
    {
      forall i | 0 <= i < |callStack| ensures FrameOk(ctx, callStack[i], used) {
        FrameOkGrows(ctx, callStack[i], u, used);
      }
    }

    /** In every valid state, and in every saved copy: each loaded account is marked, and one that shows something else
        than the node does is marked writable. */
    lemma MarksTell(m: Accounts, k: Key)
      requires Valid() && (m == accounts || m in callStack) && k in m
      ensures k in used && (Seen(k, m[k].content) != Seen(k, NodeContent(ctx, k)) ==> used[k].isWritable)
    {
      assert FrameOk(ctx, m, used);
    }

    method Mint(a: Address, chainId: u64, value: Word) returns (r: Outcome<Fault>)
      requires Valid()
      modifies this`accounts, this`used, this`cache
      ensures Valid()
      ensures old(UpgradesLoaded()) ==> UpgradesLoaded()
      ensures Stepped(Abstract(), Replied(r)) ==
              Now(old(Abstract()), PlainWallet(old(Abstract()).now.plain, a, chainId, Minting(value)))
    {
      WriteWalletRefines(ctx, accounts, a, chainId, Minting(value));
      LoadWalletExtends(ctx, accounts, a, chainId);
      r := ProcessMint(a, chainId, value);
      Refined(old(accounts), old(used));
      assert Abstract().saved == old(Abstract()).saved;
    }

    method Burn(a: Address, chainId: u64, value: Word) returns (r: Outcome<Fault>)
      requires Valid()
      modifies this`accounts, this`used, this`cache
      ensures Valid()
      ensures old(UpgradesLoaded()) ==> UpgradesLoaded()
      ensures Stepped(Abstract(), Replied(r)) ==
              Now(old(Abstract()), PlainWallet(old(Abstract()).now.plain, a, chainId, Burning(value)))
    {
      WriteWalletRefines(ctx, accounts, a, chainId, Burning(value));
      LoadWalletExtends(ctx, accounts, a, chainId);
      r := ProcessBurn(a, chainId, value);
      Refined(old(accounts), old(used));
      assert Abstract().saved == old(Abstract()).saved;
    }

    /** Burn, then mint; when the mint is refused the burn stays. */
    method Transfer(from: Address, to: Address, chainId: u64, amount: Word) returns (r: Outcome<Fault>)
      requires Valid()
      modifies this`accounts, this`used, this`cache
      ensures Valid()
      ensures old(UpgradesLoaded()) ==> UpgradesLoaded()
      ensures Stepped(Abstract(), Replied(r)) ==
              Now(old(Abstract()), PlainTransfer(old(Abstract()).now.plain, from, to, chainId, amount))
    {
      r := Burn(from, chainId, amount);
      if r.Fail? { return; }
      r := Mint(to, chainId, amount);
    }

    method IncrementNonce(a: Address, chainId: u64) returns (r: Outcome<Fault>)
      requires Valid()
      modifies this`accounts, this`used, this`cache
      ensures Valid()
      ensures old(UpgradesLoaded()) ==> UpgradesLoaded()
      ensures Stepped(Abstract(), Replied(r)) ==
              Now(old(Abstract()), PlainWallet(old(Abstract()).now.plain, a, chainId, Bumping()))
    {
      WriteWalletRefines(ctx, accounts, a, chainId, Bumping());
      LoadWalletExtends(ctx, accounts, a, chainId);
      r := ProcessIncrementNonce(a, chainId);
      Refined(old(accounts), old(used));
      assert Abstract().saved == old(Abstract()).saved;
    }

    method SetCode(a: Address, chainId: u64, code: seq<u8>) returns (r: Outcome<Fault>)
      requires Valid()
      modifies this`accounts, this`used, this`cache
      ensures Valid()
      ensures old(UpgradesLoaded()) ==> UpgradesLoaded()
      ensures Stepped(Abstract(), Replied(r)) ==
              Now(old(Abstract()), PlainSetCode(old(Abstract()).now.plain, a, chainId, code))
    {
      SetCodeRefines(ctx, accounts, a, chainId, code);
      LoadPlainExtends(ctx, accounts, ContractKey(a));
      r := ProcessSetCode(a, chainId, code);
      Refined(old(accounts), old(used));
      assert Abstract().saved == old(Abstract()).saved;
    }

    /** A store that changes the slot marks its account writable; zero to a slot of an absent cell marks nothing. */
    method SetStorage(a: Address, index: Word, value: Word) returns (r: Outcome<Fault>)
      requires Valid()
      modifies this`accounts, this`used, this`cache
      ensures r.Pass? && value != old(Abstract()).now.plain.slots[(a, SlotOf(index))] ==>
                Writable(used, SlotKey(a, SlotOf(index)))
      ensures Valid()
      ensures old(UpgradesLoaded()) ==> UpgradesLoaded()
      ensures Stepped(Abstract(), Replied(r)) ==
              Now(old(Abstract()), PlainSetStorage(old(Abstract()).now.plain, a, index, value))
    {
      var k := SlotKey(a, SlotOf(index));
      SetStorageRefines(ctx, accounts, a, index, value);
      LoadPlainExtends(ctx, accounts, k);
      ExtendsContent(ctx, accounts, LoadPlain(ctx, accounts, k).value, k);
      if index < STATIC_SLOTS {
        r := ProcessSetStatic(a, index, value);
      } else {
        r := ProcessSetDynamic(a, index, value);
      }
      if !Writable(used, k) { NothingStored(ctx, old(accounts), a, index, value); }
      Refined(old(accounts), old(used));
      assert Abstract().saved == old(Abstract()).saved;
    }

    method CollectLog(log: Log)
      requires Valid()
      modifies this`logs
      ensures Valid() && Stepped(Abstract(), Ok(Done)) == Step(old(Abstract()), OpLog(log))
    {
      logs := logs + [log];
      assert forall i :: 0 <= i < |callStack| ==> logs[..logsStack[i]] == old(logs)[..logsStack[i]];
      assert Abstract().saved == old(Abstract()).saved;
    }

    method Snapshot()
      requires Valid()
      modifies this`callStack, this`logsStack
      ensures Valid() && Stepped(Abstract(), Ok(Done)) == Step(old(Abstract()), OpSnapshot)
      ensures callStack == old(callStack) + [accounts]
    {
      callStack := callStack + [accounts];
      logsStack := logsStack + [|logs|];
      assert logs[..|logs|] == logs;
      assert Abstract().saved == old(Abstract()).saved + [old(Abstract()).now];
    }

    lemma Popped(stack: seq<Accounts>, was: seq<Log>, ends: seq<nat>, last: nat)
      requires Settled(ctx) && CacheOk() && FramesOk(ctx, stack, used)
      requires |ends| == |stack| == last + 1 && EndsOk(ends, |was|)
      requires accounts == stack[last] && callStack == stack[..last]
      requires logs == was[..ends[last]] && logsStack == ends[..last]
      ensures Valid()
      ensures var frames := SavedFrames(ctx, stack, was, ends); Abstract() == Machine(frames[last], frames[..last])
    {
      SavedFramesPop(ctx, stack, was, ends, last);
      FramesOkPop(ctx, stack, used, last);
    }

    /** Back to the newest copy, accounts and logs; the marks stay. */
    method PopCopy()
      requires Valid() && |callStack| > 0
      modifies this`accounts, this`callStack, this`logs, this`logsStack, this`revertsBeforeCalls, this`revertsAfterCalls
      ensures Valid() && |logsStack| == |callStack| == |old(callStack)| - 1 && |logs| == old(logsStack)[|callStack|]
      ensures accounts == old(callStack)[|callStack|]
      ensures var saved := old(Abstract()).saved; Abstract() == Machine(saved[|callStack|], saved[..|callStack|])
    {
      var last := |callStack| - 1;
      if externalCall { revertsAfterCalls := true; } else { revertsBeforeCalls := true; }
      accounts, callStack, logs, logsStack :=
        callStack[last], callStack[..last], logs[..logsStack[last]], logsStack[..last];
      Popped(old(callStack), old(logs), old(logsStack), last);
    }

    /** Reverting stops at the source's own sanity check exactly when it returns to a first snapshot taken with logs
        already collected. */
    method RevertSnapshot() returns (r: Outcome<Fault>)
      requires Valid()
      modifies this`accounts, this`callStack, this`logs, this`logsStack, this`revertsBeforeCalls, this`revertsAfterCalls
      ensures Valid() && Stepped(Abstract(), Replied(r)) == Reverted(old(Abstract()))
      ensures r.Fail? <==> |old(callStack)| == 0 || (|old(callStack)| == 1 && old(logsStack)[0] > 0)
      ensures |old(callStack)| > 0 ==> accounts == old(callStack)[|old(callStack)| - 1]
    {
      if |callStack| == 0 { return Fail(Panic); }
      ghost var before := Abstract();
      PopCopy();
      RevertedTo(before, |callStack|, Abstract());
      if |logsStack| == 0 && logs != [] { return Fail(Panic); }
      r := Pass;
    }

    method CommitSnapshot() returns (r: Outcome<Fault>)
      requires Valid()
      modifies this`callStack, this`logsStack
      ensures Valid() && Stepped(Abstract(), Replied(r)) == Committed(old(Abstract()))
    {
      if |callStack| == 0 { return Fail(Panic); }
      callStack := callStack[..|callStack| - 1];
      logsStack := logsStack[..|logsStack| - 1];
      assert Abstract().saved == old(Abstract()).saved[..|callStack|];
      r := Pass;
    }

    method ApplyRead(op: Op) returns (r: Reply)
      requires Valid() && op.IsRead()
      modifies this`accounts, this`used, this`cache
      ensures Valid() && Stepped(Abstract(), Ok(r)) == Step(old(Abstract()), op)
      ensures old(UpgradesLoaded()) ==> UpgradesLoaded()
    {
      match op {
        case OpWallet(a, chainId) => { var w := GetWallet(a, chainId); r := GotWallet(w); }
        case OpContract(a) => { var deployed := GetContract(a); r := GotContract(deployed); }
        case OpSlot(a, index) => { var value := GetStorage(a, index); r := GotWord(value); }
      }
    }

    method ApplyWrite(op: Op) returns (r: Outcome<Fault>)
      requires Valid() && op.IsWrite()
      modifies this`accounts, this`used, this`cache
      ensures Valid() && Stepped(Abstract(), Replied(r)) == Step(old(Abstract()), op)
      ensures old(UpgradesLoaded()) ==> UpgradesLoaded()
    {
      match op {
        case OpSetStorage(a, index, value) => r := SetStorage(a, index, value);
        case OpSetCode(a, chainId, code) => r := SetCode(a, chainId, code);
        case OpIncrementNonce(a, chainId) => r := IncrementNonce(a, chainId);
        case OpTransfer(from, to, chainId, amount) => r := Transfer(from, to, chainId, amount);
      }
    }

    method Apply(op: Op) returns (r: Result<Reply, Fault>)
      requires Valid()
      modifies this
      ensures Valid() && Stepped(Abstract(), r) == Step(old(Abstract()), op)
      ensures old(UpgradesLoaded()) && !op.OpRevert? ==> UpgradesLoaded()
    {
      if op.IsRead() {
        var reply := ApplyRead(op);
        return Ok(reply);
      }
      var done: Outcome<Fault> := Pass;
      if op.IsWrite() {
        done := ApplyWrite(op);
      } else {
        match op {
          case OpLog(log) => CollectLog(log);
          case OpSnapshot => Snapshot();
          case OpRevert => done := RevertSnapshot();
          case OpCommit => done := CommitSnapshot();
        }
      }
      r := Replied(done);
    }

    /** Any run of reads, writes, logs, snapshots, reverts and commits is the same run of the plain machine, answer by
        answer. */
    method Replay(ops: seq<Op>) returns (answers: seq<Result<Reply, Fault>>)
      requires Valid()
      modifies this
      ensures Valid() && Abstract() == RunAll(old(Abstract()), ops).machine
      ensures answers == RunAll(old(Abstract()), ops).answers
      ensures old(UpgradesLoaded()) && (forall i :: 0 <= i < |ops| ==> !ops[i].OpRevert?) ==> UpgradesLoaded()
    {
      answers := [];
      for i := 0 to |ops|
        invariant Valid()
        invariant Ran(Abstract(), answers) == RunAll(old(Abstract()), ops[..i])
        invariant old(UpgradesLoaded()) && (forall j :: 0 <= j < i ==> !ops[j].OpRevert?) ==> UpgradesLoaded()
      {
        assert ops[..i + 1][..i] == ops[..i];
        var r := Apply(ops[i]);
        answers := answers + [r];
      }
      assert ops[..|ops|] == ops;
    }

    method SnapshotThenUpgrade(a: Address)
      requires Valid() && IsLegacyEther(ctx, a) && ContractKey(a) !in accounts
      modifies this`accounts, this`used, this`cache, this`callStack, this`logsStack
      ensures Valid() && callStack == old(callStack) + [old(accounts)]
      ensures EtherNoted(ctx, a, old(used), used) && cache == old(cache)[ContractKey(a) := ctx.rpc(ContractKey(a))]
    {
      Snapshot();
      var deployed := GetContract(a);
    }

    /** An upgrade after a snapshot outlives its account: reverting drops the account and keeps the note. */
    method UpgradeThenRevert(a: Address) returns (r: Outcome<Fault>)
      requires Valid() && IsLegacyEther(ctx, a) && ContractKey(a) !in accounts
      modifies this
      ensures accounts == old(accounts) && !UpgradesLoaded()
      ensures EtherNoted(ctx, a, old(used), used) && cache == old(cache)[ContractKey(a) := ctx.rpc(ContractKey(a))]
    {
      SnapshotThenUpgrade(a);
      r := RevertSnapshot();
    }

    /** One legacy account is upgraded and kept, another is upgraded and dropped by a revert. */
    method UpgradeTwoDropOne(x: Address, y: Address) returns (r: Outcome<Fault>)
      requires Valid() && accounts == map[] && used == map[] && x != y && IsLegacyEther(ctx, x) && IsLegacyEther(ctx, y)
      modifies this
      ensures LoadPlain(ctx, map[], ContractKey(x)) == Ok(accounts)
      ensures exists u :: EtherNoted(ctx, x, map[], u) && EtherNoted(ctx, y, u, used)
      ensures cache == old(cache)[ContractKey(x) := ctx.rpc(ContractKey(x))][ContractKey(y) := ctx.rpc(ContractKey(y))]
    {
      var deployed := GetContract(x);
      LoadedOnly(ctx, x);
      ghost var u := used;
      r := UpgradeThenRevert(y);
      assert EtherNoted(ctx, x, map[], u);
    }
  }
}

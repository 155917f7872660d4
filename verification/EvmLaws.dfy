/** What the plain machine promises: reverting undoes everything since its snapshot, committing keeps it, each write
    does exactly its part, and over a run nonces, balances, slots and logs add up. With the refinement these are facts
    about the emulator's storage. */
module EvmLaws {
  import opened Base
  import opened EvmAccounts
  import opened EvmLoading
  import opened EvmWrites
  import opened EvmStorage

  /** Snapshots inside less snapshots closed. */
  function Depth(ops: seq<Op>): int {
    if ops == [] then 0
    else
      var last := ops[|ops| - 1];
      Depth(ops[..|ops| - 1]) + (if last.OpSnapshot? then 1 else if last.OpRevert? || last.OpCommit? then -1 else 0)
  }

  /** No operation closes a snapshot it did not open. */
  predicate Nested(ops: seq<Op>) {
    forall i :: 0 <= i <= |ops| ==> Depth(ops[..i]) >= 0
  }

  lemma StepCopies(s: Machine, op: Op)
    requires TotalMachine(s)
    ensures var saved := Step(s, op).machine.saved;
            if op.OpSnapshot? then saved == s.saved + [s.now]
            else if op.OpRevert? || op.OpCommit? then |s.saved| > 0 ==> saved == s.saved[..|s.saved| - 1]
            else saved == s.saved
  {}

  /** Nested operations never touch the copies saved before them. */
  lemma {:induction false} NestedKeepsCopies(s: Machine, ops: seq<Op>)
    requires TotalMachine(s) && Nested(ops)
    ensures var r := RunAll(s, ops).machine;
            |r.saved| == |s.saved| + Depth(ops) && s.saved <= r.saved
  {
    assert ops[..|ops|] == ops;
    if ops != [] {
      var front := ops[..|ops| - 1];
      assert forall i :: 0 <= i <= |front| ==> front[..i] == ops[..i];
      NestedKeepsCopies(s, front);
      assert Depth(ops[..|ops|]) >= 0;
      StepCopies(RunAll(s, front).machine, ops[|ops| - 1]);
    }
  }

  lemma {:induction false} RunAllSplit(s: Machine, xs: seq<Op>, ys: seq<Op>)
    requires TotalMachine(s)
    ensures RunAll(s, xs + ys).machine == RunAll(RunAll(s, xs).machine, ys).machine
    decreases |ys|
  {
    if ys == [] {
      assert xs + ys == xs;
    } else {
      var front := ys[..|ys| - 1];
      assert (xs + ys)[..|xs + ys| - 1] == xs + front;
      RunAllSplit(s, xs, front);
    }
  }

  lemma RunOne(s: Machine, op: Op)
    requires TotalMachine(s)
    ensures RunAll(s, [op]).machine == Step(s, op).machine
  {
    assert [op][..0] == [];
    assert RunAll(s, []) == Ran(s, []);
  }

  lemma InsideSnapshot(s: Machine, ops: seq<Op>)
    requires TotalMachine(s) && Nested(ops) && Depth(ops) == 0
    ensures RunAll(s, [OpSnapshot] + ops).machine.saved == s.saved + [s.now]
  {
    SnapshotSaves(s);
    RunAfter(s, OpSnapshot, ops);
    NestedKeepsCopies(Step(s, OpSnapshot).machine, ops);
  }

  lemma SnapshotSaves(s: Machine)
    requires TotalMachine(s)
    ensures var inside := Step(s, OpSnapshot).machine; TotalMachine(inside) && inside.saved == s.saved + [s.now]
  {}

  lemma RunAfter(s: Machine, op: Op, ops: seq<Op>)
    requires TotalMachine(s)
    ensures TotalMachine(Step(s, op).machine)
    ensures RunAll(s, [op] + ops).machine == RunAll(Step(s, op).machine, ops).machine
  {
    StepTotal(s, op);
    RunOne(s, op);
    RunAllSplit(s, [op], ops);
  }

  lemma RunThen(s: Machine, ops: seq<Op>, op: Op)
    requires TotalMachine(s)
    ensures RunAll(s, ops + [op]).machine == Step(RunAll(s, ops).machine, op).machine
  {
    assert (ops + [op])[..|ops + [op]| - 1] == ops;
  }

  /** Snapshot, any properly nested operations, revert: the machine is back where it was, whatever they did. */
  lemma RevertUndoes(s: Machine, ops: seq<Op>)
    requires TotalMachine(s) && Nested(ops) && Depth(ops) == 0
    ensures RunAll(s, [OpSnapshot] + ops + [OpRevert]).machine == s
  {
    InsideSnapshot(s, ops);
    RunThen(s, [OpSnapshot] + ops, OpRevert);
    assert (s.saved + [s.now])[..|s.saved|] == s.saved;
  }

  lemma CommitDrops(s: Machine)
    requires TotalMachine(s) && |s.saved| > 0
    ensures Step(s, OpCommit).machine == s.(saved := s.saved[..|s.saved| - 1])
  {}

  /** Snapshot, nested operations, commit: their effect stays and the copy is gone. */
  lemma CommitKeeps(s: Machine, ops: seq<Op>)
    requires TotalMachine(s) && Nested(ops) && Depth(ops) == 0
    ensures var r := RunAll(s, [OpSnapshot] + ops + [OpCommit]).machine;
            r.saved == s.saved && r.now == RunAll(s, [OpSnapshot] + ops).machine.now
  {
    InsideSnapshot(s, ops);
    RunThen(s, [OpSnapshot] + ops, OpCommit);
    CommitDrops(RunAll(s, [OpSnapshot] + ops).machine);
    assert (s.saved + [s.now])[..|s.saved|] == s.saved;
  }

  /** A transfer that passes moves exactly the amount between two wallets and touches nothing else. It is refused for
      lack of funds without effect, and on overflow with the amount already gone from the sender. */
  lemma TransferExactly(p: Plain, from: Address, to: Address, chainId: u64, amount: Word)
    requires Total(p)
    ensures var r := PlainTransfer(p, from, to, chainId, amount);
            var x, y := p.wallets[(from, chainId)], p.wallets[(to, chainId)];
            && r.outcome == (if x.balance < amount then Fail(InsufficientBalance)
                             else if from != to && y.balance + amount > WORD_MAX then Fail(IntegerOverflow)
                             else Pass)
            && (r.plain == p <==> x.balance < amount || amount == 0 || from == to)
            && (from != to && r.outcome.Pass? ==>
                  r.plain.wallets[(from, chainId)] == x.(balance := x.balance - amount)
                  && r.plain.wallets[(to, chainId)] == y.(balance := y.balance + amount))
            && (forall k: (Address, u64) :: k != (from, chainId) && k != (to, chainId) ==>
                  k in r.plain.wallets && r.plain.wallets[k] == p.wallets[k])
            && r.plain.contracts == p.contracts && r.plain.slots == p.slots
  {
    var x, y := p.wallets[(from, chainId)], p.wallets[(to, chainId)];
    var r := PlainTransfer(p, from, to, chainId, amount);
    if x.balance >= amount {
      var burned := PlainWallet(p, from, chainId, Burning(amount)).plain;
      assert burned.wallets[(from, chainId)] == x.(balance := x.balance - amount);
      if from == to {
        assert burned.wallets[(from, chainId) := x] == p.wallets;
      } else if amount == 0 {
        assert burned.wallets == p.wallets;
        assert p.wallets[(to, chainId) := y] == p.wallets;
      } else {
        assert r.plain.wallets[(from, chainId)] != x;
      }
    }
  }

  /** Deploying code keeps every slot, static ones included; storing keeps every other slot, all wallets and all code.
      */
  lemma WritesAreLocal(p: Plain, a: Address, chainId: u64, code: seq<u8>, index: Word, value: Word)
    requires Total(p)
    ensures PlainSetCode(p, a, chainId, code).plain.slots == p.slots
    ensures var r := PlainSetStorage(p, a, index, value).plain;
            && r.slots[(a, SlotOf(index))] == value && r.wallets == p.wallets
            && (forall b: Address, j: Word :: SlotOf(j) != SlotOf(index) || b != a ==>
                  (b, SlotOf(j)) in r.slots && r.slots[(b, SlotOf(j))] == p.slots[(b, SlotOf(j))])
            && (forall b: Address :: b in r.contracts && (r.contracts[b].None? ==> p.contracts[b].None?)
                  && (p.contracts[b].Some? ==> r.contracts[b] == p.contracts[b]))
  {}

  /** What is read at index `j` after a write to index `i`, for every pair: the new value exactly when the two are
      equal, or both dynamic and equal modulo 2^232. */
  lemma IndexAliases(p: Plain, a: Address, i: Word, j: Word, value: Word)
    requires Total(p)
    ensures PlainSetStorage(p, a, i, value).plain.slots[(a, SlotOf(j))] ==
            if i == j || (i >= STATIC_SLOTS && j >= STATIC_SLOTS && i % (CELL_COUNT * 256) == j % (CELL_COUNT * 256))
            then value else p.slots[(a, SlotOf(j))]
  {
    SlotsShared(i, j);
  }

  // ---- what each operation does ----

  /** An increment is refused exactly at the largest nonce; otherwise the nonce is one more, and nothing else of the
      machine changes. */
  lemma IncrementExactly(s: Machine, a: Address, chainId: u64)
    requires TotalMachine(s)
    ensures var r, w := Step(s, OpIncrementNonce(a, chainId)), s.now.plain.wallets[(a, chainId)];
            if w.nonce == U64_MAX then r == Stepped(s, Err(NonceOverflow))
            else
              && r.answer == Ok(Done) && r.machine.saved == s.saved && r.machine.now.logs == s.now.logs
              && r.machine.now.plain.contracts == s.now.plain.contracts
              && r.machine.now.plain.slots == s.now.plain.slots
              && TotalMachine(r.machine)
              && (forall k: (Address, u64) :: r.machine.now.plain.wallets[k] ==
                    if k == (a, chainId) then Wallet(w.nonce + 1, w.balance) else s.now.plain.wallets[k])
  {}

  /** A deployment is refused exactly over code; otherwise the address holds exactly the chain and code given, and
      nothing else of the machine changes. */
  lemma DeployExactly(s: Machine, a: Address, chainId: u64, code: seq<u8>)
    requires TotalMachine(s)
    ensures var r, before := Step(s, OpSetCode(a, chainId, code)), s.now.plain.contracts[a];
            if before.Some? && before.value.code != [] then r == Stepped(s, Err(AlreadyInitialized))
            else
              && r.answer == Ok(Done) && r.machine.saved == s.saved && r.machine.now.logs == s.now.logs
              && r.machine.now.plain.wallets == s.now.plain.wallets
              && r.machine.now.plain.slots == s.now.plain.slots
              && TotalMachine(r.machine)
              && (forall b: Address :: r.machine.now.plain.contracts[b] ==
                    if b == a then Some(Deployed(chainId, code)) else s.now.plain.contracts[b])
  {}

  /** Two indices name one slot: they are equal, or both dynamic and equal modulo 2^232. */
  predicate SameSlot(i: Word, j: Word) {
    i == j || (i >= STATIC_SLOTS && j >= STATIC_SLOTS && i % (CELL_COUNT * 256) == j % (CELL_COUNT * 256))
  }

  /** A store never fails. It makes a contract without code exactly where one of the first 64 slots is set at an
      address without a contract. */
  lemma StoreExactly(s: Machine, a: Address, index: Word, value: Word)
    requires TotalMachine(s)
    ensures var r := Step(s, OpSetStorage(a, index, value));
            && r.answer == Ok(Done) && r.machine.saved == s.saved && r.machine.now.logs == s.now.logs
            && r.machine.now.plain.wallets == s.now.plain.wallets
            && TotalMachine(r.machine)
            && (forall b: Address, j: Word :: r.machine.now.plain.slots[(b, SlotOf(j))] ==
                  if b == a && SameSlot(index, j) then value else s.now.plain.slots[(b, SlotOf(j))])
            && (forall b: Address :: r.machine.now.plain.contracts[b] ==
                  if b == a && index < 64 && s.now.plain.contracts[a].None? then Some(Deployed(0, []))
                  else s.now.plain.contracts[b])
  {
    forall j: Word ensures SlotOf(index) == SlotOf(j) <==> SameSlot(index, j) { SlotsShared(index, j); }
  }

  // ---- over whole runs ----

  predicate Forward(ops: seq<Op>) {
    forall i :: 0 <= i < |ops| ==> !ops[i].OpRevert?
  }

  type Answers = seq<Result<Reply, Fault>>

  /** One, for an increment of the wallet that passed. */
  function Bump(op: Op, answer: Result<Reply, Fault>, a: Address, chainId: u64): nat {
    if op == OpIncrementNonce(a, chainId) && answer == Ok(Done) then 1 else 0
  }

  /** What a transfer brings the wallet less what it takes: one refused for lack of funds takes nothing, one whose
      receiver overflows takes the amount all the same. */
  function Gain(op: Op, answer: Result<Reply, Fault>, a: Address, chainId: u64): int {
    if !op.OpTransfer? || op.chainId != chainId then 0
    else (if op.to == a && answer == Ok(Done) then op.amount else 0)
         - (if op.from == a && answer != Err(InsufficientBalance) then op.amount else 0)
  }

  function Increments(ops: seq<Op>, answers: Answers, a: Address, chainId: u64): nat
    requires |answers| == |ops|
  {
    if ops == [] then 0
    else
      var n := |ops| - 1;
      Increments(ops[..n], answers[..n], a, chainId) + Bump(ops[n], answers[n], a, chainId)
  }

  function Received(ops: seq<Op>, answers: Answers, a: Address, chainId: u64): int
    requires |answers| == |ops|
  {
    if ops == [] then 0
    else
      var n := |ops| - 1;
      Received(ops[..n], answers[..n], a, chainId) + Gain(ops[n], answers[n], a, chainId)
  }

  /** How one step moves a wallet. */
  lemma WalletStep(s: Machine, op: Op, a: Address, chainId: u64)
    requires TotalMachine(s) && !op.OpRevert?
    ensures var r := Step(s, op);
            var w, w' := s.now.plain.wallets[(a, chainId)], r.machine.now.plain.wallets[(a, chainId)];
            w'.nonce == w.nonce + Bump(op, r.answer, a, chainId)
            && w'.balance == w.balance + Gain(op, r.answer, a, chainId)
  {
    if op.OpTransfer? {
      TransferExactly(s.now.plain, op.from, op.to, op.chainId, op.amount);
    }
  }

  /** On every run without a revert: a wallet reads as it did, with its nonce up by the increments that passed and its
      balance by what transfers brought less what they took. */
  lemma {:induction false} WalletAccounted(s: Machine, ops: seq<Op>, a: Address, chainId: u64)
    requires TotalMachine(s) && Forward(ops)
    ensures var r := RunAll(s, ops);
            && |r.answers| == |ops|
            && var w, w' := s.now.plain.wallets[(a, chainId)], r.machine.now.plain.wallets[(a, chainId)];
               && w'.nonce == w.nonce + Increments(ops, r.answers, a, chainId)
               && w'.balance == w.balance + Received(ops, r.answers, a, chainId)
               && Step(r.machine, OpWallet(a, chainId)) == Stepped(r.machine, Ok(GotWallet(w')))
  {
    if ops != [] {
      var n := |ops| - 1;
      WalletAccounted(s, ops[..n], a, chainId);
      var before := RunAll(s, ops[..n]);
      WalletStep(before.machine, ops[n], a, chainId);
      assert RunAll(s, ops).answers[..n] == before.answers;
    }
  }

  /** The value last stored where index `j` of `a` is read, or the one from the start. */
  function LastStored(ops: seq<Op>, a: Address, j: Word, start: Word): Word {
    if ops == [] then start
    else
      var last := ops[|ops| - 1];
      if last.OpSetStorage? && last.address == a && SameSlot(last.index, j) then last.value
      else LastStored(ops[..|ops| - 1], a, j, start)
  }

  function Logged(ops: seq<Op>): seq<Log> {
    if ops == [] then []
    else
      var last := ops[|ops| - 1];
      Logged(ops[..|ops| - 1]) + if last.OpLog? then [last.log] else []
  }

  lemma SlotStep(s: Machine, op: Op, a: Address, j: Word)
    requires TotalMachine(s) && !op.OpRevert?
    ensures var r := Step(s, op).machine;
            && r.now.plain.slots[(a, SlotOf(j))] ==
               (if op.OpSetStorage? && op.address == a && SameSlot(op.index, j) then op.value
                else s.now.plain.slots[(a, SlotOf(j))])
            && r.now.logs == s.now.logs + if op.OpLog? then [op.log] else []
  {
    if op.OpSetStorage? { StoreExactly(s, op.address, op.index, op.value); }
  }

  /** On every run without a revert: a slot reads as what was last stored in it, and the logs are those emitted, in
      order. */
  lemma {:induction false} StoresAndLogs(s: Machine, ops: seq<Op>, a: Address, j: Word)
    requires TotalMachine(s) && Forward(ops)
    ensures var r, value := RunAll(s, ops).machine, LastStored(ops, a, j, s.now.plain.slots[(a, SlotOf(j))]);
            && r.now.plain.slots[(a, SlotOf(j))] == value
            && Step(r, OpSlot(a, j)) == Stepped(r, Ok(GotWord(value)))
            && r.now.logs == s.now.logs + Logged(ops)
  {
    if ops != [] {
      var front := ops[..|ops| - 1];
      StoresAndLogs(s, front, a, j);
      SlotStep(RunAll(s, front).machine, ops[|ops| - 1], a, j);
    }
  }

  lemma CodeStep(s: Machine, op: Op, a: Address)
    requires TotalMachine(s) && !op.OpRevert? && s.now.plain.contracts[a].Some?
    requires s.now.plain.contracts[a].value.code != []
    ensures Step(s, op).machine.now.plain.contracts[a] == s.now.plain.contracts[a]
  {}

  /** On every run without a revert, deployed code stays as it is. */
  lemma {:induction false} CodeStays(s: Machine, ops: seq<Op>, a: Address)
    requires TotalMachine(s) && Forward(ops)
    requires s.now.plain.contracts[a].Some? && s.now.plain.contracts[a].value.code != []
    ensures var r, contract := RunAll(s, ops).machine, s.now.plain.contracts[a];
            r.now.plain.contracts[a] == contract && Step(r, OpContract(a)) == Stepped(r, Ok(GotContract(contract)))
  {
    if ops != [] {
      var front := ops[..|ops| - 1];
      CodeStays(s, front, a);
      CodeStep(RunAll(s, front).machine, ops[|ops| - 1], a);
    }
  }
}

/** The rent the emulator reports: lamports spent on upgrading legacy accounts, and lamports the run itself adds. */
module EvmRent {
  import opened Base
  import opened EvmAccounts
  import opened EvmLoading
  import opened EvmStorage
  import MapSums

  type Cache = map<Key, Option<RpcAccount>>

  const SYSTEM_KEY := OtherKey(0)

  /** Lamports the node reported for a key, zero for an account it does not know. */
  function Original(cache: Cache, k: Key): u64 {
    if k in cache && cache[k].Some? then cache[k].value.lamports else 0
  }

  /** What an account had when the run proper began. */
  function Starting(used: Marks, cache: Cache, k: Key): u64 {
    if Upgraded(used, k) then used[k].lamportsAfterUpgrade.value else Original(cache, k)
  }

  function Excess(a: int, b: int): int { if a > b then a - b else 0 }

  ghost function Spends(used: Marks, cache: Cache): map<Key, int> {
    map k | k in used && Upgraded(used, k) :: Excess(Starting(used, cache, k), Original(cache, k))
  }

  ghost function Collects(used: Marks, cache: Cache): map<Key, int> {
    map k | k in used && Upgraded(used, k) :: Excess(Original(cache, k), Starting(used, cache, k))
  }

  ghost function Olds(used: Marks, cache: Cache, accounts: Accounts): map<Key, int> {
    map k | k in accounts && k != SYSTEM_KEY :: Starting(used, cache, k)
  }

  ghost function News(accounts: Accounts): map<Key, int> {
    map k | k in accounts && k != SYSTEM_KEY :: accounts[k].lamports
  }

  /** What the accounts gained, one by one, over what the node reported. */
  ghost function Gains(cache: Cache, accounts: Accounts): map<Key, int> {
    map k | k in accounts && k != SYSTEM_KEY :: accounts[k].lamports - Original(cache, k)
  }

  lemma UpgradeAt(used: Marks, cache: Cache, k: Key)
    requires k in used
    ensures MapSums.At(Spends(used, cache), k) ==
            if Upgraded(used, k) then Excess(Starting(used, cache, k), Original(cache, k)) else 0
    ensures MapSums.At(Collects(used, cache), k) ==
            if Upgraded(used, k) then Excess(Original(cache, k), Starting(used, cache, k)) else 0
  {}

  /** The two sums over some of the used accounts. */
  ghost function SpendOver(used: Marks, cache: Cache, done: set<Key>): int {
    MapSums.Sum(MapSums.Restrict(Spends(used, cache), done))
  }

  ghost function CollectOver(used: Marks, cache: Cache, done: set<Key>): int {
    MapSums.Sum(MapSums.Restrict(Collects(used, cache), done))
  }

  lemma UpgradeStep(used: Marks, cache: Cache, done: set<Key>, k: Key)
    requires k in used && k !in done
    ensures SpendOver(used, cache, done + {k}) == SpendOver(used, cache, done)
            + if Upgraded(used, k) then Excess(Starting(used, cache, k), Original(cache, k)) else 0
    ensures CollectOver(used, cache, done + {k}) == CollectOver(used, cache, done)
            + if Upgraded(used, k) then Excess(Original(cache, k), Starting(used, cache, k)) else 0
  {
    MapSums.RestrictStep(Spends(used, cache), done, k);
    MapSums.RestrictStep(Collects(used, cache), done, k);
    UpgradeAt(used, cache, k);
  }

  lemma UpgradeBound(used: Marks, cache: Cache, done: set<Key>)
    ensures SpendOver(used, cache, done) <= MapSums.Sum(Spends(used, cache))
    ensures CollectOver(used, cache, done) <= MapSums.Sum(Collects(used, cache))
  {
    MapSums.RestrictBound(Spends(used, cache), done);
    MapSums.RestrictBound(Collects(used, cache), done);
  }

  lemma UpgradeWhole(used: Marks, cache: Cache)
    ensures SpendOver(used, cache, used.Keys) == MapSums.Sum(Spends(used, cache)) && SpendOver(used, cache, {}) == 0
    ensures CollectOver(used, cache, used.Keys) == MapSums.Sum(Collects(used, cache))
    ensures CollectOver(used, cache, {}) == 0
  {
    assert MapSums.Restrict(Spends(used, cache), used.Keys) == Spends(used, cache);
    assert MapSums.Restrict(Collects(used, cache), used.Keys) == Collects(used, cache);
    MapSums.AllZero(MapSums.Restrict(Spends(used, cache), {}));
    MapSums.AllZero(MapSums.Restrict(Collects(used, cache), {}));
  }

  /** The running sums after one more account, and what passing 64 bits means for the whole. */
  lemma UpgradeTurn(used: Marks, cache: Cache, done: set<Key>, k: Key, spend: int, collected: int)
    requires k in used && k !in done
    requires spend == SpendOver(used, cache, done)
                      + if Upgraded(used, k) then Excess(Starting(used, cache, k), Original(cache, k)) else 0
    requires collected == CollectOver(used, cache, done)
                          + if Upgraded(used, k) then Excess(Original(cache, k), Starting(used, cache, k)) else 0
    ensures spend == SpendOver(used, cache, done + {k}) <= MapSums.Sum(Spends(used, cache))
    ensures collected == CollectOver(used, cache, done + {k}) <= MapSums.Sum(Collects(used, cache))
  {
    UpgradeStep(used, cache, done, k);
    UpgradeBound(used, cache, done + {k});
  }

  /** One used account's part in the two sums of `get_upgrade_rent`. */
  method UpgradePart(mark: Mark, before: u64) returns (spend: u64, collected: u64)
    ensures mark.lamportsAfterUpgrade.None? ==> spend == collected == 0
    ensures mark.lamportsAfterUpgrade.Some? ==> spend == Excess(mark.lamportsAfterUpgrade.value, before)
                                                && collected == Excess(before, mark.lamportsAfterUpgrade.value)
  {
    spend, collected := 0, 0;
    if mark.lamportsAfterUpgrade.Some? {
      var after := mark.lamportsAfterUpgrade.value;
      if after > before { spend := after - before; } else { collected := before - after; }
    }
  }

  /** `get_upgrade_rent`: two running sums over the used accounts, in whatever order the map yields them. */
  method UpgradeRent(used: Marks, cache: Cache) returns (r: Result<u64, Fault>)
    ensures var spend, collected := MapSums.Sum(Spends(used, cache)), MapSums.Sum(Collects(used, cache));
            if spend > U64_MAX || collected > U64_MAX then r == Err(Panic) else r == Ok(Excess(spend, collected))
  {
    var spend, collected, rest := 0, 0, used.Keys;
    UpgradeWhole(used, cache);
    assert used.Keys - rest == {};
    while rest != {}
      invariant rest <= used.Keys
      invariant spend == SpendOver(used, cache, used.Keys - rest) && spend <= U64_MAX
      invariant collected == CollectOver(used, cache, used.Keys - rest) && collected <= U64_MAX
      decreases rest
    {
      var k :| k in rest;
      var s, c := UpgradePart(used[k], Original(cache, k));
      spend, collected := spend + s, collected + c;
      UpgradeTurn(used, cache, used.Keys - rest, k, spend, collected);
      if spend > U64_MAX || collected > U64_MAX { return Err(Panic); }
      assert used.Keys - rest + {k} == used.Keys - (rest - {k});
      rest := rest - {k};
    }
    assert used.Keys - rest == used.Keys;
    r := Ok(Excess(spend, collected));
  }

  /** The two sums of `get_regular_rent` over some of the accounts. */
  ghost function OldOver(accounts: Accounts, used: Marks, cache: Cache, done: set<Key>): int {
    MapSums.Sum(MapSums.Restrict(Olds(used, cache, accounts), done))
  }

  ghost function NewOver(accounts: Accounts, done: set<Key>): int {
    MapSums.Sum(MapSums.Restrict(News(accounts), done))
  }

  lemma RegularStep(accounts: Accounts, used: Marks, cache: Cache, done: set<Key>, k: Key)
    requires k in accounts && k !in done
    ensures OldOver(accounts, used, cache, done + {k}) == OldOver(accounts, used, cache, done)
            + if k == SYSTEM_KEY then 0 else Starting(used, cache, k)
    ensures NewOver(accounts, done + {k}) == NewOver(accounts, done)
            + if k == SYSTEM_KEY then 0 else accounts[k].lamports
  {
    MapSums.RestrictStep(Olds(used, cache, accounts), done, k);
    MapSums.RestrictStep(News(accounts), done, k);
  }

  lemma RegularBound(accounts: Accounts, used: Marks, cache: Cache, done: set<Key>)
    ensures OldOver(accounts, used, cache, done) <= MapSums.Sum(Olds(used, cache, accounts))
    ensures NewOver(accounts, done) <= MapSums.Sum(News(accounts))
  {
    MapSums.RestrictBound(Olds(used, cache, accounts), done);
    MapSums.RestrictBound(News(accounts), done);
  }

  lemma RegularWhole(accounts: Accounts, used: Marks, cache: Cache)
    ensures OldOver(accounts, used, cache, accounts.Keys) == MapSums.Sum(Olds(used, cache, accounts))
    ensures NewOver(accounts, accounts.Keys) == MapSums.Sum(News(accounts))
    ensures OldOver(accounts, used, cache, {}) == 0 && NewOver(accounts, {}) == 0
  {
    assert MapSums.Restrict(Olds(used, cache, accounts), accounts.Keys) == Olds(used, cache, accounts);
    assert MapSums.Restrict(News(accounts), accounts.Keys) == News(accounts);
    MapSums.AllZero(MapSums.Restrict(Olds(used, cache, accounts), {}));
    MapSums.AllZero(MapSums.Restrict(News(accounts), {}));
  }

  lemma RegularTurn(accounts: Accounts, used: Marks, cache: Cache, done: set<Key>, k: Key, before: int, now: int)
    requires k in accounts && k !in done
    requires before == OldOver(accounts, used, cache, done) + if k == SYSTEM_KEY then 0 else Starting(used, cache, k)
    requires now == NewOver(accounts, done) + if k == SYSTEM_KEY then 0 else accounts[k].lamports
    ensures before == OldOver(accounts, used, cache, done + {k}) <= MapSums.Sum(Olds(used, cache, accounts))
    ensures now == NewOver(accounts, done + {k}) <= MapSums.Sum(News(accounts))
  {
    RegularStep(accounts, used, cache, done, k);
    RegularBound(accounts, used, cache, done + {k});
  }

  /** `get_regular_rent`: the system program's own account is not counted. */
  method RegularRent(accounts: Accounts, used: Marks, cache: Cache) returns (r: Result<u64, Fault>)
    ensures var before, now := MapSums.Sum(Olds(used, cache, accounts)), MapSums.Sum(News(accounts));
            if before > U64_MAX || now > U64_MAX then r == Err(Panic) else r == Ok(Excess(now, before))
  {
    var before, now, rest := 0, 0, accounts.Keys;
    RegularWhole(accounts, used, cache);
    assert accounts.Keys - rest == {};
    while rest != {}
      invariant rest <= accounts.Keys
      invariant before == OldOver(accounts, used, cache, accounts.Keys - rest) && before <= U64_MAX
      invariant now == NewOver(accounts, accounts.Keys - rest) && now <= U64_MAX
      decreases rest
    {
      var k :| k in rest;
      if k != SYSTEM_KEY {
        before := before + Starting(used, cache, k);
        now := now + accounts[k].lamports;
      }
      RegularTurn(accounts, used, cache, accounts.Keys - rest, k, before, now);
      if before > U64_MAX || now > U64_MAX { return Err(Panic); }
      assert accounts.Keys - rest + {k} == accounts.Keys - (rest - {k});
      rest := rest - {k};
    }
    assert accounts.Keys - rest == accounts.Keys;
    r := Ok(Excess(now, before));
  }

  // ---- what the report covers ----

  /** Accounts the regular rent does not look at: no longer loaded, or the system program. */
  predicate Dropped(accounts: Accounts, k: Key) { k !in accounts || k == SYSTEM_KEY }

  /** What upgrading accounts that were dropped since had cost, one by one; less than zero where it had freed
      lamports. */
  ghost function Losses(accounts: Accounts, used: Marks, cache: Cache): map<Key, int> {
    map k | k in used && Upgraded(used, k) && Dropped(accounts, k) :: Starting(used, cache, k) - Original(cache, k)
  }

  /** What came in, account by account: spent on the upgrade, or there at the end. */
  ghost function Inflow(accounts: Accounts, used: Marks, cache: Cache): map<Key, int> {
    map k | k in used.Keys + accounts.Keys :: MapSums.At(Spends(used, cache), k) + MapSums.At(News(accounts), k)
  }

  /** What it is set against: collected by the upgrade, or there at the start. */
  ghost function Outflow(accounts: Accounts, used: Marks, cache: Cache): map<Key, int> {
    map k | k in used.Keys + accounts.Keys ::
      MapSums.At(Collects(used, cache), k) + MapSums.At(Olds(used, cache, accounts), k)
  }

  /** The difference, for every account the report touches. */
  ghost function Net(accounts: Accounts, used: Marks, cache: Cache): map<Key, int> {
    map k | k in used.Keys + accounts.Keys ::
      MapSums.At(Gains(cache, accounts), k) + MapSums.At(Losses(accounts, used, cache), k)
  }

  lemma InflowSum(accounts: Accounts, used: Marks, cache: Cache)
    ensures MapSums.Sum(Spends(used, cache)) + MapSums.Sum(News(accounts)) == MapSums.Sum(Inflow(accounts, used, cache))
  {
    MapSums.SumAdds(Spends(used, cache), News(accounts), Inflow(accounts, used, cache));
  }

  lemma OutflowSum(accounts: Accounts, used: Marks, cache: Cache)
    ensures MapSums.Sum(Collects(used, cache)) + MapSums.Sum(Olds(used, cache, accounts)) ==
            MapSums.Sum(Outflow(accounts, used, cache))
  {
    MapSums.SumAdds(Collects(used, cache), Olds(used, cache, accounts), Outflow(accounts, used, cache));
  }

  lemma NetSum(accounts: Accounts, used: Marks, cache: Cache)
    ensures MapSums.Sum(Gains(cache, accounts)) + MapSums.Sum(Losses(accounts, used, cache)) ==
            MapSums.Sum(Net(accounts, used, cache))
  {
    MapSums.SumAdds(Gains(cache, accounts), Losses(accounts, used, cache), Net(accounts, used, cache));
  }

  lemma NetAt(accounts: Accounts, used: Marks, cache: Cache, k: Key)
    ensures MapSums.At(Net(accounts, used, cache), k) + MapSums.At(Outflow(accounts, used, cache), k) ==
            MapSums.At(Inflow(accounts, used, cache), k)
  {
    CostAt(used, cache, k);
    GainAt(accounts, used, cache, k);
  }

  lemma GainAt(accounts: Accounts, used: Marks, cache: Cache, k: Key)
    ensures MapSums.At(Gains(cache, accounts), k) + MapSums.At(Losses(accounts, used, cache), k) ==
            (if Upgraded(used, k) then AfterUpgrade(used, k).value - Original(cache, k) else 0)
            + MapSums.At(News(accounts), k) - MapSums.At(Olds(used, cache, accounts), k)
  {}

  lemma FlowsBalance(accounts: Accounts, used: Marks, cache: Cache)
    ensures MapSums.Sum(Net(accounts, used, cache)) + MapSums.Sum(Outflow(accounts, used, cache)) ==
            MapSums.Sum(Inflow(accounts, used, cache))
  {
    forall k ensures MapSums.At(Net(accounts, used, cache), k) + MapSums.At(Outflow(accounts, used, cache), k) ==
                     MapSums.At(Inflow(accounts, used, cache), k)
    {
      NetAt(accounts, used, cache, k);
    }
    MapSums.SumAdds(Net(accounts, used, cache), Outflow(accounts, used, cache), Inflow(accounts, used, cache));
  }

  /** The two parts of the report, before they are checked against 64 bits. */
  ghost function Reported(accounts: Accounts, used: Marks, cache: Cache): int {
    Excess(MapSums.Sum(Spends(used, cache)), MapSums.Sum(Collects(used, cache)))
    + Excess(MapSums.Sum(News(accounts)), MapSums.Sum(Olds(used, cache, accounts)))
  }

  /** What the two parts lose by being cut off at zero. */
  ghost function CutOff(accounts: Accounts, used: Marks, cache: Cache): int {
    Excess(MapSums.Sum(Collects(used, cache)), MapSums.Sum(Spends(used, cache)))
    + Excess(MapSums.Sum(Olds(used, cache, accounts)), MapSums.Sum(News(accounts)))
  }

  /** What the report is worth in every state: what the loaded accounts gained over the node's answers, what upgrading
      dropped ones had cost, and what was cut off. */
  lemma RentIs(accounts: Accounts, used: Marks, cache: Cache)
    ensures Reported(accounts, used, cache) == MapSums.Sum(Gains(cache, accounts))
                                               + MapSums.Sum(Losses(accounts, used, cache))
                                               + CutOff(accounts, used, cache)
  {
    InflowSum(accounts, used, cache);
    OutflowSum(accounts, used, cache);
    NetSum(accounts, used, cache);
    FlowsBalance(accounts, used, cache);
  }

  /** Rent is never under-reported while every upgraded account is still loaded, and exact when nothing is cut off. */
  lemma RentCovers(accounts: Accounts, used: Marks, cache: Cache)
    requires StillLoaded(accounts, used)
    ensures var gained := MapSums.Sum(Gains(cache, accounts));
            && Reported(accounts, used, cache) >= gained
            && (Reported(accounts, used, cache) == gained <==>
                  MapSums.Sum(Spends(used, cache)) >= MapSums.Sum(Collects(used, cache))
                  && MapSums.Sum(News(accounts)) >= MapSums.Sum(Olds(used, cache, accounts)))
  {
    RentIs(accounts, used, cache);
    MapSums.AllZero(Losses(accounts, used, cache));
  }

  /** Rent is under-reported exactly when the upgrades of dropped accounts had freed more lamports, on balance, than
      were cut off. */
  lemma UnderReportedExactly(accounts: Accounts, used: Marks, cache: Cache)
    ensures Reported(accounts, used, cache) < MapSums.Sum(Gains(cache, accounts))
       <==> MapSums.Sum(Losses(accounts, used, cache)) < 0 - CutOff(accounts, used, cache)
  {
    RentIs(accounts, used, cache);
  }

  /** `get_changes_in_rent`. */
  method ChangesInRent(accounts: Accounts, used: Marks, cache: Cache) returns (r: Result<int, Fault>)
    ensures r.Ok? <==> && MapSums.Sum(Spends(used, cache)) <= U64_MAX && MapSums.Sum(Collects(used, cache)) <= U64_MAX
                       && MapSums.Sum(Olds(used, cache, accounts)) <= U64_MAX && MapSums.Sum(News(accounts)) <= U64_MAX
                       && Reported(accounts, used, cache) <= U64_MAX
    ensures r.Ok? ==> r.value == Reported(accounts, used, cache)
    ensures r.Ok? && StillLoaded(accounts, used) ==> r.value >= MapSums.Sum(Gains(cache, accounts))
  {
    var upgrade := UpgradeRent(used, cache);
    if upgrade.Err? { return Err(upgrade.error); }
    var regular := RegularRent(accounts, used, cache);
    if regular.Err? { return Err(regular.error); }
    if upgrade.value + regular.value > U64_MAX { return Err(Panic); }
    if StillLoaded(accounts, used) { RentCovers(accounts, used, cache); }
    r := Ok(upgrade.value + regular.value);
  }

  /** After any run without a revert, from a state in which no upgraded account is missing, such as a new emulator's,
      the report covers what the accounts gained. */
  method RentOfRun(emulator: Emulator, ops: seq<Op>) returns (r: Result<int, Fault>)
    requires emulator.Valid() && emulator.UpgradesLoaded() && forall i :: 0 <= i < |ops| ==> !ops[i].OpRevert?
    modifies emulator
    ensures r.Ok? ==> r.value >= MapSums.Sum(Gains(emulator.cache, emulator.accounts))
  {
    var answers := emulator.Replay(ops);
    r := ChangesInRent(emulator.accounts, emulator.used, emulator.cache);
  }

  // ---- a run that under-reports ----

  lemma SumOfTwo(w: map<Key, int>, a: Key, b: Key)
    requires a != b && forall k :: k != a && k != b ==> MapSums.At(w, k) == 0
    ensures MapSums.Sum(w) == MapSums.At(w, a) + MapSums.At(w, b)
  {
    MapSums.RemoveAt(w, a);
    MapSums.RemoveAt(w - {a}, b);
    forall k | k in w - {a} - {b} ensures (w - {a} - {b})[k] == 0 { assert MapSums.At(w, k) == 0; }
    MapSums.AllZero(w - {a} - {b});
  }

  lemma SumOfFour(w: map<Key, int>, a: Key, b: Key, c: Key, d: Key)
    requires a != b && a != c && a != d && b != c && b != d && c != d
    requires forall k :: k != a && k != b && k != c && k != d ==> MapSums.At(w, k) == 0
    ensures MapSums.Sum(w) == MapSums.At(w, a) + MapSums.At(w, b) + MapSums.At(w, c) + MapSums.At(w, d)
  {
    MapSums.RemoveAt(w, a);
    MapSums.RemoveAt(w - {a}, b);
    var rest := w - {a} - {b};
    forall k | k != c && k != d ensures MapSums.At(rest, k) == 0 { assert k != a && k != b ==> MapSums.At(w, k) == 0; }
    SumOfTwo(rest, c, d);
  }

  /** What upgrading a legacy account costs: the lamports its two halves end up with, less those the node reports. */
  function UpgradeCost(ctx: Ctx, cache: Cache, a: Address): int
    requires IsLegacyEther(ctx, a)
  {
    var body := BodyAt(ctx, ContractKey(a));
    WalletLamports(ctx, body) + ContractLamports(ctx, body)
    - Original(cache, BalanceKey(a, ctx.defaultChain)) - ctx.rpc(ContractKey(a)).value.lamports
  }

  /** There are accounts of either sort: one with a wallet alone that holds less than a balance account must costs, one
      with nothing to convert frees whatever it holds. */
  lemma CostsAndFrees(ctx: Ctx, cache: Cache, x: Address, y: Address)
    requires NoClash(ctx) && forall k :: k in cache ==> cache[k] == ctx.rpc(k)
    requires IsLegacyEther(ctx, x)
    requires HasWallet(BodyAt(ctx, ContractKey(x))) && !HasContract(BodyAt(ctx, ContractKey(x)))
    requires ctx.rpc(ContractKey(x)).value.lamports < ctx.rent(BALANCE_LEN)
    requires IsLegacyEther(ctx, y)
    requires !HasWallet(BodyAt(ctx, ContractKey(y))) && !HasContract(BodyAt(ctx, ContractKey(y)))
    requires ctx.rpc(ContractKey(y)).value.lamports > 0
    ensures UpgradeCost(ctx, cache, x) > 0 > UpgradeCost(ctx, cache, y)
  {
    assert NoClashAt(ctx, x);
  }

  /** The answers kept after both contracts were asked for. */
  function BothAsked(ctx: Ctx, cache: Cache, x: Address, y: Address): Cache {
    cache[ContractKey(x) := ctx.rpc(ContractKey(x))][ContractKey(y) := ctx.rpc(ContractKey(y))]
  }

  /** The marks after `x` and then `y` were upgraded, on a storage with none. */
  ghost predicate BothNoted(ctx: Ctx, x: Address, y: Address, used: Marks) {
    exists u :: EtherNoted(ctx, x, map[], u) && EtherNoted(ctx, y, u, used)
  }

  /** What is noted under each key then. */
  lemma NotedAt(ctx: Ctx, used: Marks, x: Address, y: Address, k: Key)
    requires x != y && IsLegacyEther(ctx, x) && IsLegacyEther(ctx, y) && BothNoted(ctx, x, y, used)
    ensures AfterUpgrade(used, k) ==
            if k == BalanceKey(x, ctx.defaultChain) then Some(WalletLamports(ctx, BodyAt(ctx, ContractKey(x))))
            else if k == ContractKey(x) then Some(ContractLamports(ctx, BodyAt(ctx, ContractKey(x))))
            else if k == BalanceKey(y, ctx.defaultChain) then Some(WalletLamports(ctx, BodyAt(ctx, ContractKey(y))))
            else if k == ContractKey(y) then Some(ContractLamports(ctx, BodyAt(ctx, ContractKey(y))))
            else None
  {
    var u :| EtherNoted(ctx, x, map[], u) && EtherNoted(ctx, y, u, used);
    assert AfterUpgrade(map[], k) == None;
  }

  lemma CostAt(used: Marks, cache: Cache, k: Key)
    ensures MapSums.At(Spends(used, cache), k) - MapSums.At(Collects(used, cache), k) ==
            if Upgraded(used, k) then AfterUpgrade(used, k).value - Original(cache, k) else 0
    ensures !Upgraded(used, k) ==> MapSums.At(Spends(used, cache), k) == MapSums.At(Collects(used, cache), k) == 0
  {}

  lemma UpgradeSums(ctx: Ctx, cache: Cache, used: Marks, x: Address, y: Address)
    requires x != y && IsLegacyEther(ctx, x) && IsLegacyEther(ctx, y) && BothNoted(ctx, x, y, used)
    ensures var later := BothAsked(ctx, cache, x, y);
            MapSums.Sum(Spends(used, later)) - MapSums.Sum(Collects(used, later)) ==
            UpgradeCost(ctx, cache, x) + UpgradeCost(ctx, cache, y)
  {
    var later := BothAsked(ctx, cache, x, y);
    var spends, collects := Spends(used, later), Collects(used, later);
    var wx, cx := BalanceKey(x, ctx.defaultChain), ContractKey(x);
    var wy, cy := BalanceKey(y, ctx.defaultChain), ContractKey(y);
    forall k
      ensures k != wx && k != cx && k != wy && k != cy ==> MapSums.At(spends, k) == MapSums.At(collects, k) == 0
    {
      NotedAt(ctx, used, x, y, k);
      CostAt(used, later, k);
    }
    SumOfFour(spends, wx, cx, wy, cy);
    SumOfFour(collects, wx, cx, wy, cy);
    HalvesCost(ctx, cache, used, x, y, x);
    HalvesCost(ctx, cache, used, x, y, y);
  }

  /** What the two halves of either account contribute. */
  lemma HalvesCost(ctx: Ctx, cache: Cache, used: Marks, x: Address, y: Address, a: Address)
    requires x != y && IsLegacyEther(ctx, x) && IsLegacyEther(ctx, y) && BothNoted(ctx, x, y, used)
    requires a == x || a == y
    ensures var later := BothAsked(ctx, cache, x, y);
            var spends, collects := Spends(used, later), Collects(used, later);
            var w, c := BalanceKey(a, ctx.defaultChain), ContractKey(a);
            MapSums.At(spends, w) - MapSums.At(collects, w) + MapSums.At(spends, c) - MapSums.At(collects, c) ==
            UpgradeCost(ctx, cache, a)
  {
    var later, w, c := BothAsked(ctx, cache, x, y), BalanceKey(a, ctx.defaultChain), ContractKey(a);
    NotedAt(ctx, used, x, y, w);
    NotedAt(ctx, used, x, y, c);
    CostAt(used, later, w);
    CostAt(used, later, c);
  }

  lemma LoadedSums(ctx: Ctx, cache: Cache, used: Marks, x: Address, y: Address)
    requires x != y && IsLegacyEther(ctx, x) && IsLegacyEther(ctx, y) && BothNoted(ctx, x, y, used)
    ensures LoadPlain(ctx, map[], ContractKey(x)).Ok?
    ensures var m, later := LoadPlain(ctx, map[], ContractKey(x)).value, BothAsked(ctx, cache, x, y);
            && MapSums.Sum(News(m)) == MapSums.Sum(Olds(used, later, m))
            && MapSums.Sum(Gains(later, m)) == UpgradeCost(ctx, cache, x)
  {
    LoadedOnly(ctx, x);
    var w, c := BalanceKey(x, ctx.defaultChain), ContractKey(x);
    NotedAt(ctx, used, x, y, w);
    NotedAt(ctx, used, x, y, c);
    TwoLoaded(LoadPlain(ctx, map[], c).value, used, BothAsked(ctx, cache, x, y), w, c);
  }

  lemma TwoLoaded(m: Accounts, used: Marks, cache: Cache, w: Key, c: Key)
    requires w != c && m.Keys == {w, c} && w != SYSTEM_KEY && c != SYSTEM_KEY
    requires AfterUpgrade(used, w) == Some(m[w].lamports) && AfterUpgrade(used, c) == Some(m[c].lamports)
    ensures MapSums.Sum(News(m)) == MapSums.Sum(Olds(used, cache, m))
    ensures MapSums.Sum(Gains(cache, m)) == m[w].lamports + m[c].lamports - Original(cache, w) - Original(cache, c)
  {
    SumOfTwo(News(m), w, c);
    SumOfTwo(Olds(used, cache, m), w, c);
    SumOfTwo(Gains(cache, m), w, c);
  }

  /** One legacy account is read, a snapshot taken, another legacy account read, and the snapshot reverted, on an
      emulator that had loaded nothing. Rent is then under-reported exactly when upgrading the first cost lamports and
      upgrading the second, which is gone, freed some. */
  method UnderReports(emulator: Emulator, x: Address, y: Address) returns (r: Result<int, Fault>)
    requires emulator.Valid() && emulator.accounts == map[] && emulator.used == map[]
    requires x != y && IsLegacyEther(emulator.ctx, x) && IsLegacyEther(emulator.ctx, y)
    modifies emulator
    ensures r.Ok? ==> r.value == Reported(emulator.accounts, emulator.used, emulator.cache)
    ensures Reported(emulator.accounts, emulator.used, emulator.cache)
            < MapSums.Sum(Gains(emulator.cache, emulator.accounts))
       <==> UpgradeCost(emulator.ctx, old(emulator.cache), x) > 0 > UpgradeCost(emulator.ctx, old(emulator.cache), y)
  {
    var reverted := emulator.UpgradeTwoDropOne(x, y);
    UpgradeSums(emulator.ctx, old(emulator.cache), emulator.used, x, y);
    LoadedSums(emulator.ctx, old(emulator.cache), emulator.used, x, y);
    r := ChangesInRent(emulator.accounts, emulator.used, emulator.cache);
  }
}

/** What the two fee-collecting loops do to the ledger as a whole, however often an account is listed. */
module FeeCollection {
  import opened Base
  import opened Ledger
  import opened Handlers

  /** The fees of a mint that can be collected, account by account. */
  ghost function Collectable(s: State, mint: Pubkey): map<Pubkey, int> {
    map k | k in s && Harvestable(s[k], mint) :: s[k].data.accountExt.withheld.value
  }

  function Listed(sources: seq<Pubkey>): set<Pubkey> {
    set k | k in sources
  }

  /** The fees in the listed accounts, each account counted once. */
  ghost function Takings(s: State, mint: Pubkey, sources: seq<Pubkey>): int {
    MapSums.Sum(MapSums.Restrict(Collectable(s, mint), Listed(sources)))
  }

  lemma TakingsPositive(s: State, mint: Pubkey, sources: seq<Pubkey>)
    ensures Takings(s, mint, sources) >= 0
  {
    MapSums.NonNegative(MapSums.Restrict(Collectable(s, mint), Listed(sources)));
  }

  /** A slot after its fees were collected, if they could be. */
  function Drained(slot: Slot, mint: Pubkey): Slot {
    if Harvestable(slot, mint) then Emptied(slot) else slot
  }

  lemma TakingsEmpty(s: State, mint: Pubkey)
    ensures Takings(s, mint, []) == 0
  {
    assert MapSums.Restrict(Collectable(s, mint), Listed([])) == map[];
  }

  /** One more account listed: its fees count unless it was listed before. */
  lemma TakingsStep(s: State, mint: Pubkey, front: seq<Pubkey>, k: Pubkey)
    ensures Takings(s, mint, front + [k]) == Takings(s, mint, front) +
            if k !in front && Harvestable(Get(s, k), mint) then Get(s, k).data.accountExt.withheld.value else 0
  {
    assert Listed(front + [k]) == Listed(front) + {k};
    if k in front {
      assert Listed(front + [k]) == Listed(front);
    } else {
      MapSums.RestrictStep(Collectable(s, mint), Listed(front), k);
    }
  }

  /** The mint's slot with that many more fees in it. */
  ghost predicate FeesAdded(before: Slot, after: Slot, fees: int)
    requires FeeMint(before)
  {
    && FeeMint(after) && after.data.mintExt.fee.value.withheld == before.data.mintExt.fee.value.withheld + fees
    && after == WithMintExt(before, before.data.mintExt.(fee := Some(before.data.mintExt.fee.value.(
                              withheld := after.data.mintExt.fee.value.withheld))))
  }

  lemma HarvestTurn(s: State, mint: Pubkey, k: Pubkey, s': State)
    requires FeeMint(Get(s, mint)) && HarvestOne(s, mint, k) == Ok(s')
    ensures k != mint
    ensures FeesAdded(Get(s, mint), Get(s', mint),
                      if Harvestable(Get(s, k), mint) then Get(s, k).data.accountExt.withheld.value else 0)
    ensures forall j: Pubkey :: j != mint ==> Get(s', j) == if j == k then Drained(Get(s, j), mint) else Get(s, j)
  {}

  /** Harvesting empties exactly the listed accounts of the mint that withhold fees, puts exactly their fees, each once,
      into the mint, and changes nothing else. */
  lemma {:induction false} HarvestExactly(s: State, mint: Pubkey, sources: seq<Pubkey>, s': State)
    requires FeeMint(Get(s, mint)) && HarvestAll(s, mint, sources) == Ok(s')
    ensures mint !in sources
    ensures FeesAdded(Get(s, mint), Get(s', mint), Takings(s, mint, sources))
    ensures forall j: Pubkey :: j != mint ==> Get(s', j) == if j in sources then Drained(Get(s, j), mint) else Get(s, j)
  {
    if sources == [] {
      TakingsEmpty(s, mint);
    } else {
      var front, k := sources[..|sources| - 1], sources[|sources| - 1];
      assert sources == front + [k];
      var s1 := HarvestAll(s, mint, front).value;
      HarvestExactly(s, mint, front, s1);
      HarvestTurn(s1, mint, k, s');
      TakingsStep(s, mint, front, k);
    }
  }

  /** It succeeds exactly on a list without the mint whose fees fit the mint's own. */
  lemma {:induction false} HarvestSucceeds(s: State, mint: Pubkey, sources: seq<Pubkey>)
    requires FeeMint(Get(s, mint))
    ensures HarvestAll(s, mint, sources).Ok? <==>
            mint !in sources && Get(s, mint).data.mintExt.fee.value.withheld + Takings(s, mint, sources) <= U64_MAX
  {
    if sources == [] {
      TakingsEmpty(s, mint);
    } else {
      var front, k := sources[..|sources| - 1], sources[|sources| - 1];
      assert sources == front + [k];
      HarvestSucceeds(s, mint, front);
      TakingsStep(s, mint, front, k);
      if HarvestAll(s, mint, front).Ok? { HarvestExactly(s, mint, front, HarvestAll(s, mint, front).value); }
    }
  }

  /** The receiver's slot: the amount raised by `fees`, its own withheld fees gone if it was listed. */
  ghost predicate Received(before: Slot, after: Slot, fees: int, listed: bool)
    requires before.data.AccountData?
  {
    && after.data.AccountData? && after.data.account.amount == before.data.account.amount + fees
    && var drained := if listed then Emptied(before) else before;
       after == WithAccount(drained, before.data.account.(amount := after.data.account.amount))
  }

  /** The fees in the listed accounts. A receiver is asked for its own without a look at whose it is. */
  ghost function Gathered(s: State, mint: Pubkey, destination: Pubkey, sources: seq<Pubkey>): int
    requires Get(s, destination).data.AccountData?
  {
    var dst := Get(s, destination);
    Takings(s, mint, sources)
    + if destination in sources && !Harvestable(dst, mint) then Withheld(dst.data.accountExt) else 0
  }

  /** The fees one account adds to those of the accounts before it. */
  function Share(slot: Slot, mint: Pubkey, own: bool): u64 {
    if Harvestable(slot, mint) || (own && slot.data.AccountData?) then Withheld(slot.data.accountExt) else 0
  }

  lemma GatheredStep(s: State, mint: Pubkey, destination: Pubkey, front: seq<Pubkey>, k: Pubkey)
    requires Get(s, destination).data.AccountData?
    ensures Gathered(s, mint, destination, []) == 0
    ensures Gathered(s, mint, destination, front + [k]) == Gathered(s, mint, destination, front) +
            if k in front then 0 else Share(Get(s, k), mint, k == destination)
  {
    TakingsEmpty(s, mint);
    TakingsStep(s, mint, front, k);
  }

  /** The list names neither the mint, nor a receiver that cannot withhold fees. */
  predicate Clean(s: State, mint: Pubkey, destination: Pubkey, sources: seq<Pubkey>)
    requires Get(s, destination).data.AccountData?
  {
    mint !in sources && (destination in sources ==> Get(s, destination).data.accountExt.withheld.Some?)
  }

  lemma CollectTurn(s: State, mint: Pubkey, destination: Pubkey, k: Pubkey)
    requires Get(s, destination).data.AccountData? && destination != mint
    ensures var r := CollectOne(s, mint, destination, k);
            var total := Get(s, destination).data.account.amount + Share(Get(s, k), mint, k == destination);
            && (r.Ok? <==> Clean(s, mint, destination, [k]) && total <= U64_MAX)
            && (r == Err(Overflow) <==> Clean(s, mint, destination, [k]) && total > U64_MAX)
            && (r.Ok? ==>
                  && Received(Get(s, destination), Get(r.value, destination),
                              Share(Get(s, k), mint, k == destination), k == destination)
                  && forall j: Pubkey :: j != destination ==>
                       Get(r.value, j) == if j == k then Drained(Get(s, j), mint) else Get(s, j))
  {}

  /** Collecting empties exactly the listed accounts of the mint that withhold fees, the receiver included, pays exactly
      their fees, each once, into the receiver's amount, and changes nothing else. */
  lemma {:induction false} CollectExactly(s: State, mint: Pubkey, destination: Pubkey, sources: seq<Pubkey>, s': State)
    requires Get(s, destination).data.AccountData? && destination != mint
    requires CollectAll(s, mint, destination, sources) == Ok(s')
    ensures Clean(s, mint, destination, sources)
    ensures Received(Get(s, destination), Get(s', destination), Gathered(s, mint, destination, sources),
                     destination in sources)
    ensures forall j: Pubkey :: j != destination ==>
              Get(s', j) == if j in sources then Drained(Get(s, j), mint) else Get(s, j)
  {
    if sources == [] {
      TakingsEmpty(s, mint);
    } else {
      var front, k := sources[..|sources| - 1], sources[|sources| - 1];
      assert sources == front + [k];
      var s1 := CollectAll(s, mint, destination, front).value;
      CollectExactly(s, mint, destination, front, s1);
      CollectTurn(s1, mint, destination, k);
      GatheredStep(s, mint, destination, front, k);
    }
  }

  /** It succeeds exactly on a clean list whose fees fit the receiver's amount. */
  lemma {:induction false} CollectSucceeds(s: State, mint: Pubkey, destination: Pubkey, sources: seq<Pubkey>)
    requires Get(s, destination).data.AccountData? && destination != mint
    ensures CollectAll(s, mint, destination, sources).Ok? <==>
            && Clean(s, mint, destination, sources)
            && Get(s, destination).data.account.amount + Gathered(s, mint, destination, sources) <= U64_MAX
  {
    if sources == [] {
      TakingsEmpty(s, mint);
    } else {
      CollectStep(s, mint, destination, sources);
      CollectSucceeds(s, mint, destination, sources[..|sources| - 1]);
    }
  }

  /** The last turn of the loop, told from the slots before the first. */
  lemma CollectStep(s: State, mint: Pubkey, destination: Pubkey, sources: seq<Pubkey>)
    requires Get(s, destination).data.AccountData? && destination != mint && sources != []
    ensures var front, r := sources[..|sources| - 1], CollectAll(s, mint, destination, sources);
            var before, amount := CollectAll(s, mint, destination, front), Get(s, destination).data.account.amount;
            && Gathered(s, mint, destination, front) <= Gathered(s, mint, destination, sources)
            && (Clean(s, mint, destination, sources) ==> Clean(s, mint, destination, front))
            && (before.Err? ==> r == before)
            && (before.Ok? ==>
                  && (r.Ok? <==> Clean(s, mint, destination, sources)
                                 && amount + Gathered(s, mint, destination, sources) <= U64_MAX)
                  && (r == Err(Overflow) <==> Clean(s, mint, destination, sources)
                                              && amount + Gathered(s, mint, destination, sources) > U64_MAX))
  {
    var front, k := sources[..|sources| - 1], sources[|sources| - 1];
    assert sources == front + [k];
    GatheredStep(s, mint, destination, front, k);
    var before := CollectAll(s, mint, destination, front);
    if before.Ok? {
      CollectExactly(s, mint, destination, front, before.value);
      CollectTurn(before.value, mint, destination, k);
    }
  }

  /** The fees of some clean beginning of the list do not fit. */
  ghost predicate FeesExceed(s: State, mint: Pubkey, destination: Pubkey, sources: seq<Pubkey>)
    requires Get(s, destination).data.AccountData?
  {
    exists n :: 0 <= n <= |sources| && Clean(s, mint, destination, sources[..n])
                && Get(s, destination).data.account.amount + Gathered(s, mint, destination, sources[..n]) > U64_MAX
  }

  /** And it reports an overflow exactly when those of a clean beginning of the list do not. */
  lemma {:induction false} CollectOverflows(s: State, mint: Pubkey, destination: Pubkey, sources: seq<Pubkey>)
    requires Get(s, destination).data.AccountData? && destination != mint
    ensures CollectAll(s, mint, destination, sources) == Err(Overflow) <==> FeesExceed(s, mint, destination, sources)
  {
    if sources == [] {
      TakingsEmpty(s, mint);
      assert forall n :: 0 <= n <= |sources| ==> sources[..n] == [];
    } else {
      var front := sources[..|sources| - 1];
      CollectStep(s, mint, destination, sources);
      CollectSucceeds(s, mint, destination, front);
      CollectOverflows(s, mint, destination, front);
      assert sources[..|sources|] == sources && front[..|front|] == front;
      assert forall n :: 0 <= n < |sources| ==> front[..n] == sources[..n];
    }
  }
}

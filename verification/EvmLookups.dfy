/** Batched lookups: the two-cursor loops of the emulator's node cache and of the balance command give what looking
    each key up alone would give. */
module EvmLookups {
  import opened Base
  import opened EvmAccounts
  import opened EvmLoading

  const FAKE_OPERATOR: Pubkey := 0x800a0f3f3814c615c228b7044efdceb036a75efc91830cb65d75e2b10b

  /** The node's answer to a batch: one entry per key, in order. */
  function Batch<K, A>(rpc: K -> Option<A>, keys: seq<K>): (r: seq<Option<A>>)
    ensures |r| == |keys| && forall i :: 0 <= i < |keys| ==> r[i] == rpc(keys[i])
  {
    seq(|keys|, i requires 0 <= i < |keys| => rpc(keys[i]))
  }

  function CountTrue(flags: seq<bool>): nat {
    if flags == [] then 0 else CountTrue(flags[..|flags| - 1]) + if flags[|flags| - 1] then 1 else 0
  }

  /** The keys whose flag is set, in order. */
  function Flagged<K>(keys: seq<K>, flags: seq<bool>): (r: seq<K>)
    requires |flags| == |keys|
    ensures |r| == CountTrue(flags)
  {
    var n := |keys|;
    if n == 0 then []
    else Flagged(keys[..n - 1], flags[..n - 1]) + if flags[n - 1] then [keys[n - 1]] else []
  }

  lemma FlaggedStep<K>(keys: seq<K>, flags: seq<bool>, key: K, flag: bool)
    requires |flags| == |keys|
    ensures Flagged(keys + [key], flags + [flag]) == Flagged(keys, flags) + if flag then [key] else []
    ensures CountTrue(flags + [flag]) == CountTrue(flags) + if flag then 1 else 0
  {
    assert (keys + [key])[..|keys|] == keys && (flags + [flag])[..|flags|] == flags;
  }

  lemma FlaggedPrefix<K>(keys: seq<K>, flags: seq<bool>, i: nat)
    requires |flags| == |keys| && i < |keys|
    ensures Flagged(keys[..i + 1], flags[..i + 1]) ==
            Flagged(keys[..i], flags[..i]) + if flags[i] then [keys[i]] else []
  {
    assert keys[..i + 1][..i] == keys[..i] && flags[..i + 1][..i] == flags[..i];
  }

  /** The key at the second cursor is the key at the first cursor's position. */
  lemma {:induction false} FlaggedAt<K>(keys: seq<K>, flags: seq<bool>, i: nat)
    requires |flags| == |keys| && i < |keys| && flags[i]
    ensures CountTrue(flags[..i]) < |Flagged(keys, flags)| && Flagged(keys, flags)[CountTrue(flags[..i])] == keys[i]
  {
    var last := |keys| - 1;
    if i < last {
      FlaggedAt(keys[..last], flags[..last], i);
      assert flags[..last][..i] == flags[..i];
    } else {
      assert flags[..last] == flags[..i];
    }
  }

  // ---- `_get_account_from_rpc` and `_get_multiple_accounts_from_rpc` ----

  class NodeCache<A(==)> {
    const rpc: Pubkey -> Option<A>
    var cache: map<Pubkey, Option<A>>

    constructor (rpc: Pubkey -> Option<A>, overrides: map<Pubkey, Option<A>>)
      ensures this.rpc == rpc && cache == overrides
    {
      this.rpc, cache := rpc, overrides;
    }

    /** What one lookup gives: the stand-in operator has no account, a cached answer wins over the node. */
    function Alone(before: map<Pubkey, Option<A>>, k: Pubkey): Option<A> {
      if k == FAKE_OPERATOR then None else if k in before then before[k] else rpc(k)
    }

    /** Answers once given stay, and every new one is the node's. */
    ghost predicate Extended(before: map<Pubkey, Option<A>>)
      reads this
    {
      (forall k :: k in before ==> k in cache && cache[k] == before[k])
      && (forall k :: k in cache && k !in before ==> cache[k] == rpc(k))
    }

    method GetAccount(k: Pubkey) returns (r: Option<A>)
      modifies this`cache
      ensures r == Alone(old(cache), k) && Extended(old(cache))
    {
      if k == FAKE_OPERATOR { return None; }
      if k in cache { return cache[k]; }
      r := rpc(k);
      cache := cache[k := r];
    }

    /** The first pass: cached answers, and the keys that are not cached. */
    method ReadCached(keys: seq<Pubkey>)
      returns (accounts: seq<Option<A>>, absent: seq<bool>, missing: seq<Pubkey>)
      ensures |accounts| == |absent| == |keys| && missing == Flagged(keys, absent)
      ensures forall i :: 0 <= i < |keys| ==> absent[i] == (keys[i] != FAKE_OPERATOR && keys[i] !in cache)
      ensures forall i :: 0 <= i < |keys| && !absent[i] ==> accounts[i] == Alone(cache, keys[i])
    {
      accounts, absent, missing := [], [], [];
      for i := 0 to |keys|
        invariant |accounts| == |absent| == i && missing == Flagged(keys[..i], absent)
        invariant forall n :: 0 <= n < i ==> absent[n] == (keys[n] != FAKE_OPERATOR && keys[n] !in cache)
        invariant forall n :: 0 <= n < i && !absent[n] ==> accounts[n] == Alone(cache, keys[n])
      {
        assert keys[..i + 1] == keys[..i] + [keys[i]];
        var gone := keys[i] != FAKE_OPERATOR && keys[i] !in cache;
        FlaggedStep(keys[..i], absent, keys[i], gone);
        if gone { missing := missing + [keys[i]]; }
        accounts := accounts + [if keys[i] != FAKE_OPERATOR && !gone then cache[keys[i]] else None];
        absent := absent + [gone];
      }
      assert keys[..|keys|] == keys;
    }

    /** Both passes. The second walks the positions with one cursor and the node's answers with another. */
    method GetMultiple(keys: seq<Pubkey>) returns (r: seq<Option<A>>)
      modifies this`cache
      ensures |r| == |keys| && forall i :: 0 <= i < |keys| ==> r[i] == Alone(old(cache), keys[i])
      ensures Extended(old(cache))
      ensures forall i :: 0 <= i < |keys| && keys[i] != FAKE_OPERATOR ==> keys[i] in cache
    {
      var absent, missing;
      r, absent, missing := ReadCached(keys);
      var response := Batch(rpc, missing);
      var j := 0;
      for i := 0 to |keys|
        invariant |r| == |keys| && j == CountTrue(absent[..i])
        invariant Extended(old(cache))
        invariant forall n :: 0 <= n < |keys| && (n < i || !absent[n]) ==> r[n] == Alone(old(cache), keys[n])
        invariant forall n :: 0 <= n < i && absent[n] ==> keys[n] in cache
      {
        assert absent[..i + 1][..i] == absent[..i];
        if absent[i] {
          FlaggedAt(keys, absent, i);
          var key := missing[j];
          if key !in cache { cache := cache[key := response[j]]; }
          assert keys[i] == key;
          r := r[i := cache[key]];
          j := j + 1;
        }
      }
    }
  }

  // ---- `get_balance::execute` ----

  datatype BalanceAddress = BalanceAddress(address: Address, chainId: u64)
  datatype Status = FromBalance | FromLegacy | NotFound

  datatype Response = Response(solana: Key, contract: Key, nonce: u64, balance: Word, status: Status)

  function BalanceKeyOf(x: BalanceAddress): Key { BalanceKey(x.address, x.chainId) }
  function ContractKeyOf(x: BalanceAddress): Key { ContractKey(x.address) }

  function Blank(x: BalanceAddress): Response {
    Response(BalanceKeyOf(x), ContractKeyOf(x), 0, 0, NotFound)
  }

  /** `read_account`: anything but a balance account is an error. */
  function ReadBalance(x: BalanceAddress, account: RpcAccount): Result<Response, Fault> {
    if account.body.Current? && account.body.content.Balance? then
      var w := account.body.content.wallet;
      Ok(Response(BalanceKeyOf(x), ContractKeyOf(x), w.nonce, w.balance, FromBalance))
    else Err(BadTag)
  }

  function ReadLegacy(x: BalanceAddress, account: RpcAccount): Result<Response, Fault> {
    if account.body.LegacyEther? then
      var w := account.body.wallet;
      Ok(Response(BalanceKeyOf(x), ContractKeyOf(x), w.nonce, w.balance, FromLegacy))
    else Err(BadTag)
  }

  predicate Fallback(rpc: Key -> Option<RpcAccount>, legacyChain: u64, x: BalanceAddress) {
    rpc(BalanceKeyOf(x)).None? && x.chainId == legacyChain
  }

  /** One address looked up alone: its balance account, then its legacy account, then nothing. */
  function LookupAlone(rpc: Key -> Option<RpcAccount>, legacyChain: u64, x: BalanceAddress): Result<Response, Fault> {
    match rpc(BalanceKeyOf(x))
    case Some(account) => ReadBalance(x, account)
    case None =>
      var legacy := rpc(ContractKeyOf(x));
      if x.chainId == legacyChain && legacy.Some? && ReadLegacy(x, legacy.value).Ok?
      then ReadLegacy(x, legacy.value)
      else Ok(Blank(x))
  }

  function Fallbacks(rpc: Key -> Option<RpcAccount>, legacyChain: u64, addresses: seq<BalanceAddress>): (r: seq<bool>)
    ensures |r| == |addresses| && forall i :: 0 <= i < |r| ==> r[i] == Fallback(rpc, legacyChain, addresses[i])
  {
    seq(|addresses|, i requires 0 <= i < |addresses| => Fallback(rpc, legacyChain, addresses[i]))
  }

  /** What the first pass leaves at a position: nothing when the legacy account must be asked, else the answer. */
  predicate Answered(rpc: Key -> Option<RpcAccount>, legacyChain: u64, x: BalanceAddress, response: Option<Response>) {
    if Fallback(rpc, legacyChain, x) then response == None
    else response.Some? && LookupAlone(rpc, legacyChain, x) == Ok(response.value)
  }

  method ReadOne(rpc: Key -> Option<RpcAccount>, legacyChain: u64, x: BalanceAddress, account: Option<RpcAccount>)
    returns (r: Result<Option<Response>, Fault>)
    requires account == rpc(BalanceKeyOf(x))
    ensures r.Err? <==> LookupAlone(rpc, legacyChain, x).Err?
    ensures r.Ok? ==> Answered(rpc, legacyChain, x, r.value)
  {
    if account.Some? {
      var balance := ReadBalance(x, account.value);
      if balance.Err? { return Err(balance.error); }
      return Ok(Some(balance.value));
    }
    r := Ok(if x.chainId == legacyChain then None else Some(Blank(x)));
  }

  predicate Fails(rpc: Key -> Option<RpcAccount>, legacyChain: u64, x: BalanceAddress) {
    LookupAlone(rpc, legacyChain, x).Err?
  }

  /** The first pass: what the balance accounts give, and the addresses left for the second pass. */
  method ReadBalances(rpc: Key -> Option<RpcAccount>, legacyChain: u64, addresses: seq<BalanceAddress>)
    returns (r: Outcome<Fault>, response: seq<Option<Response>>, missing: seq<BalanceAddress>)
    ensures r.Fail? <==> exists i :: 0 <= i < |addresses| && Fails(rpc, legacyChain, addresses[i])
    ensures r.Pass? ==>
      && |response| == |addresses| && missing == Flagged(addresses, Fallbacks(rpc, legacyChain, addresses))
      && forall i :: 0 <= i < |addresses| ==> Answered(rpc, legacyChain, addresses[i], response[i])
  {
    r, response, missing := Pass, [], [];
    ghost var flags := Fallbacks(rpc, legacyChain, addresses);
    var accounts := Batch(rpc, seq(|addresses|, i requires 0 <= i < |addresses| => BalanceKeyOf(addresses[i])));
    for i := 0 to |addresses|
      invariant |response| == i && missing == Flagged(addresses[..i], flags[..i])
      invariant forall n :: 0 <= n < i ==> !Fails(rpc, legacyChain, addresses[n])
      invariant forall n :: 0 <= n < i ==> Answered(rpc, legacyChain, addresses[n], response[n])
    {
      FlaggedPrefix(addresses, flags, i);
      var one := ReadOne(rpc, legacyChain, addresses[i], accounts[i]);
      if one.Err? {
        assert Fails(rpc, legacyChain, addresses[i]);
        return Fail(one.error), response, missing;
      }
      if one.value.None? { missing := missing + [addresses[i]]; }
      response := response + [one.value];
    }
    assert addresses[..|addresses|] == addresses && flags[..|addresses|] == flags;
  }

  predicate Holds(rpc: Key -> Option<RpcAccount>, legacyChain: u64, x: BalanceAddress, response: Response) {
    LookupAlone(rpc, legacyChain, x) == Ok(response)
  }

  /** The second pass at one position that the first left open. */
  method ReadLegacyOne(rpc: Key -> Option<RpcAccount>, legacyChain: u64, x: BalanceAddress, account: Option<RpcAccount>)
    returns (r: Response)
    requires Fallback(rpc, legacyChain, x) && account == rpc(ContractKeyOf(x))
    ensures Holds(rpc, legacyChain, x, r)
  {
    r := Blank(x);
    if account.Some? {
      var legacy := ReadLegacy(x, account.value);
      if legacy.Ok? { r := legacy.value; }
    }
  }

  /** Both passes: every position holds what looking its address up alone would give, and the whole fails exactly when
      one of them would. */
  method GetBalances(rpc: Key -> Option<RpcAccount>, legacyChain: u64, addresses: seq<BalanceAddress>)
    returns (r: Result<seq<Response>, Fault>)
    ensures r.Err? <==> exists i :: 0 <= i < |addresses| && Fails(rpc, legacyChain, addresses[i])
    ensures r.Ok? ==> |r.value| == |addresses|
                      && forall i :: 0 <= i < |addresses| ==> Holds(rpc, legacyChain, addresses[i], r.value[i])
  {
    var outcome, response, missing := ReadBalances(rpc, legacyChain, addresses);
    if outcome.Fail? { return Err(outcome.error); }
    ghost var flags := Fallbacks(rpc, legacyChain, addresses);
    var accounts := Batch(rpc, seq(|missing|, i requires 0 <= i < |missing| => ContractKeyOf(missing[i])));
    var j, result := 0, [];
    for i := 0 to |addresses|
      invariant |result| == i && j == CountTrue(flags[..i])
      invariant forall n :: 0 <= n < i ==> Holds(rpc, legacyChain, addresses[n], result[n])
    {
      assert flags[..i + 1][..i] == flags[..i];
      assert Answered(rpc, legacyChain, addresses[i], response[i]);
      var balance;
      if response[i].Some? {
        balance := response[i].value;
      } else {
        FlaggedAt(addresses, flags, i);
        assert addresses[i] == missing[j];
        balance := ReadLegacyOne(rpc, legacyChain, missing[j], accounts[j]);
        j := j + 1;
      }
      result := result + [balance];
    }
    r := Ok(result);
  }

  /** The balance command and a fresh emulator agree: where the command answers, it answers with the nonce and balance
      the emulator's first read of the wallet gives, and it refuses exactly the addresses that hold something other than
      a balance account, which the emulator reads as an empty wallet. */
  lemma CommandAgreesWithEmulator(ctx: Ctx, x: BalanceAddress)
    requires WellKinded(ctx)
    ensures var r, read := LookupAlone(ctx.rpc, ctx.defaultChain, x), Alone(ctx, ReadWallet(x.address, x.chainId));
            && read.Ok? && read.value.Balance?
            && (r.Err? <==> var body := BodyAt(ctx, BalanceKeyOf(x));
                            ctx.rpc(BalanceKeyOf(x)).Some? && !(body.Current? && body.content.Balance?))
            && (r.Ok? ==> read.value.wallet == Wallet(r.value.nonce, r.value.balance))
            && (r.Err? ==> read.value.wallet == NO_WALLET)
  {
    assert KindOk(BalanceKeyOf(x), ctx.rpc(BalanceKeyOf(x)));
    assert KindOk(ContractKey(x.address), ctx.rpc(ContractKey(x.address)));
  }
}

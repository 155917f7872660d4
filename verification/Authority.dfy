/** `validate_owner`: one signer, or m of the n positions of a multisig. */
module Authority {
  import opened Base
  import opened TokenState
  import opened Ledger

  /** The keys that were presented with a signature. */
  function SignedKeys(signers: seq<Info>): set<Pubkey> {
    set i | 0 <= i < |signers| && signers[i].isSigner :: signers[i].key
  }

  /** Positions of `keys` that hold a key of `signed`. */
  function MatchedPositions(keys: seq<Pubkey>, signed: set<Pubkey>): nat {
    if keys == [] then 0
    else MatchedPositions(keys[..|keys| - 1], signed) + if keys[|keys| - 1] in signed then 1 else 0
  }

  /** An unsigned account may repeat a key only after that key was presented with a signature. */
  predicate NoUnsignedHit(signers: seq<Info>, keys: seq<Pubkey>) {
    forall i :: 0 <= i < |signers| && !signers[i].isSigner && signers[i].key in keys ==>
      signers[i].key in SignedKeys(signers[..i])
  }

  predicate MultisigAccepts(multisig: Multisig, signers: seq<Info>)
    requires multisig.n <= MAX_SIGNERS
  {
    var keys := multisig.signers[..multisig.n];
    NoUnsignedHit(signers, keys) && MatchedPositions(keys, SignedKeys(signers)) >= multisig.m
  }

  function ValidateOwner(s: State, expected: Pubkey, authority: Info, signers: seq<Info>): Outcome<Error> {
    if expected != authority.key then Fail(OwnerMismatch) else SignedFor(s, authority, signers)
  }

  /** The authority's own signature, or those of its multisig. */
  function SignedFor(s: State, authority: Info, signers: seq<Info>): Outcome<Error> {
    var slot := Get(s, authority.key);
    if slot.owner == TOKEN_PROGRAM && slot.len == MULTISIG_LEN then
      if !(slot.data.MultisigData? && slot.data.multisig.isInitialized) then Fail(UninitializedAccount)
      else if slot.data.multisig.n > MAX_SIGNERS then Fail(Panic)
      else if MultisigAccepts(slot.data.multisig, signers) then Pass
      else Fail(MissingRequiredSignature)
    else if authority.isSigner then Pass
    else Fail(MissingRequiredSignature)
  }

  // ---- the loops ----

  function Count(flags: seq<bool>): nat {
    if flags == [] then 0 else Count(flags[..|flags| - 1]) + if flags[|flags| - 1] then 1 else 0
  }

  lemma {:induction false} CountSet(flags: seq<bool>, p: nat)
    requires p < |flags| && !flags[p]
    ensures Count(flags[p := true]) == Count(flags) + 1
  {
    var last := |flags| - 1;
    if p == last {
      assert flags[p := true][..last] == flags[..last];
    } else {
      assert flags[p := true][..last] == flags[..last][p := true];
      CountSet(flags[..last], p);
    }
  }

  /** A `matched` table that flags exactly the signed positions counts them. */
  lemma {:induction false} CountIsMatched(flags: seq<bool>, keys: seq<Pubkey>, signed: set<Pubkey>)
    requires |flags| == |keys| && forall p :: 0 <= p < |keys| ==> flags[p] == (keys[p] in signed)
    ensures Count(flags) == MatchedPositions(keys, signed)
  {
    if keys != [] { CountIsMatched(flags[..|keys| - 1], keys[..|keys| - 1], signed); }
  }

  lemma SignedKeysStep(signers: seq<Info>, i: nat)
    requires i < |signers|
    ensures SignedKeys(signers[..i + 1]) ==
            SignedKeys(signers[..i]) + if signers[i].isSigner then {signers[i].key} else {}
  {
    var before, after := signers[..i], signers[..i + 1];
    assert forall j :: 0 <= j < i ==> after[j] == before[j];
  }

  /** `NoUnsignedHit` is decided one presented account at a time. */
  lemma NoUnsignedStep(signers: seq<Info>, i: nat, keys: seq<Pubkey>)
    requires i < |signers|
    ensures NoUnsignedHit(signers[..i + 1], keys) ==
            (NoUnsignedHit(signers[..i], keys) &&
             (signers[i].isSigner || signers[i].key !in keys || signers[i].key in SignedKeys(signers[..i])))
  {
    var before, after := signers[..i], signers[..i + 1];
    assert after[i] == signers[i] && after[..i] == before;
    assert forall j :: 0 <= j < i ==> before[j] == after[j] && before[..j] == after[..j];
  }

  lemma NoUnsignedPrefix(signers: seq<Info>, i: nat, keys: seq<Pubkey>)
    requires i <= |signers|
    ensures NoUnsignedHit(signers, keys) ==> NoUnsignedHit(signers[..i], keys)
  {
    assert forall j :: 0 <= j < i ==> signers[..i][j] == signers[j] && signers[..i][..j] == signers[..j];
  }

  /** The inner loop over the table for one presented account: `ok` is false when it returns the error. */
  method MatchSigner(keys: seq<Pubkey>, signer: Info, matched: array<bool>, count: nat, ghost signed: set<Pubkey>)
    returns (ok: bool, newCount: nat)
    requires |keys| <= matched.Length
    requires forall p :: 0 <= p < |keys| ==> matched[p] == (keys[p] in signed)
    requires count == Count(matched[..|keys|])
    modifies matched
    ensures ok == (signer.isSigner || signer.key !in keys || signer.key in signed)
    ensures ok ==> newCount == Count(matched[..|keys|])
    ensures ok ==> forall p :: 0 <= p < |keys| ==>
      matched[p] == (keys[p] in signed + if signer.isSigner then {signer.key} else {})
  {
    newCount := count;
    var position := 0;
    while position < |keys|
      invariant 0 <= position <= |keys|
      invariant forall p :: position <= p < |keys| ==> matched[p] == (keys[p] in signed)
      invariant forall p :: 0 <= p < position ==>
        matched[p] == (keys[p] in signed + if signer.isSigner then {signer.key} else {})
      invariant !signer.isSigner && signer.key in keys[..position] ==> signer.key in signed
      invariant newCount == Count(matched[..|keys|])
    {
      if keys[position] == signer.key && !matched[position] {
        if !signer.isSigner {
          return false, newCount;
        }
        CountSet(matched[..|keys|], position);
        ghost var flags := matched[..|keys|];
        matched[position] := true;
        assert matched[..|keys|] == flags[position := true];
        newCount := newCount + 1;
      }
      position := position + 1;
      assert keys[..position] == keys[..position - 1] + [keys[position - 1]];
    }
    assert keys[..|keys|] == keys;
    ok := true;
  }

  /** The nested loops with their `matched` table and counter decide exactly `MultisigAccepts`. */
  method CheckMultisig(multisig: Multisig, signers: seq<Info>) returns (accepted: bool)
    requires multisig.n <= MAX_SIGNERS
    ensures accepted == MultisigAccepts(multisig, signers)
  {
    var keys := multisig.signers[..multisig.n];
    var matched := new bool[MAX_SIGNERS](_ => false);
    var count := 0;
    CountIsMatched(matched[..|keys|], keys, {});
    NoneMatched(keys);
    var i := 0;
    while i < |signers|
      invariant 0 <= i <= |signers|
      invariant forall p :: 0 <= p < |keys| ==> matched[p] == (keys[p] in SignedKeys(signers[..i]))
      invariant count == Count(matched[..|keys|])
      invariant NoUnsignedHit(signers[..i], keys)
    {
      var ok;
      ok, count := MatchSigner(keys, signers[i], matched, count, SignedKeys(signers[..i]));
      SignedKeysStep(signers, i);
      NoUnsignedStep(signers, i, keys);
      NoUnsignedPrefix(signers, i + 1, keys);
      if !ok {
        return false;
      }
      i := i + 1;
    }
    assert signers[..i] == signers;
    CountIsMatched(matched[..|keys|], keys, SignedKeys(signers));
    accepted := count >= multisig.m;
  }

  lemma {:induction false} NoneMatched(keys: seq<Pubkey>)
    ensures MatchedPositions(keys, {}) == 0
  {
    if keys != [] { NoneMatched(keys[..|keys| - 1]); }
  }

  // ---- what accepting means ----

  /** Presenting a key again once it has signed changes nothing, with or without the signature. */
  lemma RepeatAddsNothing(multisig: Multisig, signers: seq<Info>, again: Info)
    requires multisig.n <= MAX_SIGNERS
    requires again.key in SignedKeys(signers)
    ensures MultisigAccepts(multisig, signers + [again]) == MultisigAccepts(multisig, signers)
  {
    var more := signers + [again];
    var keys := multisig.signers[..multisig.n];
    SignedKeysStep(more, |signers|);
    assert more[..|signers|] == signers && more[..|signers| + 1] == more;
    assert forall i :: 0 <= i < |signers| ==> more[i] == signers[i] && more[..i] == signers[..i];
    if NoUnsignedHit(more, keys) {
      forall i | 0 <= i < |signers| && !signers[i].isSigner && signers[i].key in keys
        ensures signers[i].key in SignedKeys(signers[..i])
      {
        assert more[i] == signers[i];
      }
    }
    if NoUnsignedHit(signers, keys) {
      forall i | 0 <= i < |more| && !more[i].isSigner && more[i].key in keys
        ensures more[i].key in SignedKeys(more[..i])
      {
        if i < |signers| { assert more[i] == signers[i]; }
      }
    }
    assert SignedKeys(more) == SignedKeys(signers);
  }

  /** With distinct keys in the table, m matched positions are m distinct keys that signed. */
  lemma {:induction false} DistinctSigners(keys: seq<Pubkey>, signed: set<Pubkey>)
    requires forall p, q :: 0 <= p < q < |keys| ==> keys[p] != keys[q]
    ensures MatchedPositions(keys, signed) == |(set p | 0 <= p < |keys| && keys[p] in signed :: keys[p])|
  {
    var all := set p | 0 <= p < |keys| && keys[p] in signed :: keys[p];
    if keys == [] {
      assert all == {};
    } else {
      var last := |keys| - 1;
      var front := keys[..last];
      var some := set p | 0 <= p < |front| && front[p] in signed :: front[p];
      DistinctSigners(front, signed);
      assert forall p :: 0 <= p < last ==> front[p] == keys[p];
      if keys[last] in signed {
        assert all == some + {keys[last]};
        assert keys[last] !in some;
      } else {
        assert all == some;
      }
    }
  }

  // ---- what validating an owner comes to, in signatures ----

  /** A multisig account: one of the program's own, of the length no other account has. */
  predicate MultisigSlot(slot: Slot) { slot.owner == TOKEN_PROGRAM && slot.len == MULTISIG_LEN }

  /** The positions of a signer table whose keys were presented with a signature. */
  function SignedPositions(multisig: Multisig, signers: seq<Info>): set<int> {
    set p | 0 <= p < multisig.n && p < MAX_SIGNERS
            && exists i :: 0 <= i < |signers| && signers[i].isSigner && signers[i].key == multisig.signers[p]
  }

  /** Nobody stands on the list unsigned under a key of the table, unless the same key has signed further up. */
  predicate NoneUnsigned(multisig: Multisig, signers: seq<Info>) {
    forall i, p :: 0 <= i < |signers| && 0 <= p < multisig.n && p < MAX_SIGNERS && !signers[i].isSigner
                   && signers[i].key == multisig.signers[p] ==>
      exists j :: 0 <= j < i && signers[j].isSigner && signers[j].key == signers[i].key
  }

  /** At least m positions of the table have signed. */
  predicate MultisigSigned(multisig: Multisig, signers: seq<Info>) {
    && multisig.isInitialized && multisig.n <= MAX_SIGNERS && NoneUnsigned(multisig, signers)
    && |SignedPositions(multisig, signers)| >= multisig.m
  }

  /** `key` agrees: its own signature flag is set, or enough of its multisig's are. */
  predicate Consents(s: State, key: Pubkey, authority: Info, signers: seq<Info>) {
    var slot := Get(s, key);
    && authority.key == key
    && if MultisigSlot(slot) then slot.data.MultisigData? && MultisigSigned(slot.data.multisig, signers)
       else authority.isSigner
  }

  lemma {:induction false} PositionsCounted(keys: seq<Pubkey>, signed: set<Pubkey>)
    ensures MatchedPositions(keys, signed) == |(set p | 0 <= p < |keys| && keys[p] in signed)|
  {
    var all := set p | 0 <= p < |keys| && keys[p] in signed;
    if keys == [] {
      assert all == {};
    } else {
      var last, front := |keys| - 1, keys[..|keys| - 1];
      var some := set p | 0 <= p < |front| && front[p] in signed;
      PositionsCounted(front, signed);
      assert forall p :: 0 <= p < last ==> front[p] == keys[p];
      assert all == if keys[last] in signed then some + {last} else some;
    }
  }

  lemma SignedKeyShown(signers: seq<Info>, key: Pubkey)
    ensures key in SignedKeys(signers) <==>
            exists i :: 0 <= i < |signers| && signers[i].isSigner && signers[i].key == key
  {}

  lemma PositionsSigned(multisig: Multisig, signers: seq<Info>)
    requires multisig.n <= MAX_SIGNERS
    ensures |SignedPositions(multisig, signers)| ==
            MatchedPositions(multisig.signers[..multisig.n], SignedKeys(signers))
  {
    var keys := multisig.signers[..multisig.n];
    PositionsCounted(keys, SignedKeys(signers));
    assert (set p | 0 <= p < |keys| && keys[p] in SignedKeys(signers)) == SignedPositions(multisig, signers);
  }

  lemma UnsignedAgree(multisig: Multisig, signers: seq<Info>)
    requires multisig.n <= MAX_SIGNERS
    ensures NoneUnsigned(multisig, signers) <==> NoUnsignedHit(signers, multisig.signers[..multisig.n])
  {
    var keys := multisig.signers[..multisig.n];
    forall i | 0 <= i < |signers|
      ensures signers[i].key in SignedKeys(signers[..i]) <==>
              exists j :: 0 <= j < i && signers[j].isSigner && signers[j].key == signers[i].key
    {
      SignedKeyShown(signers[..i], signers[i].key);
      assert forall j :: 0 <= j < i ==> signers[..i][j] == signers[j];
    }
    assert forall p :: 0 <= p < |keys| ==> keys[p] == multisig.signers[p];
  }

  /** Exactly when an owner is validated, in every state: the key handed in is the expected one, and it has signed, or
      the multisig it names has. */
  lemma ValidatedExactly(s: State, expected: Pubkey, authority: Info, signers: seq<Info>)
    ensures ValidateOwner(s, expected, authority, signers).Pass? <==> Consents(s, expected, authority, signers)
  {
    var slot := Get(s, expected);
    if slot.data.MultisigData? && slot.data.multisig.n <= MAX_SIGNERS {
      PositionsSigned(slot.data.multisig, signers);
      UnsignedAgree(slot.data.multisig, signers);
    }
  }

  /** The same for every key at once. */
  lemma AllValidated(s: State, authority: Info, signers: seq<Info>)
    ensures forall key: Pubkey ::
              ValidateOwner(s, key, authority, signers).Pass? <==> Consents(s, key, authority, signers)
  {
    forall key: Pubkey
      ensures ValidateOwner(s, key, authority, signers).Pass? <==> Consents(s, key, authority, signers)
    {
      ValidatedExactly(s, key, authority, signers);
    }
  }
}

# Token program, associated accounts and the emulator's storage: a model in Dafny

This project models the parts of the repository that move value and must not lose it, and proves what they promise.
`dafny verify dfyconfig.toml` checks the whole of it.

**The token program** (`evm_loader/program-2022`). `Ledger` is the runtime's view: a map from addresses to slots with
lamports, an owning program, a length and contents. `Handlers` gives every handler as a function from the slots before
to the slots after or an error, checks in the source's order; `Processor.TokenProgram` is the program as it runs,
updating the slots in place, each method proved to compute its function, with the runtime's rollback and ownership
rule around it. `Runs` interleaves instructions with anything other programs may do (credit lamports, rewrite their
own slots, hand over zeroed ones), from a ledger with no token accounts. Transfer fees, immutable owners, CPI guard,
memo, permanent delegate, non-transferable mints, default state, mint close authority, fee harvest and withdrawal, and
reallocation are part of the model. `Rules` says, instruction by instruction and without a handler, what is admitted
(in signature flags, amounts and fees) and what every slot holds afterwards; `Conformance` proves that the handlers
accept exactly that and leave exactly that. On that model: supply conservation, native backing, allowance accounting,
authority, freezing and one-way facts, and (`Governance`) the rules, the authorities of mints, the release of lamports
and the fee schedule, for every run.

**The associated-token-account program** (`AssociatedToken`) is a client of that program: creation with both funding
branches, idempotent creation, and recovery of a nested account as a transfer followed by a close.

**The emulator's account storage** (`EvmAccounts`, `EvmLoading`, `EvmWrites`, `EvmStorage`, `EvmExact`, `EvmLaws`).
Accounts are filled lazily from the node, first value kept under every key, legacy accounts converted as they are met;
snapshots push copies. `EvmLoading` and `EvmWrites` are the loads and writes on values, `EvmStorage.Emulator` the
object itself with its cache, marks and logs. It is proved to be plain maps of balances, nonces, contracts and slots
with a stack of saved copies, and `EvmExact` says exactly for which answers of the node. `EvmSeeds` is the derivation
of storage-cell addresses, `EvmRent` the rent sums, `EvmLookups` the batched lookups.

**Codecs and amounts**. `StateCodec` (mints, accounts, multisigs, in place), `InstructionCodec` (all forty
instructions), `Layouts` (where every byte of both lies, without a codec), `Amounts` (decimal text), `InverseFees`
(gross amount for a wanted net amount).

## Where a promise does not hold as it stands

Each has a lemma with the failing inputs and the exact condition under which the promise holds.

- Every read succeeds with the same value in every order exactly when no answer is of the wrong kind, no legacy
  account's default-chain balance address is in use with something to show on either side, and no legacy cell hangs
  under an allocated contract account without a tag (`EvmLoading.OrderIndependence`). A single lamport sent to the
  balance address is enough for the second.
- The emulator is a plain map exactly when, besides, no deployment can bring back a non-zero slot of a legacy cell
  that was invisible: the cell's contract has code, or carries another generation (`EvmExact.PlainExactly`,
  `EvmWrites.UnsettledResurfaces`).
- The address of a storage cell leaves out the three top bytes of the index: dynamic indices equal modulo 2^232 share
  a slot (`EvmAccounts.SlotsShared`, `EvmLaws.IndexAliases`).
- Reverting to a first snapshot that was taken with logs already collected stops at the source's own sanity check
  (`EvmStorage.Emulator.RevertSnapshot`).
- A revert drops accounts and keeps the notes of their upgrades, and rent can then be under-reported: exactly when the
  dropped upgrades had freed more lamports, on balance, than the two parts of the report lose by being cut off at zero
  (`EvmRent.UnderReportedExactly`). Reading one legacy account that costs lamports to upgrade, then another that frees
  some inside a reverted snapshot, does it (`EvmRent.UnderReports`, `EvmRent.CostsAndFrees`).
- A transfer in the emulator whose mint overflows is refused with the amount already taken from the sender
  (`EvmLaws.TransferExactly`).
- The balance command refuses an address that the emulator reads as zero when the address holds anything but a balance
  account (`EvmLookups.CommandAgreesWithEmulator`).
- The amount parser reads a text as written exactly when it shows a digit and no plus sign stands in a non-zero
  fraction (`Amounts.ReadsAsWritten`); a lone `+` is read as zero (`Amounts.LonePlus`), and `.+50` as a tenth of what
  it says (`Amounts.SignMisread`). A zero without a whole part, such as `.0`, is refused (`Amounts.ParseUiExactly`).
- The gross amount for a wanted net amount is exact and least, except at the full rate, where it is always zero
  (`InverseFees.PreFeeExactly`, `InverseFees.FullRateMisses`).
- The fixed-offset readers answer for a state byte or an option tag that unpacking refuses, and exactly for those
  (`StateCodec.ReadersAcceptMore`).

## Model

| member | source | states |
|---|---|---|
| `TransferFees.FeeWithinAmount` | evm_loader/program-2022/src/extension/transfer_fee/mod.rs:53-65 | at a legal rate the fee is always defined, never above its cap and never above the amount moved |
| `TransferFees.FeeRoundsUp` | evm_loader/program-2022/src/extension/transfer_fee/mod.rs:45-65 | the fee is the rate on the amount rounded up to a whole token, or the cap |
| `InverseFees.PreFeeExactly` | evm_loader/program-2022/src/extension/transfer_fee/mod.rs:68-102 | the gross amount nets exactly the wanted amount if and only if the rate is below the whole or nothing is wanted |
| `InverseFees.PreFeeLeast` | evm_loader/program-2022/src/extension/transfer_fee/mod.rs:74-102 | no smaller amount nets the same, and when there is no answer there is no such amount |
| `InverseFees.FullRateMisses` | evm_loader/program-2022/src/extension/transfer_fee/mod.rs:83-90 | at the full rate the answer is zero although the wanted amount plus the cap would net it |
| `InverseFees.PostFeeIs` | evm_loader/program-2022/src/extension/transfer_fee/mod.rs:53-70 | the net amount is the floor of the kept share, or the amount less the cap when that is more |
| `Authority.CheckMultisig` | evm_loader/program-2022/src/processor.rs:1684-1704 | the nested loops with the `matched` table accept exactly when no unsigned presented account hits a still unmatched position and at least m of the first n positions hold the key of a presented signer |
| `Authority.MatchSigner` | evm_loader/program-2022/src/processor.rs:1688-1698 | one pass over the positions flags exactly those of a signing key and fails exactly on an unsigned fresh hit |
| `Authority.ValidatedExactly` | evm_loader/program-2022/src/processor.rs:1673-1709 | in every state an owner is validated if and only if the key handed in is the expected one and, where its slot is the program's own and 355 bytes long, that slot is an initialised multisig of at most eleven keys of which at least m positions are signed for and none is presented unsigned and unmatched; anywhere else, its own signature flag is set |
| `Authority.RepeatAddsNothing` | evm_loader/program-2022/src/processor.rs:1688-1704 | presenting a key again once it has signed, with or without a signature, never changes the decision |
| `Authority.DistinctSigners` | evm_loader/program-2022/src/processor.rs:1688-1704 | with distinct keys in the table, matched positions count distinct signers |
| `Histories.MultisigFixedOnRuns` | evm_loader/program-2022/src/processor.rs:215-255 | no instruction and no outsider ever changes or closes a multisig: over every run only its lamports move |
| `Histories.MultisigGuards` | evm_loader/program-2022/src/processor.rs:215-255 | from its initialisation with distinct keys on, at every later point of every run, whatever passes for a multisig carries at least m of those keys as signatures, each counted once |
| `Steps.ExecuteKeeps` | evm_loader/program-2022/src/processor.rs:1468-1670 | every accepted instruction keeps supply conservation, native backing, the shape of every slot and the total of lamports, for every aliasing of its accounts |
| `Steps.CreditKeeps` | evm_loader/program-2022/src/processor.rs:426-481 | debit, credit, withheld fee and native lamports of a transfer balance |
| `Steps.MintToKeeps` | evm_loader/program-2022/src/processor.rs:861-938 | minting raises supply and holdings alike |
| `Steps.BurnKeeps` | evm_loader/program-2022/src/processor.rs:942-1054 | burning lowers supply and holdings alike |
| `Steps.CloseKeeps` | evm_loader/program-2022/src/processor.rs:1058-1149 | closing an account or mint loses neither tokens nor lamports |
| `Steps.HarvestAllKeeps` | evm_loader/program-2022/src/extension/transfer_fee/processor.rs:160-203 | harvesting any list of accounts, repeats included, keeps supply conservation, backing and lamports |
| `Steps.CollectAllKeeps` | evm_loader/program-2022/src/extension/transfer_fee/processor.rs:205-277 | so does collecting fees from any list of accounts, the receiver included |
| `FeeCollection.HarvestExactly` | evm_loader/program-2022/src/extension/transfer_fee/processor.rs:160-203 | harvesting empties exactly the listed accounts of the mint that withhold fees, adds exactly their fees, each account once, to the mint's own, and changes nothing else |
| `FeeCollection.CollectExactly` | evm_loader/program-2022/src/extension/transfer_fee/processor.rs:205-277 | collecting empties exactly the listed accounts of the mint that withhold fees, the receiver included, raises the receiver's amount by exactly their fees, each account once however often it is listed, and changes nothing else |
| `FeeCollection.CollectSucceeds` | evm_loader/program-2022/src/extension/transfer_fee/processor.rs:205-277 | collecting succeeds exactly on a list without the mint, and without a receiver that cannot withhold, whose fees fit the receiver's amount |
| `FeeCollection.HarvestSucceeds` | evm_loader/program-2022/src/extension/transfer_fee/processor.rs:160-203 | harvesting succeeds exactly when the fees of the listed accounts, each once, fit the mint's own |
| `FeeCollection.CollectOverflows` | evm_loader/program-2022/src/extension/transfer_fee/processor.rs:205-277 | it reports an overflow exactly when the fees of some such beginning of the list do not fit |
| `Steps.ReallocateKeeps` | evm_loader/program-2022/src/extension/reallocate.rs:24-115 | growing an account for any list of requested extensions keeps a native one backed at its new reserve, and supply and lamports |
| `TokenState.SizesAgree` | evm_loader/program-2022/src/extension/mod.rs:1014-1024 | the size by the list of extension types is the size by the extensions themselves |
| `TokenState.TotalTlvLen` | evm_loader/program-2022/src/extension/mod.rs:1000-1009 | the loop that drops repeated types and sums lengths gives the size of the set of types |
| `Steps.CreateNativeMintKeeps` | evm_loader/program-2022/src/processor.rs:1325-1367 | creating the native mint keeps the invariant and the lamports |
| `Runs.RunKeeps` | evm_loader/program-2022/src/processor.rs:1468-1670 | the invariant and the total of lamports hold at every point of every run |
| `Runs.SupplyConserved` | evm_loader/program-2022/src/processor.rs:446-469 | at every point of every run a live mint's supply is what its live accounts hold with the fees withheld in them and in the mint; without a live mint nothing is held |
| `Runs.NativeBacked` | evm_loader/program-2022/src/processor.rs:182-192 | at every point of every run an account is native exactly when its mint is the native mint, its lamports cover amount and reserve, and it is never frozen |
| `Runs.NoDelegateNoAllowance` | evm_loader/program-2022/src/processor.rs:570-571 | at every point of every run no delegate means no allowance |
| `Runs.OverflowsExactlyOnRuns` | evm_loader/program-2022/src/processor.rs:446-469 | in every reachable state an instruction reports overflow exactly when it mints past the supply cap, or is handed another program's slot in the place of a token account: a foreign account with a foreign mint whose fee has no 64-bit value, or a foreign receiver that the withdrawn fees do not fit |
| `OverflowFreedom.TransferOverflowsExactly` | evm_loader/program-2022/src/processor.rs:446-481 | the overflow exits of transfer for amount, withheld fee and lamports are unreachable; overflow is reported exactly when a foreign account is handed in with a foreign mint whose fee has no 64-bit value |
| `OverflowFreedom.BurnNeverOverflows` | evm_loader/program-2022/src/processor.rs:1040-1049 | the overflow exits of burn are unreachable |
| `OverflowFreedom.MintOverflowsExactlyAtCap` | evm_loader/program-2022/src/processor.rs:923-933 | minting overflows exactly when the supply would pass 64 bits, never because of the destination's amount |
| `OverflowFreedom.WithdrawFromMintOverflowsExactly` | evm_loader/program-2022/src/extension/transfer_fee/processor.rs:115-158 | withdrawing a mint's fees overflows exactly into a foreign receiver without room |
| `Runs.LamportsConserved` | evm_loader/program-2022/src/processor.rs:1138-1145 | lamports are neither made nor lost on any run |
| `Runs.WithdrawLeavesTheMinimum` | evm_loader/program-2022/src/processor.rs:1400-1465 | withdrawing the excess moves lamports only, leaves exactly the rent minimum in a source distinct from the destination, and changes nothing when they are the same |
| `Conformance.HandlersObey` | evm_loader/program-2022/src/processor.rs:1468-1670 | in any state, reachable or not, each of the instructions is carried out if and only if its rule admits it, and every slot then holds what the rule says: the refusals for frozen, guarded, memo-less, non-transferable and unsigned cases happen, and no others |
| `Conformance.TransferObeys` | evm_loader/program-2022/src/processor.rs:268-486 | a transfer is carried out exactly when source and destination are live unfrozen accounts of one mint, amount, fee, memo, guard and authority are right and everything fits 64 bits; the fee is the rate in force in the epoch, rounded up or capped |
| `Governance.AcceptedExactly` | evm_loader/program-2022/src/processor.rs:1468-1670 | an instruction is accepted if and only if its rule admits it and it does no more to slots of other programs than credit them |
| `Governance.RulesOnRuns` | evm_loader/program-2022/src/processor.rs:1468-1670 | the same at every step of every run, with every slot after it, and nothing changed by a refused one |
| `Governance.SyncExactly` | evm_loader/program-2022/src/processor.rs:1202-1226 | syncing succeeds exactly on a live native account whose lamports are at least reserve plus amount; afterwards amount and reserve make up the lamports, the rest of the record is the same and no other slot changes |
| `Governance.MintChangesNeedAuthorityOnRuns` | evm_loader/program-2022/src/processor.rs:689-858 | on every run each of the six authorities of a live mint changes only in an accepted SetAuthority of its own kind on that mint, with the signature of the current key, and becomes exactly the key given; supply, fees, schedule and default state change only with the authority that governs them, and a mint ends only by its closer with nothing issued |
| `Governance.LamportsLeaveOnRuns` | evm_loader/program-2022/src/processor.rs:1400-1465 | on every run lamports leave a slot of the program only by a transfer out of a native account, a close or a withdrawal of excess, with the signature of the spender, the closer, or the owner, mint authority or multisig over the excess |
| `Governance.ScheduleOnRuns` | evm_loader/program-2022/src/extension/transfer_fee/processor.rs:61-110 | after a schedule accepted in epoch e and until the next or the mint's close, a transfer before epoch e + 2 is charged what was in force in e, and from then on the new rate, rounded up or capped |
| `Effects.AccountEffect` | evm_loader/program-2022/src/processor.rs:1468-1670 | the table of what each instruction does to a live account, and on whose signature flags, is right for every instruction and account; a sync leaves amount and reserve equal to the lamports |
| `Effects.TransferMoves` | evm_loader/program-2022/src/processor.rs:426-481 | a transfer takes the amount from one account, gives amount less fee to the other and withholds the fee there, the fee being the rate of the older entry before the newer one's epoch and of the newer from it on, rounded up or capped; it moves a native account's lamports along, touches no third slot, and does nothing to itself |
| `Effects.SupplyMoves` | evm_loader/program-2022/src/processor.rs:918-1049 | minting and burning move one account and its mint's supply by the same amount and nothing else |
| `Effects.MintInitialised` | evm_loader/program-2022/src/processor.rs:51-95 | a new mint is rent-exempt, of exactly the length its extensions need, has nothing issued and the given authorities, and is not frozen by default without a freeze authority |
| `Effects.AccountInitialised` | evm_loader/program-2022/src/processor.rs:117-198 | a new account is empty unless native, backed exactly when native, in the state and with the restrictions its mint calls for |
| `Effects.BalanceFallsOnlyWithAuthority` | evm_loader/program-2022/src/processor.rs:363-410 | a step lowers an amount only with the signature of the owner, of the delegate within the allowance or of the mint's permanent delegate, or of at least m positions of that key's multisig; the exceptions are burns from system- or incinerator-owned accounts and closing a native account |
| `Effects.BalanceFallsOnlyWithAuthorityOnRuns` | evm_loader/program-2022/src/processor.rs:981-1032 | the same for every step of every run, outsiders' steps included |
| `Effects.ChangesNeedAuthorityOnRuns` | evm_loader/program-2022/src/processor.rs:517-858 | on every run each change of a live account's amount, delegate, allowance, owner, close authority or state happens in an accepted instruction signed, by flag or by multisig, for the authority that governs it: the mint's authorities for credits and freezing, the owner or the delegate itself for the allowance, the owner for the owner, the closer for the closer; an allowance grows only by approval |
| `Effects.FrozenHoldsStill` | evm_loader/program-2022/src/processor.rs:1166-1194 | a step that is not an accepted thaw leaves a frozen account's whole record as it is or closes it empty |
| `Effects.FrozenHoldsStillOnRuns` | evm_loader/program-2022/src/processor.rs:1166-1194 | until a thaw or close of it is accepted a frozen account's record never changes on any run, refused attempts included |
| `Effects.FrozenClosesEmpty` | evm_loader/program-2022/src/processor.rs:1071-1078 | whatever ends a frozen account is a close of it at amount zero |
| `Histories.AllowanceAccounted` | evm_loader/program-2022/src/processor.rs:373-394 | from an approval of n until an approval, revocation, owner change or close is accepted, what the delegate transferred away or burned and what remains of the allowance make n, whatever is tried and refused meanwhile |
| `Histories.ApproveShows` | evm_loader/program-2022/src/processor.rs:517-575 | an accepted approval shows in the account with its delegate and amount |
| `Histories.MintOneWayOnRuns` | evm_loader/program-2022/src/processor.rs:689-722 | until a close of the mint is accepted, a given-up mint authority stays given up and the supply never rises, a given-up freeze authority stays given up, and the supply is what it was plus all minted since less all burned; who may give one up or pass it on is `Governance.MintChangesNeedAuthorityOnRuns` |
| `Histories.HeldIsMintedLessBurned` | evm_loader/program-2022/src/processor.rs:918-1049 | from a mint's initialisation until its close is accepted, what live accounts hold with all withheld fees is everything minted less everything burned |
| `Histories.AccountOneWayOnRuns` | evm_loader/program-2022/src/processor.rs:639-652 | until a close is accepted, an account keeps its mint, an immutable owner, and without a freeze authority its frozen or thawed state |
| `Histories.InitialisedStays` | evm_loader/program-2022/src/processor.rs:117-198 | from its initialisation until a close of it or its mint is accepted, an account is of its mint, keeps its owner if made immutable, and the state its mint prescribed if that cannot freeze |
| `Processor.TokenProgram.Run` | evm_loader/program-2022/src/processor.rs:1468-1670 | one instruction as the runtime runs it: the slots end as the specification says, or as they began on error or a broken ownership rule, and the invariant is kept |
| `Processor.TokenProgram.CheckOwner` | evm_loader/program-2022/src/processor.rs:1673-1709 | decides `ValidateOwner` on the current slots, which by `Authority.ValidatedExactly` is the consent of the expected key by signature flags |
| `Processor.TokenProgram.AuthoriseSpend` | evm_loader/program-2022/src/processor.rs:363-410 | the three authority arms in order, each through the signature check, with the allowance spent in the delegate arm |
| `Processor.TokenProgram.MoveTokens` | evm_loader/program-2022/src/processor.rs:426-486 | debit, credit, withheld fee and native lamports, written cell by cell, leave the slots of the transfer |
| `Processor.TokenProgram.ProcessWithdrawExcess` | evm_loader/program-2022/src/processor.rs:1400-1465 | re-reading both lamport cells moves the excess once, and nothing when source and destination are one |
| `Processor.TokenProgram.ProcessInitializeMultisig` | evm_loader/program-2022/src/processor.rs:215-255 | the signer-copying loop fills the table with the keys in order and zeros |
| `Processor.TokenProgram.ProcessHarvest` | evm_loader/program-2022/src/extension/transfer_fee/processor.rs:179-203 | the harvest loop, writing account and mint in turn, leaves what `FeeCollection.HarvestExactly` says of the whole list |
| `Processor.TokenProgram.ProcessWithdrawFromAccounts` | evm_loader/program-2022/src/extension/transfer_fee/processor.rs:205-277 | emptying the accounts one by one while the receiver's amount is summed beside its slot and packed once at the end is the same as packing it in every turn |
| `Processor.TokenProgram.ProcessReallocate` | evm_loader/program-2022/src/extension/reallocate.rs:24-115 | resizing first, then paying, then noting the reserve leaves what paying first and resizing then would, or the same error |
| `AssociatedToken.RecoverNestedEffect` | evm_loader/associated-token-account/src/processor.rs:165-309 | recovery deletes the nested account, gives the wallet's token account the whole nested amount less the fee withheld there, keeps the mint's supply and touches no other record |
| `AssociatedToken.RecoverNestedLamports` | evm_loader/associated-token-account/src/processor.rs:293-308 | the wallet receives every lamport the transfer left behind, and nobody else gains or loses one |
| `AssociatedToken.RecoverExactly` | evm_loader/associated-token-account/src/processor.rs:165-309 | recovery succeeds if and only if, in the slots before it, the three addresses are derived as they should be, the wallet signed and owns the owner account, which owns the nested one, the transfer of everything is admitted, and the emptied account can be closed towards the wallet |
| `AssociatedToken.ProcessRecoverNested` | evm_loader/associated-token-account/src/processor.rs:165-309 | validate, transfer, close; an error restores the slots; the token program's invariant and the lamports are kept |
| `AssociatedToken.CreateExactly` | evm_loader/associated-token-account/src/processor.rs:66-162 | creation succeeds exactly when the address is right, the slot unallocated, the mint live and the funder able to pay; the slot then holds a rent-exempt account of that mint and wallet with an immutable owner, the funder paid exactly what was missing, nothing else moved |
| `AssociatedToken.IdempotentExactly` | evm_loader/associated-token-account/src/processor.rs:92-107 | over an account that is there the idempotent form changes nothing and succeeds exactly when it is this wallet's account of this mint; otherwise it creates |
| `AssociatedToken.CreatePdaExactly` | evm_loader/associated-token-account/src/tools/account.rs:18-72 | the prefunded and the fresh branch succeed under one condition and leave the same slot, the funder paying exactly what was missing |
| `AssociatedToken.InitialisersSucceed` | evm_loader/associated-token-account/src/processor.rs:121-161 | the size the token program reports is exactly what the two initialisers need: on a fresh slot of that size neither fails |
| `AssociatedToken.CreatedStaysAssociated` | evm_loader/associated-token-account/src/processor.rs:92-107 | after a creation, on every run in which no close of the account is accepted, an idempotent create by anyone succeeds and changes nothing |
| `AssociatedToken.CreateKeeps` | evm_loader/associated-token-account/src/processor.rs:66-162 | creation keeps the total of lamports, and the token program's invariant exactly unless the derived address is the native mint's own |
| `AssociatedToken.ProcessCreate` | evm_loader/associated-token-account/src/processor.rs:66-162 | the program computes `CreateAssociated`, restoring the slots on error |
| `EvmAccounts.UpdatedLookup` | evm_loader/program/src/account/ether_storage.rs:228-266 | a storage cell behaves as a table from subindexes to values |
| `EvmAccounts.GetSubCell` | evm_loader/program/src/account/ether_storage.rs:228-238 | the search loop returns the first entry of a subindex, zero without one |
| `EvmAccounts.UpdateSubCell` | evm_loader/program/src/account/ether_storage.rs:240-266 | the update loop overwrites the first match or appends a non-zero value |
| `EvmAccounts.SlotsShared` | evm_loader/lib/src/account_storage.rs:1172-1186 | two indices share a slot exactly when equal, or both dynamic and equal modulo 2^232 |
| `EvmSeeds.SeedsIdentifyCells` | evm_loader/program/src/account/ether_storage.rs:16-57 | two dynamic indices have the same cell address seed exactly when they have the same cell number |
| `EvmSeeds.SeedInjective` | evm_loader/program/src/account/ether_storage.rs:18-43 | packing 28 bytes into 7-bit characters and overflow bytes loses nothing |
| `EvmSeeds.SeedIsText` | evm_loader/program/src/account/ether_storage.rs:46-50 | every byte of a seed is below 0x80, so the unchecked conversion to text is sound |
| `EvmSeeds.MakeSeed` | evm_loader/program/src/account/ether_storage.rs:18-43 | the loops compute `Seed` |
| `EvmLoading.OrderIndependence` | evm_loader/lib/src/account_storage.rs:416-544 | for every node: every read succeeds with the same value in every order if and only if the answers are of the right kinds, no legacy account clashes with its default-chain balance address and no legacy cell hangs under an untagged contract account |
| `EvmLoading.LoadExtends` | evm_loader/lib/src/account_storage.rs:546-695 | under such answers no load fails; every load adds base values and disturbs nothing |
| `EvmLoading.FreshWallet` | evm_loader/lib/src/account_storage.rs:623-663 | a fresh storage reads the wallet under the balance address, or with none there and on the default chain the legacy account's, or zero |
| `EvmLoading.FreshContract` | evm_loader/lib/src/account_storage.rs:416-464 | it reads a contract as it is; a legacy account with code or a generation as a contract of the default chain with that generation and code, and with its static slots only beside code; and nothing otherwise |
| `EvmLoading.FreshCell` | evm_loader/lib/src/account_storage.rs:466-544 | it reads the slots of a cell as they are, and those of a legacy cell exactly where its contract reads as one with code and the cell's generation |
| `EvmLoading.ClashShows` | evm_loader/lib/src/account_storage.rs:416-464 | a legacy account whose balance address is in use: its wallet is read from the balance address before its code and from the legacy account after; where the two are equal its code cannot be read after the wallet |
| `EvmLoading.BareCellShows` | evm_loader/lib/src/account_storage.rs:466-515 | a legacy cell under an untagged contract account stops the emulator when read first and reads as empty when read after the contract |
| `EvmWrites.WriteWalletRefines` | evm_loader/lib/src/account_storage.rs:846-866 | a balance or nonce write, refused or not, is the same write on the plain map |
| `EvmWrites.TransferRefines` | evm_loader/lib/src/account_storage.rs:1353-1386 | a transfer is burn then mint on the plain map |
| `EvmWrites.SetCodeRefines` | evm_loader/lib/src/account_storage.rs:1234-1283 | deploying is refused exactly over code, and otherwise changes one contract and no slot, static slots of a code-less contract included |
| `EvmWrites.SetStorageRefines` | evm_loader/lib/src/account_storage.rs:1285-1331 | storing changes one slot, and a static store to an address without a contract makes an empty one |
| `EvmWrites.WalletExempt` | evm_loader/lib/src/account_storage.rs:786-866 | a wallet that was written is as long as a balance account and holds its rent |
| `EvmWrites.StoreExempt` | evm_loader/lib/src/account_storage.rs:1285-1331 | so is a contract or cell whose slot was stored, a grown cell included |
| `EvmWrites.CodeExempt` | evm_loader/lib/src/account_storage.rs:1234-1283 | so is a contract that was deployed |
| `EvmWrites.ConvertedExempt` | evm_loader/lib/src/account_storage.rs:416-464 | the accounts a legacy account is converted to hold exactly their rent |
| `EvmWrites.ConvertedCellExempt` | evm_loader/lib/src/account_storage.rs:517-544 | so does a converted cell |
| `EvmWrites.UnsettledResurfaces` | evm_loader/lib/src/account_storage.rs:517-544 | without the settled condition a legacy cell with a non-zero slot is empty before a deployment and back with that slot after it |
| `EvmExact.PlainExactly` | evm_loader/lib/src/account_storage.rs:416-544 | for every node: every run of reads and writes answers as plain maps of balances, nonces, contracts and slots do if and only if the answers are of the right kinds, ordered and settled |
| `EvmWrites.ExtendsView` | evm_loader/lib/src/account_storage.rs:588-594 | loading changes no plain map |
| `EvmStorage.Emulator.Replay` | evm_loader/lib/src/account_storage.rs:1234-1386 | any run of reads, writes, logs, snapshots, reverts and commits is the same run of plain maps with a stack of saved copies, answer by answer |
| `EvmStorage.Emulator.Apply` | evm_loader/lib/src/account_storage.rs:1234-1525 | one operation is one step of the plain machine |
| `EvmStorage.Emulator.GetWallet` | evm_loader/lib/src/account_storage.rs:1049-1073 | a balance or nonce read returns the plain map's value and changes no map |
| `EvmStorage.Emulator.GetContract` | evm_loader/lib/src/account_storage.rs:1112-1163 | a code or chain read returns the plain map's value and changes no map |
| `EvmStorage.Emulator.GetStorage` | evm_loader/lib/src/account_storage.rs:1165-1191 | a slot read returns the plain map's value and changes no map |
| `EvmStorage.Emulator.SetStorage` | evm_loader/lib/src/account_storage.rs:1285-1331 | the write as a step of the plain machine, the account marked writable when the slot changes |
| `EvmStorage.Emulator.SetCode` | evm_loader/lib/src/account_storage.rs:1234-1283 | the deployment as a step of the plain machine |
| `EvmStorage.Emulator.Transfer` | evm_loader/lib/src/account_storage.rs:1353-1364 | the transfer as a step of the plain machine |
| `EvmStorage.Emulator.IncrementNonce` | evm_loader/lib/src/account_storage.rs:1333-1351 | the increment as a step of the plain machine, which by `EvmLaws.IncrementExactly` raises that nonce by one or is refused at the largest |
| `EvmStorage.Emulator.Snapshot` | evm_loader/lib/src/account_storage.rs:1490-1494 | pushes a copy of maps and logs |
| `EvmStorage.Emulator.RevertSnapshot` | evm_loader/lib/src/account_storage.rs:1496-1517 | restores the newest copy, and stops exactly without a copy or on returning to a first snapshot that already held logs |
| `EvmStorage.Emulator.CommitSnapshot` | evm_loader/lib/src/account_storage.rs:1519-1524 | drops the newest copy and keeps everything since |
| `EvmStorage.Emulator.AddLegacyAccount` | evm_loader/lib/src/account_storage.rs:416-464 | computes the conversion of a legacy account; its contract half ends up marked writable |
| `EvmStorage.Emulator.ContractGeneration` | evm_loader/lib/src/account_storage.rs:466-515 | computes the generation a legacy cell is judged by |
| `EvmStorage.Emulator.AddLegacyStorage` | evm_loader/lib/src/account_storage.rs:517-544 | computes the conversion of a legacy cell |
| `EvmStorage.Emulator.AddFetched` | evm_loader/lib/src/account_storage.rs:546-586 | computes `AddAccount` by the tag of the answer |
| `EvmStorage.Emulator.GetBalanceAccount` | evm_loader/lib/src/account_storage.rs:623-663 | computes `LoadWallet`, the legacy fallback included |
| `EvmStorage.Emulator.MarksTell` | evm_loader/lib/src/account_storage.rs:359-414 | after every operation, in the accounts and in every saved copy, each loaded account is marked, and each one that shows something else than the node does, converted legacy accounts included, is marked writable |
| `EvmLaws.RevertUndoes` | evm_loader/lib/src/account_storage.rs:1490-1517 | a snapshot, any properly nested operations and a revert leave the machine where it was |
| `EvmLaws.CommitKeeps` | evm_loader/lib/src/account_storage.rs:1490-1524 | with a commit instead, their effect stays and the copy is gone |
| `EvmLaws.TransferExactly` | evm_loader/lib/src/account_storage.rs:1353-1386 | exactly when a transfer passes, what it moves, and what it leaves behind when refused |
| `EvmLaws.IncrementExactly` | evm_loader/lib/src/account_storage.rs:1333-1351 | an increment is refused exactly at the largest nonce; otherwise that wallet's nonce is one more, its balance the same, and no other wallet, contract, slot, log or copy changes |
| `EvmLaws.WalletAccounted` | evm_loader/lib/src/account_storage.rs:1333-1386 | on every run without a revert a wallet's nonce has risen by the increments of it that passed, its balance by what passed transfers brought less what they took, and it reads so |
| `EvmLaws.DeployExactly` | evm_loader/lib/src/account_storage.rs:1234-1283 | a deployment is refused exactly over code; otherwise the address holds exactly the chain and code given and nothing else changes |
| `EvmLaws.StoreExactly` | evm_loader/lib/src/account_storage.rs:1285-1331 | a store never fails, sets exactly the slots its index names, and makes a contract without code exactly where one of the first 64 slots is set at an address without one |
| `EvmLaws.StoresAndLogs` | evm_loader/lib/src/account_storage.rs:1165-1331 | on every run without a revert a slot reads as what was last stored where its index points, and the logs are those emitted, in order |
| `EvmLaws.CodeStays` | evm_loader/lib/src/account_storage.rs:1234-1283 | on every run without a revert deployed code stays |
| `EvmLaws.WritesAreLocal` | evm_loader/lib/src/account_storage.rs:1234-1331 | deploying touches no slot; storing touches no other slot, no wallet and no existing contract |
| `EvmLaws.IndexAliases` | evm_loader/program/src/account/ether_storage.rs:18-26 | after a write to one index another reads the new value exactly when the two are equal, or both dynamic and equal modulo 2^232, and its old value otherwise |
| `EvmRent.RentCovers` | evm_loader/lib/src/account_storage.rs:881-947 | while every upgraded account is still loaded, upgrade rent and regular rent cover what the accounts gained over the node's answers, with equality exactly when neither part is cut off at zero |
| `EvmRent.RentIs` | evm_loader/lib/src/account_storage.rs:881-947 | in every state the report is what loaded accounts gained, plus what upgrading dropped ones had cost, plus what is cut off at zero |
| `EvmRent.UnderReportedExactly` | evm_loader/lib/src/account_storage.rs:881-947 | in every state rent is under-reported exactly when the upgrades of dropped accounts had freed more lamports, on balance, than the two parts lose by being cut off at zero |
| `EvmRent.UnderReports` | evm_loader/lib/src/account_storage.rs:881-947 | for any two legacy accounts: one read, a snapshot, the other read, a revert; rent is then under-reported exactly when upgrading the first cost lamports and upgrading the second, now gone, freed some |
| `EvmRent.CostsAndFrees` | evm_loader/lib/src/account_storage.rs:416-464 | an account with a wallet alone and less than a balance account's rent costs, one with nothing to convert frees what it holds |
| `EvmStorage.Emulator.UpgradeThenRevert` | evm_loader/lib/src/account_storage.rs:1496-1517 | a legacy account loaded after a snapshot and reverted is gone while the lamports of its upgrade stay noted |
| `EvmRent.UpgradeRent` | evm_loader/lib/src/account_storage.rs:881-907 | the two running sums, in whatever order the map yields its entries, give the upgrade rent or overflow exactly when a sum does |
| `EvmRent.RegularRent` | evm_loader/lib/src/account_storage.rs:909-943 | likewise for the regular rent, the system program left out |
| `EvmRent.ChangesInRent` | evm_loader/lib/src/account_storage.rs:945-947 | the total is reported exactly when every sum fits 64 bits, is the one of `RentIs`, and does not fall short of what the accounts gained while every upgraded account is loaded |
| `EvmRent.RentOfRun` | evm_loader/lib/src/account_storage.rs:881-947 | after any run without a revert the report of the emulator covers what its accounts gained |
| `EvmLookups.NodeCache.GetMultiple` | evm_loader/lib/src/account_storage.rs:309-357 | for every key list, repeats and the stand-in operator included, each position holds what a single lookup would give, the cursors never disagree and answers once given stay |
| `EvmLookups.NodeCache.GetAccount` | evm_loader/lib/src/account_storage.rs:292-307 | a single lookup: nothing for the stand-in operator, else the cache, else the node |
| `EvmLookups.GetBalances` | evm_loader/lib/src/commands/get_balance.rs:90-152 | each position holds what looking its address up alone would give, and the whole fails exactly when one of them would |
| `EvmLookups.FlaggedAt` | evm_loader/lib/src/commands/get_balance.rs:123-133 | the key at the second cursor is the key at the first cursor's position |
| `EvmLookups.CommandAgreesWithEmulator` | evm_loader/lib/src/commands/get_balance.rs:49-88 | where the balance command answers, it answers with what the first wallet read of a fresh emulator gives; it refuses exactly the addresses that hold something other than a balance account, which the emulator reads as an empty wallet |
| `Amounts.TrimmedThenParse` | evm_loader/program-2022/src/lib.rs:46-92 | for every amount and every scale the trimmed text parses back to the amount |
| `Amounts.PrintThenParse` | evm_loader/program-2022/src/lib.rs:46-57 | the untrimmed text as well |
| `Amounts.PrintExactly` | evm_loader/program-2022/src/lib.rs:46-57 | the text is the numeral of the whole tokens without leading zeros, a dot, and exactly as many digits as the scale, worth the rest |
| `Amounts.TrimmedExactly` | evm_loader/program-2022/src/lib.rs:61-68 | the trimmed text is that numeral alone exactly when nothing is left, and otherwise the numeral, a dot and digits that do not end in zero, worth the rest |
| `Amounts.ParseExactly` | evm_loader/program-2022/src/lib.rs:72-92 | a whole part and a fraction of digits are accepted exactly when a digit counts, the trimmed fraction fits the scale and the scaled number fits 64 bits, and give that number |
| `Amounts.ParsedIsDenoted` | evm_loader/program-2022/src/lib.rs:72-92 | the amount over ten to the scale is exactly the fraction as written |
| `Amounts.ParseWhole` | evm_loader/program-2022/src/lib.rs:72-92 | the same for a text without a dot |
| `Amounts.ParseUiExactly` | evm_loader/program-2022/src/lib.rs:72-92 | for every text and scale: accepted exactly when it has at most one dot, something besides trailing zeros, a trimmed fraction that fits, only digits after an optional leading sign, a digit once the scale is filled up, and a number of 64 bits; the amount is that number |
| `Amounts.ReadsAsWritten` | evm_loader/program-2022/src/lib.rs:72-92 | an accepted text gives the amount it spells if and only if it shows a digit and no plus sign stands in a non-zero fraction; a lone sign gives zero, a sign in the fraction a tenth |
| `Amounts.LonePlus` | evm_loader/program-2022/src/lib.rs:85-91 | a plus sign without a digit is read as zero exactly at scales above the whole one |
| `Amounts.SignMisread` | evm_loader/program-2022/src/lib.rs:85-91 | a plus sign in front of a non-zero fraction is accepted exactly when a digit's place is left for it, and is then never read as written |
| `Amounts.AmountToUiStringTrimmed` | evm_loader/program-2022/src/lib.rs:61-68 | insert and trim compute `PrintTrimmed` |
| `Amounts.UiStringToAmount` | evm_loader/program-2022/src/lib.rs:72-92 | split, trim and pad compute `ParseUi` |
| `StateCodec.MintCodec` | evm_loader/program-2022/src/state.rs:42-87 | unpacking a packed mint gives it back whatever the buffer held, and packing back what was unpacked changes no byte |
| `StateCodec.AccountCodec` | evm_loader/program-2022/src/state.rs:134-183 | the same for accounts |
| `StateCodec.MultisigCodec` | evm_loader/program-2022/src/state.rs:219-252 | the same for multisigs |
| `StateCodec.KeyField` | evm_loader/program-2022/src/state.rs:255-274 | an optional key survives, `None` leaving the body in place |
| `Layouts.MintLayout` | evm_loader/program-2022/src/state.rs:42-87 | 82 bytes unpack to a mint if and only if its fields lie at their offsets, low byte first, under tags of zero or one |
| `Layouts.AccountLayout` | evm_loader/program-2022/src/state.rs:134-183 | the same for 165 bytes and an account |
| `Layouts.MultisigLayout` | evm_loader/program-2022/src/state.rs:219-252 | the same for 355 bytes and a multisig |
| `StateCodec.PackMintInto` | evm_loader/program-2022/src/state.rs:65-86 | packing in place writes exactly `PackMint` and nothing beyond |
| `StateCodec.PackAccountInto` | evm_loader/program-2022/src/state.rs:152-182 | packing in place writes exactly `PackAccount` and nothing beyond |
| `StateCodec.PackMultisigInto` | evm_loader/program-2022/src/state.rs:240-251 | the key loop writes exactly `PackMultisig` and nothing beyond |
| `StateCodec.UnpackSigners` | evm_loader/program-2022/src/state.rs:235-237 | the chunk loop reads the eleven keys |
| `StateCodec.ReadersAgree` | evm_loader/program-2022/src/generic_token_account.rs:17-62 | on every buffer whose base unpacks, the fixed-offset readers answer exactly when the account is initialised and the buffer bare or typed, and answer what unpacking says |
| `StateCodec.ReadersAcceptMore` | evm_loader/program-2022/src/generic_token_account.rs:17-62 | for every buffer: the readers answer although the base does not unpack if and only if it is bare or typed, the state byte is not zero, and the state byte is past the last state or one of the three option tags is neither none nor some |
| `InstructionCodec.UnpackExactly` | evm_loader/program-2022/src/instruction.rs:676-979 | unpacking accepts an input as an instruction exactly when the input starts with its packed form, and for one that runs to the end exactly when it is its packed form |
| `InstructionCodec.UnpackPack` | evm_loader/program-2022/src/instruction.rs:676-979 | every instruction survives packing, and one with a fixed-size body also survives anything written after it |
| `Layouts.PackedExactly` | evm_loader/program-2022/src/instruction.rs:817-979 | an instruction packs to exactly the bytes that have its tag and its fields in their places, for each of the forty tags, the thirteen authority codes and the six transfer-fee codes |
| `Layouts.UnpackedExactly` | evm_loader/program-2022/src/instruction.rs:676-815 | bytes unpack to an instruction if and only if they begin with such bytes, and are such bytes where a list or a text runs to the end |
| `Layouts.KnownBytes` | evm_loader/program-2022/src/instruction.rs:1998-2004 | the transfer of one token, byte for byte |
| `InstructionCodec.EncodedPrefix` | evm_loader/program-2022/src/instruction.rs:1907-1922 | an extension instruction's shared prefix is recovered whatever code and data follow it |
| `InstructionCodec.FeeBack` | evm_loader/program-2022/src/extension/transfer_fee/instruction.rs:148-245 | the six transfer-fee instructions survive packing, with anything after them |
| `InstructionCodec.FeeUnpacked` | evm_loader/program-2022/src/extension/transfer_fee/instruction.rs:148-198 | what is read as one of them is its packed form and the rest |
| `InstructionCodec.UnpackTypes` | evm_loader/program-2022/src/instruction.rs:766-772 | the chunk loop accepts exactly the lists of known extension types |
| `InstructionCodec.PackTypes` | evm_loader/program-2022/src/instruction.rs:909-914 | the packing loop writes two bytes for each type |
| `InstructionCodec.TypesBack` | evm_loader/program-2022/src/instruction.rs:792-798 | a list of extension types survives packing |

## Left out

- Confidential transfers, transfer hooks, interest-bearing mints, metadata and metadata pointers: their extensions are
  absent from mints and accounts, so instructions that need them fail with the extension not found.
- The TLV bytes of extensions: an extension is an optional field and takes its length in the buffer; the order of
  entries and the account-type byte are not modelled, nor is a mint or account held in bytes outside `StateCodec`.
- A slot that fails to unpack always fails with one error; the source tells uninitialised from malformed data in some
  places.
- Call depth, the preceding memo instruction, the clock and the rent table are parameters of an instruction (`Env`);
  the node's answers do not change during an emulation.
- Duplicate borrows of one account are errors in the model where the source would fail to borrow twice; writable flags
  of account metas are not modelled.
- `Processor.TokenProgram.Dispatch`: runs the extension handlers without loops (extension initialisers, default state,
  fee setting, withdrawal from the mint, flags, native mint creation) as their functions, not step by step.
- Program-derived addresses: any function may derive associated accounts; the keys of emulator accounts are distinct
  by construction, with the cell seed proved to identify the cell. Nobody but the token program can assign its native
  mint's address.
- The associated-token program with a token program other than the modelled one, and the decoding of its three-variant
  instruction.
- `EvmStorage.Emulator.Replay`: requires answers of the right kinds that satisfy the ordered and settled conditions;
  `EvmExact.PlainExactly` proves that without them the emulator is not a plain map.
- `EvmExact.PlainExactly`: its runs are of reads and writes; snapshots, reverts and commits are in
  `EvmStorage.Emulator.Replay`.
- Balance overrides of a simulated state, the address table for Solana users, header revisions and timestamps, gas,
  realloc counters and block data in the emulator.
- `use_account`, `execute_external_instruction` and the Solana simulator behind them.
- The reallocation limit of a storage cell: a cell has at most 256 entries and stays below it.
- The EVM machine, executor, transaction tree, RPC servers, command-line tools and floating-point amounts.
- `Amounts.UiStringToAmount`: lengths are counted in characters where the source counts bytes; a text with other
  characters than ASCII is refused either way.

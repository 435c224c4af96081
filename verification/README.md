# Citadel wallet runtime, modelled in Dafny

This project models the wallet runtime as a state machine over its contract
storage, its cache and the answers of the outside world (an Electrum server and an
RGB node), and proves what holds of every request and of every run.

Four parts are modelled, each proved against a specification:

- **Chain search** (`ChainScan`, `DiscoveryOrder`, `GapLimit`, `ChainSync`, `AssetMerge`). The
  gap-limit search queries batches of derived scripts, places the transactions it
  hears of, removes duplicate outpoints across batches and attaches RGB amounts. The
  set it finds is characterized exactly; the point where it stops is the first
  aligned quiet batch behind the last used index; with no gap among funded
  addresses it finds what querying every index would find.
- **Transfers** (`CoinSelection`, `TransferModel`, `TransferLaws`). Largest-first
  selection spends as few coins as possible; bitcoins and assets are conserved; asset
  change stays in the wallet.
- **Cache and storage** (`CacheModel`, `CacheDriver`, `StorageModel`,
  `StorageDriver`). Allocations, bitcoin-only outputs, the position index and the next
  unused index are views that agree with the plain maps; the files always hold what
  memory holds.
- **Runs** (`WalletModel`, `WalletInvariants`, `WalletRuns`, `WalletProgress`,
  `WalletOutcomes`, `TransferOutcomes`, `WalletPositions`, `WalletOrigins`,
  `WalletIsolation`, `WalletAttribution`, `WalletExamples`, `Runtime`). Requests are steps
  of a state machine with proved invariants; `WalletOutcomes` and `TransferOutcomes` say
  what each request answers and leaves behind, `WalletPositions` when the position index
  is right, `WalletOrigins`
  where cached coins come from, `WalletIsolation` when bitcoin transfers keep away from
  assets, `WalletAttribution` when RGB transfers move what the node reported;
  `WalletExamples` holds concrete runs in which an expected promise fails; the class
  `Runtime` carries requests out on mutable objects and is proved to do what the state
  machine says.

`UtxoText` models the text form of an unspent output. `Collections` holds sums over
sets and the ordered walk over sorted sets and maps.

## Conventions

- Integers keep their widths. A u64 addition that does not fit is the outcome
  `Overflow`: arithmetic is checked, as in an unoptimized build, and the point where
  the panic would occur leaves the state unchanged.
- Heights, block offsets and output numbers are cut to u32 and u16 as the source casts
  them. A property that needs a number to fit says so.
- Normal child indexes are 0 to 2^31-1 (section "Extended keys" of BIP-32). The largest
  one is never searched, because ranges are half-open.
- Hash sets are walked in arbitrary order: an order is a parameter that lists the set.
  The tree sets of outpoints, transactions and contract ids are walked in ascending
  order; the stored tweaks are walked in an arbitrary order.
- `Env` holds what libraries compute: policy commitments, script and address
  derivation, transaction ids, concealment of seals. Injectivity is assumed only by
  the lemmas that name it.
- A server may answer each synchronization differently, and contradict itself. Three
  invariants are kept apart by what they take of the outside world: `Sound` holds
  whatever servers and nodes answer; `Exact` (unique outpoints, balanced records) as
  long as no RGB node reports the default contract id, under which the wallet files
  bitcoin itself (`NoBitcoinAsset`); `Positioned` as long as the places the servers prove
  are those of one chain (`Agrees`). A reorganization breaks only the last.
- A synchronization requires a lookup depth of at least one; `EndsExactly` says when the
  loop ends for any depth.

Where a comment of the source differs from its code, the model follows the code: the
map of block positions is described as leading from a transaction to its place
(src/cache/file/model.rs:44), but leads from a place to the transaction.

## Where a promise has a condition

Some properties one would expect do not hold without a condition. The code is kept as
it is, and the exact condition is proved.

- An RGB transfer balances in bitcoins exactly when the bitcoins under the selected
  asset outputs cover the giveaway and the fee, which nothing checks (`BalancedExactly`;
  for all orders of the hash set `BalancedInEveryOrder`; a failing run is
  `RgbMayOverspend`).
- RGB amounts are paired with outputs by position, and land on their own outputs exactly
  when the outputs were found in ascending order of outpoints, by transaction id and then
  by number (`AttributionIsRightExactly`; a failing run is `AmountIsMisfiled`). Totals are
  right in any order (`MergeConserves`).
- RGB transfers conserve the amounts filed in the cache (`RgbTransfersConserve`). Those
  are the amounts the RGB node reported on the spent outpoints, and on the outpoint that
  takes the rest, exactly when the outputs were found in ascending order of outpoints
  (`RgbSpendsAsReportedExactly`, `RgbSealsAsReportedExactly`). The rest can even be left
  on an outpoint with nothing of the asset, against src/runtime/processor/transfer.rs:244-250,
  exactly when besides at least three outputs were found (`RgbSealsOnHoldersExactly`). A
  failing run is `EmptyOutputIsTransferred`.
- The comment at src/runtime/processor/transfer.rs:52-55 wants bitcoin transfers to keep
  away from outputs holding assets. They keep away from those the cache has filed
  (`BitcoinTransfersConserve`). They keep away from those the RGB node reported exactly
  when every found output of value stands, in the order of discovery, where its outpoint
  has its place in sorted order (`TransfersSpareAssetsExactly`,
  `AscendingSparesAssetsExactly`; a failing run is `AssetIsSpentAsBitcoin`).
- The position of a cached coin leads back to its transaction in every run against one
  chain (`PositionsLeadBack`); for any servers it survives a synchronization exactly when
  what it found displaces no other coin cached before and no output of its own
  (`PositionsSurviveExactly`; a failing run is `ReorganizationMisleads`). It displaces its
  own only for a server that places two transactions together (`DisplacesExactly`).
- The next unused index is above all used ones exactly while index 2^31-1 is unused
  (`NextIsFresh`; a failing run is `AddressIsHandedOutTwice`). An index taken for change
  is searched again exactly when it is below 2^31-1 (`TakenIsSearchedExactly`,
  `LastAddressIsNeverSearched`).
- A funded index is searched exactly when no aligned quiet batch behind the last used
  index ends at or before it (`SearchedExactly`; a failing run is `GapHidesFunds`). The
  loop ends exactly when the depth is positive or some batch is not answered
  (`EndsExactly`).
- Creating a contract keeps the stored ones exactly when none is filed under its id, or
  an untouched one of that name (`CreatingReplacesExactly`,
  `CreatingAgainLosesInvoices`).
- An invoice for an unknown contract is refused after it has reached the contracts
  before it (`InvoicesReachExactly`, `RefusedInvoiceIsRecorded`).

## Model

| member | source | states |
|---|---|---|
| `CoinSelection.SelectCoins` | src/runtime/processor/transfer.rs:75-107 | the selecting pass over the sorted coins, with its accumulator inside u64, takes exactly the specified prefix and remembers the specified spare coin |
| `CoinSelection.LargestFirstSorts` | src/runtime/processor/transfer.rs:65-70 | sorting and reversing lists every coin of the hash set once, by descending value |
| `CoinSelection.SelectionIsTight` | src/runtime/processor/transfer.rs:84-107 | the selection reaches the target exactly when the whole balance does, never spends a worthless coin, and falls short without any one of its coins |
| `CoinSelection.FewestCoins` | src/runtime/processor/transfer.rs:68-107 | no set of coins that reaches the target has fewer coins than the selection |
| `CoinSelection.OrderDoesNotMatter` | src/runtime/processor/transfer.rs:56-107 | the number of coins taken and their worth do not depend on the order of the hash set, for targets within reach or beyond it |
| `CoinSelection.PickedIsLeading` | src/runtime/processor/transfer.rs:56-107 | what any order picks is a set of largest coins that just reaches the target |
| `CoinSelection.LeadingIsPicked` | src/runtime/processor/transfer.rs:56-107 | every set of largest coins that just reaches the target is what some order of the hash set picks |
| `TransferLaws.BitcoinIsConserved` | src/runtime/processor/transfer.rs:192-240 | for a bitcoin draft the amount looked up again in the cache is the amount selected, and outputs plus fee equal inputs |
| `TransferLaws.BalancedExactly` | src/runtime/processor/transfer.rs:206-240 | any draft balances exactly when the bitcoins in the cache under the coins selected in that order cover what is paid away and the fee |
| `TransferLaws.BalancedInEveryOrder` | src/runtime/processor/transfer.rs:56-273 | no order of the hash set gives a draft that does not balance, exactly when no set of largest coins that just reaches the target holds too few bitcoins while needing no bitcoin change for the rest of the asset |
| `TransferLaws.AssetIsConserved` | src/runtime/processor/transfer.rs:249-273 | asset value plus asset change equals the asset amount of the spent coins, as filed in the cache |
| `TransferLaws.AssetChangeIsSafe` | src/runtime/processor/transfer.rs:83-95 | asset change goes to the largest unspent coin on which the asset is filed in the cache, or to the wallet's own change output of the same transaction |
| `CoinSelection.SpareIsLargest` | src/runtime/processor/transfer.rs:83-95 | the spare coin is worth at least as much as every other coin left over |
| `TransferLaws.InputsCarryNoAsset` | src/runtime/processor/transfer.rs:52-66 | inputs of a bitcoin draft are cached bitcoin outputs of positive value without any asset filed on them in the cache |
| `TransferLaws.FewestInputs` | src/runtime/processor/transfer.rs:68-107 | a draft has as few inputs as any sufficient set of the coins on offer, and its rest is less than each of them |
| `TransferLaws.InsufficientExactly` | src/runtime/processor/transfer.rs:117-135 | funds are refused as insufficient exactly when all coins on offer are worth less than the target |
| `CacheModel.ComputeAllocations` | src/cache/file/driver.rs:65-84 | the nested accumulation gives, for each outpoint and asset, the sum of the matching outputs, in any order, or overflows exactly when a sum does not fit |
| `CacheModel.AllocationTotals` | src/cache/file/driver.rs:65-84 | summed over outpoints, the allocations of an asset amount to what its outputs amount to |
| `CacheModel.UnspentBitcoinOnly` | src/cache/file/driver.rs:35-63 | the view is exactly the bitcoin outputs on whose outpoint no other asset has a positive value, or overflows exactly when a total does not fit |
| `CacheModel.NextIsFresh` | src/cache/file/driver.rs:161-174 | the next index lies above every used one exactly while the last index is unused |
| `WalletOutcomes.NextFollowsUsed` | src/cache/file/driver.rs:161-212 | the next index is 0 or follows a used one, and is 0 exactly when nothing or the largest index is used; the last used index is the largest one used |
| `WalletOutcomes.TakenFollowsUsed` | src/runtime/processor/transfer.rs:212-224 | an index taken for change or a marked address is 0 or follows one used before, and is 0 only if nothing or the largest index was used |
| `CacheModel.Highest` | src/cache/file/driver.rs:199-212 | the largest used index, if any |
| `CacheDriver.FileDriver.WithContract` | src/cache/file/internal.rs:153-171 | a change is applied to the entry, created if missing, and written through exactly when it succeeds |
| `CacheDriver.FileDriver.UseAddressDerivation` | src/cache/file/driver.rs:176-197 | marking an address either succeeds or leaves memory and file as they were; both always agree |
| `CacheDriver.FailedChangeChangesNothing` | src/cache/file/driver.rs:182-196 | an address clash is met only on an existing entry, so creating the entry was no change |
| `CacheDriver.ForgettingUndoesUse` | src/cache/file/driver.rs:214-222 | forgetting a freshly marked address restores the entry |
| `CacheDriver.FileDriver.Update` | src/cache/file/driver.rs:93-122 | an update replaces outputs and outpoints, drops worthless outputs, extends the positions and is written through |
| `CacheDriver.FileDriver.Load` | src/cache/file/internal.rs:90-107 | reading the file back restores the cache |
| `ChainSync.DeriveScripts` | src/model/policy.rs:228-243 | every index of the half-open range is derived and no other; the checked increment never fails |
| `ChainSync.CollectHits` | src/runtime/processor/chain_sync.rs:81-118 | the fold over the answers groups every listed output by height and transaction, and counts them |
| `ChainSync.ResolveTransactions` | src/runtime/processor/chain_sync.rs:125-163 | transactions are placed in order, duplicates skipped, unplaced ones passed over |
| `ChainSync.Search` | src/runtime/processor/chain_sync.rs:77-189 | the loop ends, sends exactly the planned batches and collects exactly their ledger, or fails exactly when one of them is not answered |
| `ChainScan.AbsorbAllEffect` | src/runtime/processor/chain_sync.rs:125-155 | the search finds exactly the outpoints listed for its scripts and placed in the chain, each once |
| `ChainScan.FoundAsListed` | src/runtime/processor/chain_sync.rs:129-154 | every output found repeats one line of the server's answers, field by field |
| `ChainScan.ListedIsFound` | src/runtime/processor/chain_sync.rs:129-154 | no placed line of the answers is missed, and its outpoint is the real one when its output number fits |
| `ChainScan.AbsorbAllIndexed` | src/runtime/processor/chain_sync.rs:125-154 | against one chain, the position of every output found is indexed under its transaction |
| `DiscoveryOrder.BatchAddsInOrder` | src/runtime/processor/chain_sync.rs:92-155 | one batch appends its outputs by height, then by transaction id, then in the order of the answers, each from the first line it was heard of in |
| `WalletOutcomes.DiscoveredInOrder` | src/runtime/processor/chain_sync.rs:77-155 | a synchronization finds the outputs of earlier batches first, and those of one batch by height, then by transaction id, then in the order of the answers |
| `DiscoveryOrder.BatchPlacesGreatest` | src/runtime/processor/chain_sync.rs:125-129 | after a batch a position leads to the greatest transaction id among those the batch placed there, or where it led before if there is none |
| `GapLimit.BatchesPartition` | src/runtime/processor/chain_sync.rs:165-187 | indexes below the final offset are derived once each and in order, the number of batches is bounded, and the last used index is covered |
| `GapLimit.StopsAtFirst` | src/runtime/processor/chain_sync.rs:165-180 | the final offset is the first aligned quiet batch end behind the last used index, or the largest index |
| `GapLimit.SearchedExactly` | src/runtime/processor/chain_sync.rs:165-187 | an index is searched exactly when no such batch ends at or before it |
| `GapLimit.SearchFinds` | src/runtime/processor/chain_sync.rs:77-189 | what the search finds is what the tweaked scripts and the indexes below the final offset yield |
| `GapLimit.SearchIsComplete` | src/runtime/processor/chain_sync.rs:77-189 | with no gap (section "Address gap limit" of BIP-44) it finds what querying every index below the largest would |
| `GapLimit.UsedIsSearched` | src/runtime/processor/chain_sync.rs:165-187 | an index not above the last used one is searched exactly when it is not the largest |
| `GapLimit.RoundsAreBatches` | src/runtime/processor/chain_sync.rs:77-188 | round by round the loop queries the planned batches, and exactly the last of them, at the final offset, reaches a break |
| `GapLimit.EndsExactly` | src/runtime/processor/chain_sync.rs:77-188 | for any depth the loop ends exactly when the depth is positive or some batch is not answered |
| `AssetMerge.MergeAssets` | src/runtime/processor/chain_sync.rs:196-212 | the merging loops compute the specified lists, or fail as the node fails or a sum overflows |
| `AssetMerge.MergeConserves` | src/runtime/processor/chain_sync.rs:196-212 | each asset's written total is the node's total over all found outpoints, for any discovery order |
| `AssetMerge.MergeShape` | src/runtime/processor/chain_sync.rs:196-212 | within an asset no outpoint repeats, and the bitcoin list is what was found, unless the node reports bitcoin itself |
| `AssetMerge.MergeCopies` | src/runtime/processor/chain_sync.rs:196-212 | whatever the node reports, every entry is a found output with another value |
| `AssetMerge.AttributionIsRightExactly` | src/runtime/processor/chain_sync.rs:198-212 | amounts land on their own outputs, whatever the node reports, exactly when the outputs were found in ascending order of transaction id and then of output number |
| `AssetMerge.PaidIsListed` | src/runtime/processor/chain_sync.rs:198-212 | what the node reports for the k-th outpoint in sorted order is filed under the k-th output discovered |
| `WalletOutcomes.MergedExactly` | src/runtime/processor/chain_sync.rs:196-212 | the merge fails exactly when the node does not report some found outpoint in amounts that add up, with the error of the first such outpoint |
| `AssetMerge.SortedIsInOrder` | src/runtime/processor/chain_sync.rs:198 | the outpoints of the zip are each listed once, by transaction id and then by output number |
| `AssetMerge.PairsUpIsPlaced` | src/runtime/processor/chain_sync.rs:198 | an output stands beside its own outpoint in the zip exactly when it was found after as many others as have outpoints before its own |
| `StorageModel.AddBlindingsWellFormed` | src/model/contract.rs:256-260 | adding reveals keeps every blinding factor opening its own hash, and files each of them |
| `StorageModel.StoppedIsAll` | src/runtime/rpc_server.rs:174-183 | stopping the loop over contracts at the first unknown one reaches exactly those before it |
| `StorageDriver.FileDriver.AddContract` | src/storage/file.rs:159-163 | storing replaces what was filed under the id, and is written through |
| `StorageDriver.FileDriver.AddInvoiceTo` | src/storage/file.rs:199-216 | the invoice and its reveals are added to a known contract; an unknown one changes nothing |
| `StorageDriver.FileDriver.RegisterOperation` | src/storage/file.rs:233-246 | one record is appended to a known contract |
| `WalletInvariants.StepKeepsSound` | src/runtime/rpc_server.rs:47-255 | whatever servers and nodes answer, every request keeps outputs positive and on known outpoints, used addresses derived, and contracts under their own ids with invoices listed once and openings under their own hashes |
| `WalletInvariants.RunKeepsSound` | src/runtime/rpc_server.rs:35-292 | every reachable state is sound, whatever servers and nodes answered |
| `WalletInvariants.StepKeepsExact` | src/runtime/rpc_server.rs:47-255 | every request keeps outpoints unique per asset and records balanced, whatever the servers answer |
| `WalletInvariants.RunKeepsExact` | src/runtime/rpc_server.rs:35-292 | as long as no node reports bitcoin as an asset, outpoints stay unique per asset and every record balanced, even if servers contradict each other |
| `WalletInvariants.RunKeepsPositions` | src/cache/file/driver.rs:93-122 | as long as servers agree with one chain, cached positions stay those of that chain and lead back to their transactions, whatever the nodes report |
| `WalletInvariants.RecordBalances` | src/runtime/processor/transfer.rs:418-487 | the history record of a transfer adds up, in bitcoins with the recorded transaction or in the asset |
| `WalletRuns.BitcoinTransfersConserve` | src/runtime/processor/transfer.rs:41-240 | in every run in which no node reports bitcoin, reorganizations included, a prepared bitcoin transfer spends each input once, pays out with its fee what the cached inputs are worth, and touches no outpoint with an asset filed on it in the cache |
| `WalletRuns.ReceiverIsPaid` | src/runtime/processor/transfer.rs:141-240 | in the same runs the first output pays the receiver; any change goes to the next unused address, which is then marked |
| `WalletRuns.RgbTransfersConserve` | src/runtime/processor/transfer.rs:242-274 | in the same runs an RGB transfer moves exactly the asset value, in amounts as filed in the cache, and keeps its change in the wallet |
| `WalletRuns.RefusalsAreAtomic` | src/runtime/processor/transfer.rs:123-282 | a transfer refused for its own reasons changes nothing; one failing outside leaves, for bitcoin, exactly the reserved address |
| `WalletRuns.NeverWrongDerivation` | src/cache/file/driver.rs:182-190 | with injective derivation no request of any run is refused for a wrong derivation, whatever servers and nodes answer |
| `WalletRuns.AddressesAreRefusedExactly` | src/runtime/rpc_server.rs:107-140 | in any run the next address is refused exactly when it cannot be derived, marked or not |
| `WalletRuns.InconsistentExactly` | src/runtime/processor/transfer.rs:193-196 | in any run the cache is reported inconsistent exactly for a transfer of nothing from a contract never synchronized |
| `WalletRuns.PositionsLeadBack` | src/cache/file/driver.rs:24-26 | in every run against one chain the position of every cached output leads to its transaction |
| `WalletPositions.AbsorbAllTraced` | src/runtime/processor/chain_sync.rs:125-129 | every position a search records is that of a line the server placed there |
| `WalletPositions.PositionsSurviveExactly` | src/cache/file/driver.rs:93-122 | whatever the server proves, after a synchronization positions still lead back to their transactions exactly when what it found displaces no coin cached before for another contract and no output found that is worth something |
| `WalletPositions.DisplacesExactly` | src/runtime/processor/chain_sync.rs:125-155 | a search displaces an output it found itself only if the server places two transactions at one height and one position cut to 16 bits, and then always if it lists each transaction at one height |
| `WalletProgress.AllocationsIncrease` | src/runtime/processor/transfer.rs:212-224 | while nothing is forgotten and the last index is free, indexes taken for a contract strictly increase and lie above all used before |
| `WalletProgress.UseGrows` | src/cache/file/driver.rs:161-197 | without forgetting, used indexes stay used and a taken index is the next unused one |
| `WalletProgress.TakenIsSearchedExactly` | src/runtime/processor/chain_sync.rs:165-187 | an index taken for change or a marked address is searched by every later synchronization, nothing being forgotten, exactly when it is not the largest |
| `WalletProgress.HistoriesOnlyGrow` | src/model/contract.rs:238-260 | between creation and deletion everything recorded is only added to, whatever servers and nodes answer |
| `WalletProgress.HistoriesBalance` | src/runtime/processor/transfer.rs:418-487 | every record of every reachable contract adds up, as long as no node reported bitcoin |
| `WalletProgress.RecordedAmounts` | src/runtime/processor/transfer.rs:418-487 | the recorded balance is what was on offer, the volumes what the spent coins are worth |
| `WalletProgress.CreatingReplacesExactly` | src/storage/file.rs:159-163 | in any run creating a contract leaves the stored ones alone exactly when none is filed under its id, or only an untouched one of that name |
| `WalletProgress.SyncThenRead` | src/runtime/rpc_server.rs:250-255 | reading after a synchronization gives per asset the reported outputs of positive value, all on known outpoints and none lost, whatever the server answers; for bitcoin the last takes a node that does not report it |
| `WalletProgress.ReadingIsStable` | src/runtime/rpc_server.rs:93-99 | only synchronizing a contract changes what reading it gives |
| `WalletProgress.SyncFindsEverything` | src/runtime/processor/chain_sync.rs:77-223 | with no gap, a synchronization caches exactly the outpoints that querying every index would find |
| `WalletProgress.ListedIsCached` | src/runtime/processor/chain_sync.rs:81-223 | every placed line of positive value for a queried script becomes a cached bitcoin coin of that value, if its outpoint is always listed with it |
| `WalletProgress.FundsAreCached` | src/runtime/processor/chain_sync.rs:77-223 | with no gap, every placed line of positive value at an index below the largest becomes a cached bitcoin coin of that value, if its outpoint is always listed with it |
| `WalletOrigins.CachedIsListed` | src/runtime/processor/chain_sync.rs:81-223 | if the node does not report bitcoin, every bitcoin coin cached by a synchronization repeats one line of the answers to it |
| `WalletOrigins.CachedIsOwn` | src/runtime/processor/chain_sync.rs:60-155 | every coin a synchronization caches was found at the contract's own script for its index, or at the script of one of its tweaks |
| `WalletOrigins.CoinsAreOwn` | src/runtime/processor/transfer.rs:284-350 | in any run every untweaked cached coin of a stored contract was found at that contract's own script for the coin's index |
| `WalletOrigins.TweakedCoinsAreKnown` | src/runtime/processor/transfer.rs:284-350 | every tweaked cached coin carries one of the contract's tweaks until the contract is deleted, created again or synchronized anew |
| `WalletOrigins.TweakedChangeIsSearched` | src/runtime/processor/chain_sync.rs:60-72 | the own outputs of a prepared RGB transfer, with the scripts the node tweaked, are searched by every later synchronization until the contract is deleted or created again |
| `WalletProgress.SyncConservesAssets` | src/runtime/processor/chain_sync.rs:196-223 | a synchronization reports for each asset the node's total over the cached outpoints |
| `WalletProgress.InvoicesReachExactly` | src/runtime/rpc_server.rs:174-183 | an invoice is refused exactly when a contract is unknown, having reached exactly the contracts before it |
| `WalletOutcomes.AcceptOutcome` | src/runtime/rpc_server.rs:227-246 | in any run accepting a transfer is refused exactly when the node fails, and hands over an opening exactly when the transfer is valid and accepted, and the opening is known and opens one of its endpoints concealing an outpoint |
| `WalletOutcomes.SyncOutcome` | src/runtime/processor/chain_sync.rs:29-224 | a synchronization fails exactly for a missing server, an unknown contract, an unanswered batch or an unreported outpoint, each with its error; it learns the height of the last header once the search is through, and changes the cache only if it succeeds |
| `WalletOutcomes.AddressOutcome` | src/runtime/rpc_server.rs:107-140 | an address is derived at the requested or the next index and marked exactly when asked for; nothing else changes |
| `WalletOutcomes.ReleaseOutcome` | src/runtime/rpc_server.rs:142-149 | releasing an address removes it from the used ones of its contract and touches nothing else |
| `WalletOutcomes.ContractOutcome` | src/storage/file.rs:159-197 | creating files an empty contract under the id of its policy, renaming changes the name alone, deleting removes the contract alone, and an unknown id is refused |
| `WalletOutcomes.InvoiceOutcome` | src/runtime/rpc_server.rs:174-183 | a contract is reached exactly when it and all with smaller ids among the sources are known; it then gets the invoice, if new, and the reveal under its own hash, and nothing else |
| `TransferOutcomes.DraftPays` | src/runtime/processor/transfer.rs:141-240 | the first output pays the receiver what the request names; what is left of the bitcoins goes to the next unused address in the last output, the only one known as the wallet's own |
| `TransferOutcomes.DraftSeals` | src/runtime/processor/transfer.rs:141-189 | an asset goes to the concealed outpoint the receiver named, or to the first output, which pays its script the giveaway; each seal carries its own blinding factor |
| `TransferOutcomes.TransferIsHandedOut` | src/runtime/processor/transfer.rs:352-503 | a prepared bitcoin transfer is handed out as drafted, a prepared RGB transfer as the node returned it |
| `TransferOutcomes.TransferIsRecorded` | src/runtime/processor/transfer.rs:418-500 | history gains one record of the transaction handed out, with its id, the invoice and what the request asked for, and reading the history shows it |
| `TransferOutcomes.TransferKeepsTheRest` | src/runtime/processor/transfer.rs:206-240 | a prepared transfer changes nothing but the history, the tweaks and the reserved change address |
| `TransferOutcomes.TransferAddsTweak` | src/runtime/processor/transfer.rs:380-416 | the only tweak a prepared transfer adds is the one the node reports for the wallet's own change output, under its index and on the transaction handed out |
| `TransferOutcomes.ChosenExactly` | src/runtime/processor/transfer.rs:56-135 | coins are chosen exactly when everything adds up and the offer reaches what is needed, and the refusal says which failed |
| `TransferOutcomes.SettledExactly` | src/runtime/processor/transfer.rs:137-273 | a choice is settled unless the receiver is unsupported, no bitcoins are cached, amounts overflow, the change has no own address or the rest of the asset no place, each with its error |
| `TransferOutcomes.ConcludedExactly` | src/runtime/processor/transfer.rs:276-503 | a draft fails outside exactly for a missing connection or, for an asset, a failing node or a witness with too many outputs |
| `TransferOutcomes.RefusedExactly` | src/runtime/processor/transfer.rs:49-135 | a transfer that is not drafted changes nothing; it is refused for an unknown contract or insufficient funds exactly when they are |
| `WalletIsolation.PureCoinsAreFreeExactly` | src/cache/file/driver.rs:35-63 | after a synchronization no output that passes for pure bitcoin holds an asset the node reported, for every node, under the same condition exactly |
| `WalletIsolation.TransfersSpareAssetsExactly` | src/runtime/processor/transfer.rs:52-66 | until the next synchronization no bitcoin transfer spends an output holding an asset the node reported, for every node, run and request, exactly when every found output of value stands where its outpoint has its place in sorted order |
| `WalletIsolation.AscendingSparesAssetsExactly` | src/runtime/processor/transfer.rs:52-66 | if all found outputs are worth something, the same holds exactly when they were discovered in ascending order of outpoints |
| `WalletAttribution.RgbSpendsAsReportedExactly` | src/runtime/processor/transfer.rs:83-107 | until the next synchronization every coin an RGB transfer spends is worth what the node reported on its outpoint, for every node, run and request, exactly when the outputs were discovered in ascending order of outpoints |
| `WalletAttribution.RgbSealsAsReportedExactly` | src/runtime/processor/transfer.rs:244-273 | the same for the coin on which an RGB transfer leaves the rest of the asset |
| `WalletAttribution.RgbSealsOnHoldersExactly` | src/runtime/processor/transfer.rs:244-273 | the rest of an asset can be left on an outpoint on which the node reported nothing of it, exactly when at least three outputs were discovered and not in ascending order |
| `WalletExamples.AmountIsMisfiled` | src/runtime/processor/chain_sync.rs:196-212 | outputs 1 and 0 of one transaction are listed in that order, and the asset on output 0 is filed under output 1 |
| `WalletExamples.AssetIsSpentAsBitcoin` | src/runtime/processor/transfer.rs:52-66 | a contract is created and synchronized, and a bitcoin transfer prepared that spends the output holding an asset |
| `WalletExamples.EmptyOutputIsTransferred` | src/runtime/processor/transfer.rs:83-107 | a contract is created and synchronized, and an RGB transfer prepared that spends an output on which the node reported nothing |
| `WalletExamples.RgbMayOverspend` | src/runtime/processor/transfer.rs:155-240 | a contract is created and synchronized, and an RGB transfer prepared that spends one bitcoin unit and pays out ten |
| `WalletExamples.GapHidesFunds` | src/runtime/processor/chain_sync.rs:165-187 | a contract funded at its second address only is synchronized with depth one, and nothing is cached |
| `WalletExamples.ReorganizationMisleads` | src/cache/file/driver.rs:24-26 | two contracts are synchronized with servers of different chains, and the position of a coin of the first leads to a transaction of the second |
| `WalletExamples.AddressIsHandedOutTwice` | src/cache/file/driver.rs:161-174 | once index 2^31-1 is marked, the next address is the same twice |
| `WalletExamples.LastAddressIsNeverSearched` | src/runtime/processor/chain_sync.rs:165-187 | the address taken after index 2^31-2 is never searched |
| `WalletExamples.CreatingAgainLosesInvoices` | src/storage/file.rs:159-163 | creating the same contract again loses the invoice it had sent |
| `WalletExamples.RefusedInvoiceIsRecorded` | src/runtime/rpc_server.rs:174-183 | an invoice naming a known and an unknown contract is refused and recorded with the known one |
| `Runtime.Runtime.SynchronizeContract` | src/runtime/processor/chain_sync.rs:29-224 | the imperative synchronization does what the state machine says |
| `Runtime.Runtime.Transfer` | src/runtime/processor/transfer.rs:41-503 | the imperative transfer does what the state machine says, marking the change address before anything external |
| `Runtime.Runtime.Process` | src/runtime/rpc_server.rs:47-255 | each modelled request does what the state machine says and leaves both files holding what memory holds |
| `Runtime.Runtime.Serve` | src/runtime/service.rs:127-154 | serving a series of requests leads to the state of that run |
| `UtxoText.RoundTrip` | src/model/utxo.rs:44-127 | parsing the printed form returns the output with tweak and address cleared |
| `UtxoText.AddressFollows` | src/model/utxo.rs:101-123 | a seventh field is read as the address, or dropped; an eighth is refused |
| `UtxoText.DisplayIsInjective` | src/model/utxo.rs:44 | two outputs print alike exactly when they agree up to tweak and address |
| `UtxoText.DecimalRoundTrip` | src/model/utxo.rs:111-116 | a decimal number reads back exactly when it lies below the limit of its type |
| `UtxoText.DisplaySeparators` | src/model/utxo.rs:44 | the printed form separates its fields by an at sign, two angle brackets, a colon and a percent sign |
| `UtxoText.DecimalIsShortest` | src/model/utxo.rs:44 | a printed number is its digits without leading zeros |
| `UtxoText.ParseUintExactly` | src/model/utxo.rs:111-116 | a text is read as a number exactly when it is digits, after at most one plus sign, below the limit |
| `UtxoText.CaseDoesNotMatter` | src/model/utxo.rs:115 | upper-case and lower-case hexadecimal digits are read alike |
| `UtxoText.TxidRoundTrip` | src/model/utxo.rs:115 | a transaction id reads back from its reversed hexadecimal form |

## Left out

- Sockets, marshalling, logging, configuration, file handles and I/O errors: the files are images written through a codec, and encoding a hash set is treated as a function of the set.
- Wrapping arithmetic of optimized builds: an overflow ends the request instead.
- The RGB node's own transfer, validation and disclosure: its answer is arbitrary, and only the wallet's reaction to it is modelled.
- Partially signed transaction metadata (derivation paths, scripts, proprietary keys), finalizing and broadcasting: they do not affect the amounts or the cache.
- Descriptors, address encoding and the legacy rewrite of descriptors: functions of `Env`.
- The cache is not debited by a transfer, so two transfers without a synchronization between them may spend the same coins; nothing is claimed about them.
- Listing contracts, invoices and used addresses, picking an outpoint to blind, assets, signers and identities: single reads or unfinished operations.
- Timestamps, the cached block information and the transaction cache: never read by the modelled code.
- Repetitions among the reveals handed over with an accepted transfer: they are compared as a set.
- The position of a transaction beyond 2^16 in its block: positions are cut as in the source, and `Agrees` is stated about the cut positions.

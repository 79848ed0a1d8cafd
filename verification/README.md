# Extrinsic service, Subscan paging context and balance record — a Dafny model

This project models three pieces of the wallet SDK's logic.

- **The extrinsic service** (`extrinsic_service.dfy`, module `Extrinsics`). It has five public
  calls: `estimateFee` and `submit`, each single or indexed, and `submitAndWatch`. Each call asks
  the extrinsic operation factory for an operation wrapper. It installs a completion block on the
  wrapper's target operation and enqueues all of the wrapper's operations at once. When the
  target finishes or is cancelled, it hands exactly one value to the caller's completion closure.
  The rule that turns "the target's result, or none" into that value is a set of pure functions:
  `SingleCompletion`, `WatchCompletion` and `IndexedCompletion`, with the `Array(repeating:count:)`
  fan-out as `Repeating`. The service is a class whose `log` records each call as four events, in
  order: the factory request, the installed block, the enqueue, and the delivery. Its invariant
  `WellFormed` says the log is made of whole calls.
- **The Subscan history paging context** (`subscan_history_context.dfy`, module `SubscanHistory`).
  This covers the per-source record (page, row, isComplete, key suffix) and the three-source
  aggregate. It includes their `[String: String]` serialisation and parsing, with defaults, and the
  copy-with-replacement updates. It also covers the filter step that marks excluded sources
  complete. `swift_text.dfy` (module `SwiftText`) gives Swift's textual forms of `Int` and `Bool`:
  `String(x)`, `Int(_:)` and `Bool(_:)`. Because of it, the dictionary round trip is proved and
  not assumed.
- **The balance record** (`balance_context.dfy`, module `Balance`). This covers the derived
  amounts `total`, `locked` and `available`, and reading the record from and writing it to its
  dictionary. It also covers the four `byChanging…` updates. Foundation's base-10 `Decimal` is
  modelled as an exact `real`.

`wrappers.dfy` holds Swift's `Optional` as `Option`.

Three behaviours of the code are worth noting:

- `submitAndWatch` does not report the underlying error. Any failure of the graph reaches the
  caller as `parentOperationCancelled` (see `WatchDropsTheError`).
- On success, the indexed calls pass the graph's list through without checking that it has
  `numberOfExtrinsics` entries. Only the failure paths are guaranteed that length.
- No timeout is imposed on the watch path.

## Model

| member | source | states |
|---|---|---|
| Extrinsics.Repeating | Common/Services/ExtrinsicService/ExtrinsicService.swift:115-118 | `Array(repeating:count:)` has exactly `count` entries, each equal to the element |
| Extrinsics.SingleCompletion | Common/Services/ExtrinsicService/ExtrinsicService.swift:86-92 | a present result (success or failure) is delivered unchanged; a missing result is delivered as `.failure(parentOperationCancelled)` |
| Extrinsics.WatchCompletion | Common/Services/ExtrinsicService/ExtrinsicService.swift:157-163 | success is delivered iff the target's result is a success, with the same value; every other delivery is `parentOperationCancelled` |
| Extrinsics.IndexedCompletion | Common/Services/ExtrinsicService/ExtrinsicService.swift:110-121 | a successful list is passed through unchanged; a failure with error e becomes `numberOfExtrinsics` copies of `.failure(e)`; a missing result becomes `numberOfExtrinsics` copies of `.failure(parentOperationCancelled)` |
| Extrinsics.WatchDropsTheError | Common/Services/ExtrinsicService/ExtrinsicService.swift:158-162 | a failed watch delivers exactly what a cancelled one does, so the original error is lost |
| Extrinsics.IndexedFailureHasOneEntryPerExtrinsic | Common/Services/ExtrinsicService/ExtrinsicService.swift:183-189 | on every path except a successful graph, the delivered list has `numberOfExtrinsics` entries, all equal |
| Extrinsics.Wrapper.AllOperations | Common/Services/ExtrinsicService/ExtrinsicService.swift:95 | `allOperations` holds the dependencies followed by the target, so the single enqueue includes the target |
| Extrinsics.ExtrinsicService.EstimateFee | Common/Services/ExtrinsicService/ExtrinsicService.swift:78-96 | appends one call to the log: request `estimateFeeOperation`, install the pass-through block on the target, enqueue `allOperations` once, deliver `SingleCompletion` of the target's result; the log stays well formed |
| Extrinsics.ExtrinsicService.EstimateFeeIndexed | Common/Services/ExtrinsicService/ExtrinsicService.swift:98-125 | the same for the indexed fee request: the fan-out block is installed, `allOperations` is enqueued once, and `IndexedCompletion` is delivered |
| Extrinsics.ExtrinsicService.Submit | Common/Services/ExtrinsicService/ExtrinsicService.swift:127-146 | the same for `submit`: the request is a submit request, never a fee request, and `SingleCompletion` is delivered |
| Extrinsics.ExtrinsicService.SubmitAndWatch | Common/Services/ExtrinsicService/ExtrinsicService.swift:148-167 | the same for `submitAndWatch`, delivering `WatchCompletion` |
| Extrinsics.ExtrinsicService.SubmitIndexed | Common/Services/ExtrinsicService/ExtrinsicService.swift:169-194 | the same for the indexed `submit`, delivering `IndexedCompletion` |
| Extrinsics.ExtrinsicService.Record | Common/Services/ExtrinsicService/ExtrinsicService.swift:85-95 | the block is installed before the single enqueue, and the delivery follows; the four events are appended in that order, and the invariant is kept |
| Extrinsics.OneOfEachPerCall | Common/Services/ExtrinsicService/ExtrinsicService.swift:77-195 | in any log the service can produce, factory requests, installed blocks, enqueues and deliveries are equal in number, one of each per call |
| Extrinsics.FeeDeliveriesComeFromFeeRequests | Common/Services/ExtrinsicService/ExtrinsicService.swift:83-107 | a fee delivery belongs to a call whose wrapper came from `estimateFeeOperation` and from nothing else |
| SwiftText.Describe | Common/Network/Subscan/SubscanHistoryContext.swift:34-35 | `String(x)` is non-empty, starts with `-` exactly for a negative `x`, and is otherwise decimal digits |
| SwiftText.DescribeBool | Common/Network/Subscan/SubscanHistoryContext.swift:36 | `String(b)` is `"true"` exactly when `b` holds, and `"false"` otherwise |
| SwiftText.IntRoundTrip | Common/Network/Subscan/SubscanHistoryContext.swift:34-35 | `Int(String(x)) == x` for every 64-bit `Int` |
| SwiftText.ParseInt | Common/Network/Subscan/SubscanHistoryContext.swift:72 | `Int(s)` rejects the empty string and accepts only an optional sign followed by decimal digits |
| SwiftText.ParseBool | Common/Network/Subscan/SubscanHistoryContext.swift:72 | `Bool(s)` accepts exactly the two descriptions of a `Bool` |
| SubscanHistory.KeysDisjoint | Common/Network/Subscan/SubscanHistoryContext.swift:4-6 | keys built from the three prefixes and two different suffixes never coincide |
| SubscanHistory.SourceContext.ToContext | Common/Network/Subscan/SubscanHistoryContext.swift:32-38 | exactly three entries, keyed `history.page`, `history.row` and `history.complete`, each followed by the suffix, holding the textual page, row and flag |
| SubscanHistory.SourceContext.ByReplacingPage | Common/Network/Subscan/SubscanHistoryContext.swift:40-47 | only the page changes; row, completion and suffix are kept |
| SubscanHistory.SourceContext.ByReplacingRow | Common/Network/Subscan/SubscanHistoryContext.swift:49-56 | only the row changes |
| SubscanHistory.SourceContext.ByReplacingCompletion | Common/Network/Subscan/SubscanHistoryContext.swift:58-65 | only the completion flag changes |
| SubscanHistory.Extract | Common/Network/Subscan/SubscanHistoryContext.swift:67-77 | the parsed value under the key; the default when the key is missing or its value does not parse |
| SubscanHistory.ParseSource | Common/Network/Subscan/SubscanHistoryContext.swift:13-18 | each field is read from its own key; a missing key or an unparsable value gives page 0, row `defaultRow`, not complete |
| SubscanHistory.SourceRoundTrip | Common/Network/Subscan/SubscanHistoryContext.swift:13-38 | parsing `c.toContext()` with `c.keySuffix` gives back `c`, for any `defaultRow` |
| SubscanHistory.ReplacingPageRewritesOneEntry | Common/Network/Subscan/SubscanHistoryContext.swift:40-47 | after a page replacement the dictionary differs only in the page entry |
| SubscanHistory.ReplacingRowRewritesOneEntry | Common/Network/Subscan/SubscanHistoryContext.swift:49-56 | after a row replacement the dictionary differs only in the row entry |
| SubscanHistory.ReplacingCompletionRewritesOneEntry | Common/Network/Subscan/SubscanHistoryContext.swift:58-65 | after a completion replacement the dictionary differs only in the completion entry |
| SubscanHistory.Merging | Common/Network/Subscan/SubscanHistoryContext.swift:130 | `merging` with the keep-first rule is the union of the two dictionaries; on a shared key the value already present wins |
| SubscanHistory.HistoryContext.ToContext | Common/Network/Subscan/SubscanHistoryContext.swift:128-132 | the aggregate dictionary is the union of the three sources' dictionaries, an earlier source winning on a shared key |
| SubscanHistory.HistoryContextIsDisjointUnion | Common/Network/Subscan/SubscanHistoryContext.swift:81-83 | with distinct suffixes the three dictionaries are disjoint, the union has nine entries, and each source's entries appear unchanged |
| SubscanHistory.ParseHistory | Common/Network/Subscan/SubscanHistoryContext.swift:106-126 | each source is read under its standard suffix with the given `defaultRow` |
| SubscanHistory.HistoryRoundTrip | Common/Network/Subscan/SubscanHistoryContext.swift:106-132 | parsing an aggregate's dictionary with its `defaultRow` recovers it when its sources use the standard suffixes |
| SubscanHistory.ParseEmptyContext | Common/Network/Subscan/SubscanHistoryContext.swift:106-126 | an empty dictionary gives page 0, row `defaultRow` and not complete for every source |
| SubscanHistory.HistoryContext.IsComplete | Common/Network/Subscan/SubscanHistoryContext.swift:90 | the aggregate is complete iff every one of its sources is complete |
| SubscanHistory.HistoryContext.Source | Common/Network/Subscan/SubscanHistoryContext.swift:161-170 | `sourceContext(for:)` returns one of the three sources; under the standard suffixes, the one stored under that label's suffix |
| SubscanHistory.HistoryContext.ByReplacingTransfers | Common/Network/Subscan/SubscanHistoryContext.swift:134-141 | the transfers source becomes the given one; rewards, extrinsics and `defaultRow` are kept |
| SubscanHistory.HistoryContext.ByReplacingRewards | Common/Network/Subscan/SubscanHistoryContext.swift:143-150 | the rewards source becomes the given one; transfers, extrinsics and `defaultRow` are kept |
| SubscanHistory.HistoryContext.ByReplacingExtrinsics | Common/Network/Subscan/SubscanHistoryContext.swift:152-159 | the extrinsics source becomes the given one; transfers, rewards and `defaultRow` are kept |
| SubscanHistory.HistoryContext.ByApplyingIfNeeded | Common/Network/Subscan/SubscanHistoryContext.swift:192-216 | the labelled source is marked complete iff its filter option is absent; the other two sources and `defaultRow` are kept |
| SubscanHistory.HistoryContext.ByReplacingSource | Common/Network/Subscan/SubscanHistoryContext.swift:172-184 | afterwards `sourceContext(for: label)` is the new context; the other two sources and `defaultRow` are unchanged |
| SubscanHistory.ReplaceThenGet | Common/Network/Subscan/SubscanHistoryContext.swift:134-184 | reading a label after replacing it gives the replacement; the other labels and `defaultRow` do not move |
| SubscanHistory.GetThenReplace | Common/Network/Subscan/SubscanHistoryContext.swift:161-184 | putting back the source just read leaves the aggregate unchanged |
| SubscanHistory.ApplyEachSpec | Common/Network/Subscan/SubscanHistoryContext.swift:187-216 | folding `byApplyingIfNeeded` over any list of labels completes exactly the listed sources whose filter option is absent; nothing else changes |
| SubscanHistory.HistoryContext.ByApplying | Common/Network/Subscan/SubscanHistoryContext.swift:186-190 | every source whose option (`.transfers`, `.rewardsAndSlashes`, `.extrinsics`) is absent from the filter becomes complete; the rest and `defaultRow` are kept |
| SubscanHistory.ApplyingIsOrderFree | Common/Network/Subscan/SubscanHistoryContext.swift:187-189 | the result does not depend on the order in which `allCases` lists the labels |
| SubscanHistory.ByApplyingIdempotent | Common/Network/Subscan/SubscanHistoryContext.swift:186-216 | applying a filter twice is the same as applying it once |
| SubscanHistory.ByApplyingCompleteness | Common/Network/Subscan/SubscanHistoryContext.swift:90 | after filtering, the aggregate is complete iff every source the filter keeps was complete |
| Balance.BalanceContext.Total | Modules/Wallet/Model/BalanceContext.swift:20 | total is free plus reserved |
| Balance.BalanceContext.Locked | Modules/Wallet/Model/BalanceContext.swift:21 | locked is reserved plus frozen |
| Balance.BalanceContext.Available | Modules/Wallet/Model/BalanceContext.swift:22 | available is `max(free - frozen, 0)`: never negative, at least `free - frozen`, and one of the two |
| Balance.TotalSplitsIntoAvailableAndLocked | Modules/Wallet/Model/BalanceContext.swift:20-22 | total is at most available plus locked, with equality exactly when free covers frozen |
| Balance.AvailableAtMostFree | Modules/Wallet/Model/BalanceContext.swift:22 | with a non-negative frozen amount, available never exceeds a non-negative free amount |
| Balance.BalanceContext.ToContext | Modules/Wallet/Model/BalanceContext.swift:37-54 | exactly six entries under the six keys; the locks entry is the JSON text, or `""` when encoding fails |
| Balance.ParseAmount | Modules/Wallet/Model/BalanceContext.swift:56-62 | the parsed amount under the key; zero when the key is missing or its value does not parse |
| Balance.ParseLocks | Modules/Wallet/Model/BalanceContext.swift:64-77 | the decoded locks under the key; no locks when the key is missing or its text does not decode |
| Balance.FromContext | Modules/Wallet/Model/BalanceContext.swift:26-35 | a missing or unparsable amount reads as zero, and missing or undecodable locks read as no locks |
| Balance.ParseEmptyContext | Modules/Wallet/Model/BalanceContext.swift:56-77 | an empty dictionary reads as an all-zero balance without locks |
| Balance.ContextRoundTrip | Modules/Wallet/Model/BalanceContext.swift:26-54 | if formatting then parsing gives back each of the record's five amounts, and its locks encode and decode back, reading back `toContext()` recovers the record |
| Balance.Max | Modules/Wallet/Model/BalanceContext.swift:94 | `max` is at least both arguments and equal to one of them |
| Balance.BalanceContext.ByChangingAccountInfo | Modules/Wallet/Model/BalanceContext.swift:81-99 | free and reserved come from the account data, zero when unconvertible; frozen is the larger of misc and fee frozen; price, price change and locks are kept |
| Balance.AccountInfoRespectsBothFrozenAmounts | Modules/Wallet/Model/BalanceContext.swift:86-94 | after the update, locked covers reserved plus either frozen amount, and available is bounded by free minus either one |
| Balance.ChainUpdatesForgetPreviousAmounts | Modules/Wallet/Model/BalanceContext.swift:81-117 | the account-info and asset-balance updates depend on the previous record only through its price, price change and locks |
| Balance.BalanceContext.ByChangingAssetBalance | Modules/Wallet/Model/BalanceContext.swift:101-117 | free, reserved and frozen come from the asset balance, zero when unconvertible; price, price change and locks are kept |
| Balance.BalanceContext.ByChangingBalanceLocks | Modules/Wallet/Model/BalanceContext.swift:119-130 | only the locks change |
| Balance.BalanceContext.ByChangingPrice | Modules/Wallet/Model/BalanceContext.swift:132-141 | only price and price change change |
| Balance.PriceAndLocksKeepDerivedAmounts | Modules/Wallet/Model/BalanceContext.swift:119-141 | price and lock updates leave total, locked and available unchanged |
| Balance.ChangingPriceRewritesPriceEntries | Modules/Wallet/Model/BalanceContext.swift:132-141 | after a price update the dictionary differs only in the two price entries |
| Balance.ChangingLocksRewritesLocksEntry | Modules/Wallet/Model/BalanceContext.swift:119-130 | after a lock update the dictionary differs only in the locks entry |
| Balance.PriceUpdatesCompose | Modules/Wallet/Model/BalanceContext.swift:119-141 | the last price update wins, and price and lock updates commute |

## Left out

- The completion block re-dispatches onto the caller's `DispatchQueue`. The model has no threads.
  A call's delivery is one sequential step after its enqueue.
- The model leaves out `OperationManager` scheduling and its `.transient` mode. It also leaves out
  the construction of the graphs, signing, fee queries, submission and the watch subscription
  inside `ExtrinsicOperationFactory`. A wrapper is a parameter of each call. It carries its
  operation identifiers and the optional result its target ends with.
- RobinHood's `extractNoCancellableResultData` is not part of this model. Its behaviour is written
  into `IndexedCompletion`: it returns the value on success, throws the error on failure, and
  throws cancellation when there is no result.
- `numberOfExtrinsics` is a `nat`. With a negative count, `Array(repeating:count:)` traps on the
  failure path, and the model does not represent that trap.
- The `ExtrinsicService` initialiser, which builds the factory from the account, chain and
  runtime, is left out.
- `RuntimeDispatchInfo` and `BalanceLock` have stand-in fields (`fee`, `weight`; `identifier`,
  `amount`, `reasons`) that are carried and never interpreted. Errors other than cancellation
  are carried in the same way.
- `Decimal` is modelled as an exact `real`. Its 38-digit precision limit and NaN are left out.
- `Decimal(string:)`, `stringWithPointSeparator`, the JSON coding of the locks (including the
  UTF-8 steps) and `Decimal.fromSubstrateAmount` are function parameters, not definitions. No
  numeric text round trip is claimed: `ContextRoundTrip` takes it as a hypothesis, and only for
  the record's own amounts, since a value such as 1/3 has no finite base-10 text.
- Swift `String` comparison uses Unicode canonical equivalence. Strings here are sequences of
  characters. The key prefixes and the three standard suffixes are ASCII, so the two agree on
  them. Any other suffix counts as distinct only as a character sequence: `KeysDisjoint` and
  `HistoryContextIsDisjointUnion` do not cover two suffixes that differ as sequences but are
  canonically equivalent, such as a precomposed and a decomposed `é`. Swift would give such
  suffixes the same keys, so `toContext()` would hold 6 entries, not 9, and the transfers
  entries would win.
- `WalletHistoryFilter` is a set of its three source options, and its other options are left out.
  The order of `WalletRemoteHistorySourceLabel.allCases` is not shown, so `ApplyingIsOrderFree`
  proves that the order does not matter.
- `Common/Extension/SettingsExtension.swift` is a settings wrapper and is not part of this model.
  Neither is the crowdloan list protocol file, which only declares interfaces, nor the two staking
  validator-list view models, which are display structs without behaviour.

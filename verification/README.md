# Logbook and Traveloggers subgraphs in Dafny

This project models the event handlers of two subgraphs of The Graph, which index
the Matters "Logbook" contracts:

- **Logbook** (`logbook/src`). Ten handlers turn contract events into the stored
  entities `Account`, `Logbook`, `Log`, `Donation`, `Fork` and `Pay`.
  `getOrCreateAccount` creates an account with a zero balance the first time an
  address appears.
- **Traveloggers** (`src`). The older subgraph. It creates or re-owns a `Logbook`
  on every ERC-721 `Transfer` and stores one `Log` per `LogbookNewLog` event. Five
  more event kinds have empty handlers.

The store is one map per entity kind, from id to entity. A `load` that misses is a
key not in the map, and a `save` is a map update. Each handler is a pure function
of the store before the event. The Logbook handlers (`LogbookMapping`) and the
Traveloggers transfer and empty handlers return the store after the event.
`Traveloggers.HandleLogbookNewLog` returns an `Outcome`: either the saved store, or
an abort when the message index is out of range. `LogbookProjection` routes a sequence of events through the
handlers and proves what holds over every run.

Entity ids are the strings the mappings build. They come from `toHexString`
(`0x` and lower-case hex digits), `toString` (decimal digits) and the
`${a}-${b}` template. These encodings are defined concretely in `Encoding`, and
their injectivity is proved. That is why a fork of one token pair, a log of one
(token, index) pair or an account of one address never overwrites another's.

The model follows the handlers as written, including three places where they do
less than their names suggest:

- `handlePay` computes the recipient's balance plus the amount and discards it.
  So no handler ever raises a balance; only a `Withdraw` changes one, resetting it to zero.
- `handlePublish` updates the loaded logbook in memory and never saves it.
- `Donation` and `Pay` records are keyed by the transaction hash alone. A second
  event of the same kind in one transaction overwrites the first.

Files:

| file | module | contents |
|---|---|---|
| `wrappers.dfy` | `Wrappers` | `Option` |
| `encoding.dfy` | `Encoding` | hex, decimal and dash-joined ids; injectivity |
| `logbook_schema.dfy` | `LogbookSchema` | Logbook entities and store |
| `logbook_helpers.dfy` | `LogbookHelpers` | `ZeroBI`, `OneBI`, `GetOrCreateAccount` |
| `logbook_mapping.dfy` | `LogbookMapping` | the ten Logbook handlers and their properties |
| `logbook_projection.dfy` | `LogbookProjection` | event routing, runs, invariants over runs |
| `traveloggers.dfy` | `Traveloggers` | the Traveloggers entities, handlers and runs |

## Model

| member | source | states |
|---|---|---|
| Encoding.NatHexInjective | logbook/src/mapping.ts:24 | Logbook ids from `tokenId.toHexString()` are injective: different token ids give different logbook ids |
| Encoding.BytesHexInjective | logbook/src/helpers.ts:10 | Ids from `Bytes.toHexString()` (accounts, logs, transaction hashes) are injective |
| Encoding.NatDecimalInjective | src/mapping.ts:17 | Traveloggers logbook ids from `tokenId.toString()` are injective |
| Encoding.DigitsInjective | src/mapping.ts:36-38 | Different numbers have different digit strings in any base from 2 to 16, the basis of every id above |
| Encoding.SplitBoth | src/mapping.ts:36-38 | A number of at least two digits is its quotient's digit string followed by its last digit, and quotient and last digit determine the number |
| Encoding.JoinDashInjective | logbook/src/mapping.ts:50 | A `${a}-${b}` id determines both halves when the left half contains no dash |
| LogbookHelpers.EnsureAccount | logbook/src/helpers.ts:12-18 | After the lookup the id is present; accounts already stored are untouched; a new one has balance 0 |
| LogbookHelpers.GetOrCreateAccount | logbook/src/helpers.ts:9-21 | The account id is the address's hex string; an existing account is returned and the store is unchanged; otherwise a zero-balance account is created, saved and returned |
| LogbookHelpers.GetOrCreateAccountIdempotent | logbook/src/helpers.ts:9-21 | A second lookup of the same address returns the same account and saves nothing new |
| LogbookHelpers.GetOrCreateAccountKeepsOthers | logbook/src/helpers.ts:10-18 | Looking up one address never creates or changes the account of a different address |
| LogbookMapping.ForkIdInjective | logbook/src/mapping.ts:45-50 | Fork ids `${from}-${to}` of different token pairs are different |
| LogbookMapping.HandleDonate | logbook/src/mapping.ts:23-42 | The donor's account exists afterwards; the donation is stored under the transaction hash with logbook, donor, amount and time; an existing logbook's `donationCount` steps by one and nothing else changes; logs, forks and pays are untouched |
| LogbookMapping.SameTransactionDonationsCollapse | logbook/src/mapping.ts:26-34 | Two donations in one transaction leave a single record, the second one |
| LogbookMapping.HandleFork | logbook/src/mapping.ts:44-72 | The fork is stored under `from-to`; an existing source logbook's `forkCount` steps by one; an existing end log gets the new logbook id appended, without a duplicate check; accounts, donations and pays are untouched |
| LogbookMapping.ForkKeepsOtherPairs | logbook/src/mapping.ts:50-57 | A fork event never creates, removes or replaces the fork record of another token pair |
| LogbookMapping.PurposeName | logbook/src/mapping.ts:88 | The stored purpose is `"Fork"` exactly when the purpose code is 0, and `"Donate"` exactly when it is not |
| LogbookMapping.HandlePay | logbook/src/mapping.ts:74-95 | Sender and recipient accounts exist afterwards; a stored recipient's balance is unchanged, because the sum is discarded; the payment is stored under the transaction hash with its purpose name; nothing else changes |
| LogbookMapping.HandleContent | logbook/src/mapping.ts:97-112 | The author's account exists afterwards; a new content hash gets a log with that author, content and time, no source and no logbooks; an existing log is not touched |
| LogbookMapping.ContentWriteOnce | logbook/src/mapping.ts:102-111 | A second `Content` event for the same hash leaves the logs exactly as the first left them |
| LogbookMapping.PublishedCopy | logbook/src/mapping.ts:119-124 | The in-memory logbook gets the log appended, the log count increased by one and `loggedAt` set; nothing else changes |
| LogbookMapping.HandlePublish | logbook/src/mapping.ts:114-136 | The stored logbooks are unchanged; an existing log gets the logbook appended, and its source set to the logbook only when it was null or empty; nothing else changes |
| LogbookMapping.PublishFirstWins | logbook/src/mapping.ts:129-133 | After two publishes of an unsourced log, the source is the first logbook and both logbooks were appended in order |
| LogbookMapping.PublishDropsLogbookUpdate | logbook/src/mapping.ts:118-124 | The stored logbook after a publish keeps its log count, so it differs from the updated copy |
| LogbookMapping.HandleSetDescription | logbook/src/mapping.ts:138-146 | An existing logbook gets the new description and nothing else changes; an absent logbook leaves the store unchanged |
| LogbookMapping.HandleSetForkPrice | logbook/src/mapping.ts:148-156 | An existing logbook gets the new fork price and nothing else changes; an absent logbook leaves the store unchanged |
| LogbookMapping.HandleSetTitle | logbook/src/mapping.ts:158-166 | An existing logbook gets the new title and nothing else changes; an absent logbook leaves the store unchanged |
| LogbookMapping.HandleTransfer | logbook/src/mapping.ts:168-192 | Both accounts exist afterwards; the logbook exists and is owned by the recipient. A new one starts with empty title, description and logs, zero counters and price, and the block time. An existing one keeps all else and its `transferCount` steps by one. No other logbook changes |
| LogbookMapping.HandleWithdraw | logbook/src/mapping.ts:194-202 | An existing account's balance becomes 0 and nothing else changes; an absent account leaves the store unchanged |
| LogbookProjection.ForkEffectStep | logbook/src/mapping.ts:59-71 | A fork's effect, as `HandleFork` states it, is a step: the end log's list only grows at its end, the source logbook's fork count does not fall and its logs stay as they were, and no balance changes |
| LogbookProjection.DonateEffectStep | logbook/src/mapping.ts:28-41 | Any store change meeting `HandleDonate`'s contract is a step |
| LogbookProjection.DonateStep | logbook/src/mapping.ts:23-42 | A donation is a step: it deletes no entity and only lets logs and logbooks evolve as `HandleAllGrows` describes. It raises no stored balance and gives a new account balance 0. Every stored logbook keeps its logs, log count and publish time, and a new logbook records none |
| LogbookProjection.ForkStep | logbook/src/mapping.ts:44-72 | The same for a fork |
| LogbookProjection.PayEffectStep | logbook/src/mapping.ts:76-94 | Any store change meeting `HandlePay`'s contract is a step; in particular no stored balance rises and both new accounts have balance 0 |
| LogbookProjection.PayStep | logbook/src/mapping.ts:74-95 | The same for a payment; in particular no stored balance rises, although the payment is to the recipient |
| LogbookProjection.ContentStep | logbook/src/mapping.ts:97-112 | The same for new content |
| LogbookProjection.PublishStep | logbook/src/mapping.ts:114-136 | The same for a publish; a set source is never replaced, and no stored logbook's logs, log count or publish time change |
| LogbookProjection.SetDescriptionStep | logbook/src/mapping.ts:138-146 | The same for a description change |
| LogbookProjection.SetForkPriceStep | logbook/src/mapping.ts:148-156 | The same for a fork-price change |
| LogbookProjection.SetTitleStep | logbook/src/mapping.ts:158-166 | The same for a title change |
| LogbookProjection.TransferEffectGrows | logbook/src/mapping.ts:169-191 | A transfer deletes nothing, lets logs only evolve, keeps a logbook's creation time and lowers none of its counters |
| LogbookProjection.TransferEffectFrozen | logbook/src/mapping.ts:169-191 | A transfer raises no stored balance and gives new accounts balance 0; a stored logbook keeps its logs, log count and publish time, and the logbook it creates records none |
| LogbookProjection.TransferEffectStep | logbook/src/mapping.ts:168-192 | Any store change meeting `HandleTransfer`'s contract is a step |
| LogbookProjection.TransferStep | logbook/src/mapping.ts:168-192 | The same for a transfer; in particular a new logbook records no logs and a new account has balance 0 |
| LogbookProjection.WithdrawStep | logbook/src/mapping.ts:194-202 | The same for a withdrawal |
| LogbookProjection.Handle | logbook/src/mapping.ts:23-202 | Any event, routed to its handler, is such a step |
| LogbookProjection.HandleAllGrows | logbook/src/mapping.ts:23-202 | Over any run no entity is deleted. A log's author, content and creation time never change, its set source stays, and its list of logbooks only grows at the end. A logbook's creation time stays and its fork, donation and transfer counters never fall |
| LogbookProjection.FrozenKeepsInvariants | logbook/src/mapping.ts:93-94 | A change that raises no balance and freezes logbook logs keeps all balances zero if they were, and all stored logbooks empty if they were |
| LogbookProjection.HandleAllFrozen | logbook/src/mapping.ts:23-202 | Over any run from any store, no stored balance rises, every account created has balance 0, every stored logbook keeps its logs, log count and publish time, and every logbook created records none |
| LogbookProjection.BalancesStayZero | logbook/src/mapping.ts:93-94 | If every balance is zero, it still is after any run |
| LogbookProjection.LogbooksStayEmpty | logbook/src/mapping.ts:118-124 | If no stored logbook has logs, a log count or a publish time, that still holds after any run |
| LogbookProjection.IndexedFromGenesis | logbook/src/mapping.ts:23-202 | Indexed from the empty store, every balance is 0 and no stored logbook ever records a log |
| LogbookProjection.SourceFixedOnceSet | logbook/src/mapping.ts:129-131 | A log's non-empty source is the same after any further run |
| Traveloggers.LogIdInjective | src/mapping.ts:36-38 | Log ids `${tokenId}-${index}` of different (token, index) pairs are different |
| Traveloggers.HandleTransfer | src/mapping.ts:16-29 | The logbook exists and is owned by the recipient. A new one gets the contract's token URI and length 0; an existing one keeps its URI and length. No other logbook and no log changes |
| Traveloggers.TransferReadsUriOnlyWhenAbsent | src/mapping.ts:19-25 | For a stored logbook the token URI the contract would return has no effect |
| Traveloggers.SaveLength | src/mapping.ts:58-60 | Saving a fresh `Logbook(id)` with only `length` set changes only that field of a stored logbook; an absent one is created with no owner and no URI |
| Traveloggers.HandleLogbookNewLog | src/mapping.ts:32-61 | The handler aborts exactly when the index is outside the logbook's message list. Otherwise the log `tokenId-index` is stored with sender, logbook id, time and the message at the index, and the logbook's length becomes the index |
| Traveloggers.NewLogKeepsOtherLogs | src/mapping.ts:36-55 | A new log never creates, removes or replaces the log of another (token, index) pair |
| Traveloggers.HandleApproval | src/mapping.ts:63 | The store is unchanged |
| Traveloggers.HandleApprovalForAll | src/mapping.ts:65 | The store is unchanged |
| Traveloggers.HandleLotteryWinners | src/mapping.ts:67 | The store is unchanged |
| Traveloggers.HandleOwnershipTransferred | src/mapping.ts:69 | The store is unchanged |
| Traveloggers.HandlePreOrderMinted | src/mapping.ts:71 | The store is unchanged |
| Traveloggers.Handle | src/mapping.ts:16-71 | A routed event either aborts, exactly for an out-of-range log index, or deletes nothing and never changes a logbook URI once set |
| Traveloggers.RunGrows | src/mapping.ts:16-71 | Over any run that completes, nothing is deleted and no logbook URI changes once set |

## Left out

- The generated bindings (`generated/schema`, the event classes) and the manifest that routes events to handlers are not part of this model. The routing in `Handle` pairs each event kind with the handler of the same name.
- Entity classes are assumed to behave as plain records. `push` on a loaded array field, followed by `save`, is modelled as appending to the stored list, as the handlers intend. If the generated getters return copies, the push would be lost, but the generated code is not part of this model.
- The contract calls `tokenURI` and `readLogbook` become event fields: the URI, and the list of log messages.
- `BigInt` values are unbounded naturals. Amounts, counters and timestamps never wrap, as with `BigInt` itself.
- Traveloggers.HandleLogbookNewLog: `index.toI32()` is not narrowed to 32 bits. The index is used as an unbounded natural, and any index past the end of the message list aborts.
- Traveloggers.SaveLength: the graph-node store is assumed to merge the fields set on a new entity into the stored one. An entity created this way that was never stored has no owner and no URI.
- Aborting a handler is modelled only for the out-of-range message index. Other graph-node failures, such as a missing required field or a reverted contract call, are not modelled.
- `logbook.cover = ""` in `handleTransfer` is a placeholder with a TODO. The `cover` field is left out of the model's `Logbook`.
- `ZERO_ADDRESS` is imported but never used by a handler.
- Richer behaviours that no shown handler performs are not modelled: copying a logbook's log prefix on fork, separate publication records, refreshing a token URI on publish, and parent links.
- The handlers store donations and payments by transaction hash alone, never credit a payment to a balance, and never save the logbook in `handlePublish`. The model keeps all three, and the lemmas above state their consequences.

# Multichain transaction lifecycle, modelled in Dafny

This project models the transaction lifecycle of the multichain service. The service has three processes:

- The **API service** validates a request, saves a `transactions` row in `PENDING_SIGN` and appends a `tx:to-sign` stream entry for it.
- The **sender** reads entries one at a time, signs and sends the call, and records the outcome (`PENDING` with a hash, or `FAILED`).
- The **watcher** polls every registered chain on a timer. It resolves `PENDING` rows (`CONFIRMED`, `FAILED`, `REORGED`) and re-examines `REORGED` rows by account nonce (`FAILED`, or re-queued as `PENDING_SIGN`).

Status changes travel on the `tx.sent` and `tx.status` topics. The API service's Kafka consumer applies them to the row and notifies the row's user over a socket room.

## How it is modelled

- **Shared state.** What the processes share is a `Storage.Store` value: the table (rows by id, in insertion order), the stream, the emitted events and the socket notifications. The mutable side is the `Storage.Backend` class.
- **Writes.** Every write is an `Effect`. A step is the list of effects it makes, in order.
- **Services.** Each service is a class (`TransactionSender`, `TransactionWatcher`, `TransactionService`, `KafkaConsumer`, `BlockchainService`). Their methods change the backend, and each method is proved equal to a specification function on the store.
- **Outside answers.** Nodes, signer, JSON parser: the answers come in as parameters. `Chains.Blockchain` holds the chain table. `Watcher.ChainView` holds what a chain answers during a tick. `Sender.SendEnv` holds the outcome of encoding, estimation and the five send attempts. A parser oracle stands in for `JSON.parse`.
- **Throws.** A throw is `Call.Threw`, or `threw` in a `StepResult`.
- **JavaScript `Number`.** Conversion of bigint text is `Decimal.NumberOf`: `""` gives 0, and text that is not a number is `None`, which JavaScript calls NaN and which compares false.
- **Notes on the code's behaviour:**
  - The nonce check runs inside the watcher's tick, right after the pending check for the same chain.
  - The finality path looks up the block at the row's own `blockNumber`.
  - A redelivered stream entry is sent again whatever the row's status is.
  - The watcher's `tx.status` events carry no `blockNumber`.
  - The hash check of the finality path is a parameter, `Watcher.HashCheck`. The watcher class makes the check as written (`AsWritten`); the intended check is `Intended`. See Findings.

## Model

| member | source | states |
|---|---|---|
| Entity.StatusNamesAreDistinct | libs/shared/src/entities/transaction.entity.ts:9-15 | exactly five statuses, with pairwise distinct strings; a string reads back as a status exactly when it is that status's name |
| Entity.ParseStatus | libs/shared/src/entities/transaction.entity.ts:9-15 | a status read from a string has that string as its name |
| Entity.NewRecord | libs/shared/src/entities/transaction.entity.ts:19-54 | a new row is PENDING_SIGN, its four nullable columns are null, and it keeps the given required fields |
| Chains.HexTextValue | libs/shared/src/blockchain/constants.ts:10-24 | lower-case hexadecimal text reads back as the number it encodes |
| Chains.HexIdsEncodeChainIds | libs/shared/src/blockchain/constants.ts:8-27 | every chain's `hexChainId` is "0x" followed by the lower-case hexadecimal of its `chainId` |
| Chains.ChainKeysDistinct | libs/shared/src/blockchain/constants.ts:8-27 | three chains, with pairwise distinct hex ids, RPC variables and chain ids |
| Chains.IndexByHexExact | libs/shared/src/blockchain/constants.ts:29-34 | folding distinct chains into a map keys it exactly by their hex ids, each mapped to its own chain |
| Chains.ChainIdToNetworkExact | libs/shared/src/blockchain/constants.ts:29-34 | `CHAIN_ID_TO_NETWORK` has exactly the three hex ids as keys, each mapped to its chain, so nothing is overwritten |
| Config.NumberValue | libs/shared/src/config/schema.ts:8 | a number accepted from the environment is a safe integer converted from non-empty text |
| Config.MissingKeys | libs/shared/src/config/schema.ts:4-11 | the missing keys are exactly the required keys that are absent or empty |
| Config.Validate | libs/shared/src/config/schema.ts:3-12 | valid exactly when every required string is present and `CHAIN_CONFIRMATIONS` is absent or a number; the default is 3; an error lists exactly the failing keys |
| Config.RpcKeysMatchChainTable | libs/shared/src/config/schema.ts:9-11 | the required RPC keys are the chain table's `rpcUrlEnvVar`s, in table order |
| Dto.FailingProperties | apps/transaction-service/src/dto/create-transaction.dto.ts:9-44 | a property is reported exactly when its constraint fails |
| Dto.ValidateBody | apps/transaction-service/src/dto/create-transaction.dto.ts:4-45 | a body is accepted exactly when it is an object meeting all five constraints, and the result carries its values; otherwise it is refused with the failing properties |
| Dto.ValidateBodyOf | apps/transaction-service/src/dto/create-transaction.dto.ts:4-45 | the body built from a request validates back to that request exactly when the request is well formed |
| Dto.UnsupportedChainPasses | apps/transaction-service/src/dto/create-transaction.dto.ts:9-11 | a chain id the table does not know passes validation |
| Json.StringifyRoundTrip | apps/transaction-sender-service/src/services/transaction-sender-service.service.ts:239 | parsing the JSON text of a string array gives the array back |
| Decimal.NumberOfIntText | apps/transaction-watcher-service/src/services/transaction-watcher-service.service.ts:104 | `Number` of the decimal text of an integer is that integer |
| Registry.RegistrationConsistent | libs/shared/src/blockchain/services/blockchain.service.ts:20-34 | the registration keeps the map's keys and the list of keys in agreement, each listed once |
| Registry.RegistrationExact | libs/shared/src/blockchain/services/blockchain.service.ts:20-34 | after registration a hex id is present exactly when it was already or its chain's URL is set; a set URL gives its provider; other entries are untouched |
| Registry.RegisterProviders | libs/shared/src/blockchain/services/blockchain.service.ts:20-34 | the loop ends with the registry the fold over the chain table specifies |
| Registry.KeysAfter | libs/shared/src/blockchain/services/blockchain.service.ts:28 | the keys already listed keep their places at the front; only new keys are added, after them |
| Registry.RegistryFromEmpty | libs/shared/src/blockchain/services/blockchain.service.ts:20-34 | starting empty, a provider is registered for exactly the chains whose URL is set |
| Registry.FinalizedBlock | libs/shared/src/blockchain/services/blockchain.service.ts:58-70 | falls back to `latest` only when `finalized` throws; returns the block obtained, and a null block is an error |
| Registry.NullFinalizedIsAnError | libs/shared/src/blockchain/services/blockchain.service.ts:62-68 | a null `finalized` result is not retried against `latest` |
| Registry.AtOrBelow | libs/shared/src/blockchain/services/blockchain.service.ts:80 | finalized exactly when the number is a number no greater than the block's |
| Registry.BlockchainService.OnModuleInit | libs/shared/src/blockchain/services/blockchain.service.ts:14-37 | throws before registering anything when the key is missing or empty; otherwise registers per the fold and sets the signer |
| Registry.BlockchainService.GetProvider | libs/shared/src/blockchain/services/blockchain.service.ts:39-45 | returns the registered provider, and throws exactly when the id is unregistered |
| Registry.BlockchainService.SupportedChainIds | libs/shared/src/blockchain/services/blockchain.service.ts:51-53 | exactly the registry's keys, each once |
| Registry.BlockchainService.GetFinalizedBlock | libs/shared/src/blockchain/services/blockchain.service.ts:58-70 | throws for an unknown chain; otherwise behaves as `FinalizedBlock` |
| Registry.BlockchainService.IsBlockFinalized | libs/shared/src/blockchain/services/blockchain.service.ts:75-81 | returns exactly when the block query returns, and the answer is `AtOrBelow` |
| Registry.InitThenLookup | libs/shared/src/blockchain/services/blockchain.service.ts:14-45 | after start-up from empty, `getProvider` succeeds exactly for the hex ids of chains whose URL is set |
| LegacyRegistry.BlockchainService.OnModuleInit | libs/shared/src/blockchain/blockchain.service.ts:14-37 | the same start-up as the newer service: key check first, chains without a URL skipped |
| LegacyRegistry.BlockchainService.GetProvider | libs/shared/src/blockchain/blockchain.service.ts:39-45 | the registered entry, or a throw exactly for an unknown id |
| LegacyRegistry.BlockchainService.SupportedChainIds | libs/shared/src/blockchain/blockchain.service.ts:51-53 | exactly the registry's keys, each once |
| Storage.RemoveEntry | apps/transaction-watcher-service/src/services/transaction-watcher-service.service.ts:262-277 | the stream keeps every entry except those with the id, and remains increasing |
| Storage.ApplyAllValid | libs/shared/src/entities/transaction.entity.ts:19-20 | any sequence of writes keeps rows under their own ids, each listed once, and stream ids fresh and increasing |
| Storage.FindBy | apps/transaction-watcher-service/src/services/transaction-watcher-service.service.ts:79-81 | exactly the stored rows with that chain and status, each as stored, with distinct ids |
| Storage.NextAfter | apps/transaction-sender-service/src/services/transaction-sender-service.service.ts:87-97 | the first entry with an id above the cursor, or none when there is no such entry |
| Storage.Backend.Perform | apps/transaction-service/src/services/transaction-service.service.ts:40 | the live state changes exactly as the write's specification says |
| Queue.QueueFields | apps/transaction-service/src/services/transaction-service.service.ts:43-58 | twelve items, with the six field names at the even positions in order |
| Queue.PairsMapKeys | apps/transaction-sender-service/src/services/transaction-sender-service.service.ts:230-233 | the keys of the built object are exactly the items at even positions |
| Queue.PairsMapLastWins | apps/transaction-sender-service/src/services/transaction-sender-service.service.ts:230-233 | each key maps to the item after its last occurrence, or to `undefined` at the end |
| Queue.DecodeFields | apps/transaction-sender-service/src/services/transaction-sender-service.service.ts:222-242 | returns exactly when `args` is present and parses; the fields are the built object's |
| Queue.QueueRoundTrip | apps/transaction-sender-service/src/services/transaction-sender-service.service.ts:222-242 | decoding the entry either writer appends gives back the row's six fields |
| Sender.ParseTransactionFields | apps/transaction-sender-service/src/services/transaction-sender-service.service.ts:222-242 | the stride-2 loop computes `DecodeFields` |
| Sender.FirstSuccess | apps/transaction-sender-service/src/services/transaction-sender-service.service.ts:201-218 | the first successful attempt, or none exactly when every attempt fails |
| Sender.Backoffs | apps/transaction-sender-service/src/services/transaction-sender-service.service.ts:215-216 | the i-th wait is 1000·2^i ms |
| Sender.SendTransactionWithRetry | apps/transaction-sender-service/src/services/transaction-sender-service.service.ts:195-220 | returns the first success; returns null exactly when all five attempts fail; waits only between failures |
| Sender.RetrySchedule | apps/transaction-sender-service/src/services/transaction-sender-service.service.ts:198-216 | the waits are 1000, 2000, 4000 and 8000 ms |
| Sender.FirstSuccessAt | apps/transaction-sender-service/src/services/transaction-sender-service.service.ts:201-205 | attempt i succeeding after i failures is the one returned |
| Sender.TransactionSender.SignAndSendTransaction | apps/transaction-sender-service/src/services/transaction-sender-service.service.ts:109-193 | throws and writes as `SignAndSendSpec` says |
| Sender.TransactionSender.SendDecoded | apps/transaction-sender-service/src/services/transaction-sender-service.service.ts:116-192 | after decoding: writes as `SendDecodedSpec` says, and never throws out |
| Sender.TransactionSender.ProcessNextTransaction | apps/transaction-sender-service/src/services/transaction-sender-service.service.ts:85-107 | handles the first entry after the cursor, and moves the cursor to its id only when the handling returned |
| Sender.CursorAdvances | apps/transaction-sender-service/src/services/transaction-sender-service.service.ts:104 | the entry read lies after the cursor |
| Sender.ThrowRereadsSameEntry | apps/transaction-sender-service/src/services/transaction-sender-service.service.ts:99-105 | after a throw the same entry is read again |
| Sender.ThrowsOnlyOnDecode | apps/transaction-sender-service/src/services/transaction-sender-service.service.ts:109-192 | the step throws out exactly when decoding the fields throws |
| Sender.UnknownIdWritesNothing | apps/transaction-sender-service/src/services/transaction-sender-service.service.ts:116-122 | an unknown id writes nothing and returns |
| Sender.EveryOutcomeStashesMessageId | apps/transaction-sender-service/src/services/transaction-sender-service.service.ts:124-191 | every save carries the entry's id and otherwise changes only status and hash |
| Sender.EstimateFailureMarksFailed | apps/transaction-sender-service/src/services/transaction-sender-service.service.ts:144-155 | a failed estimate gives one FAILED save with the hash as it was, and no event |
| Sender.UnknownChainMarksFailed | apps/transaction-sender-service/src/services/transaction-sender-service.service.ts:128-192 | an unregistered chain gives one FAILED save |
| Sender.RetriesExhaustedMarksFailed | apps/transaction-sender-service/src/services/transaction-sender-service.service.ts:157-166 | five failed attempts give one FAILED save |
| Sender.SuccessSavesThenEmits | apps/transaction-sender-service/src/services/transaction-sender-service.service.ts:168-187 | success saves the hash and PENDING, then emits `tx.sent`; a failed emit leaves the save |
| Sender.RedeliveryResends | apps/transaction-sender-service/src/services/transaction-sender-service.service.ts:116-192 | on any store holding a CONFIRMED row with its chain registered, the row's re-read entry is sent again, and the first write saves the row as PENDING with the new hash and the entry's id |
| Watcher.RequiredConfirmations | apps/transaction-watcher-service/src/services/transaction-watcher-service.service.ts:149-150 | the threshold is 3 when unset, otherwise `Number` of the text |
| Watcher.PendingOutcome | apps/transaction-watcher-service/src/services/transaction-watcher-service.service.ts:92-179 | for either hash check: a row without a hash is left alone; the finality path gives only CONFIRMED or REORGED; the receipt path gives only CONFIRMED or FAILED |
| Watcher.FinalityPath | apps/transaction-watcher-service/src/services/transaction-watcher-service.service.ts:101-129 | for either hash check, a block that is not final leaves the row alone; with the intended check, a final block gives CONFIRMED exactly when the hash is in it, and REORGED otherwise |
| Watcher.FinalityPathAsWritten | apps/transaction-watcher-service/src/services/transaction-watcher-service.service.ts:101-129 | with the check as written, a final block whose transaction list holds hashes gives REORGED, even when the row's hash is among them |
| Watcher.ReceiptPath | apps/transaction-watcher-service/src/services/transaction-watcher-service.service.ts:146-163 | no receipt, or too few confirmations, leaves the row alone; at the threshold status 1 gives CONFIRMED and any other status FAILED |
| Watcher.DefaultThreshold | apps/transaction-watcher-service/src/services/transaction-watcher-service.service.ts:149-156 | with no setting, a receipt resolves the row exactly from 3 confirmations on |
| Watcher.ResolveEffects | apps/transaction-watcher-service/src/services/transaction-watcher-service.service.ts:130-143 | save first, then `tx.status {transactionId, status, txHash}`, then the stream deletion |
| Watcher.ResolveWrites | apps/transaction-watcher-service/src/services/transaction-watcher-service.service.ts:130-177 | a resolution changes the row's status only, adds the event, and removes the row's own entry and no other |
| Watcher.ResolveOrder | apps/transaction-watcher-service/src/services/transaction-watcher-service.service.ts:164-177 | the order is save, emit, then deletions only |
| Watcher.PendingPassTouchesOnlyPending | apps/transaction-watcher-service/src/services/transaction-watcher-service.service.ts:79-98 | the pending pass saves only PENDING rows of its chain, and changes only their status |
| Watcher.ReorgedInSameTick | apps/transaction-watcher-service/src/services/transaction-watcher-service.service.ts:69-73 | a row the pending pass marks REORGED is among the rows the reorg pass of the same tick reads |
| Watcher.ReorgSkips | apps/transaction-watcher-service/src/services/transaction-watcher-service.service.ts:199 | a row without a nonce or a user address is never changed |
| Watcher.NonceComparison | apps/transaction-watcher-service/src/services/transaction-watcher-service.service.ts:200-224 | account nonce above the row's: nonce taken; equal: resubmit; below: nothing |
| Watcher.NonceTakenWrites | apps/transaction-watcher-service/src/services/transaction-watcher-service.service.ts:205-223 | FAILED is saved and emitted with `nonce_replaced`; the stream is unchanged |
| Watcher.ResubmitWrites | apps/transaction-watcher-service/src/services/transaction-watcher-service.service.ts:224-258 | exactly one entry is appended, and it decodes to the row's fields; the row becomes PENDING_SIGN with its hash kept; `auto_resubmitted` is emitted |
| Watcher.LowerNonceIdempotent | apps/transaction-watcher-service/src/services/transaction-watcher-service.service.ts:205-258 | a nonce still ahead writes nothing, and the next tick decides the same |
| Watcher.ReorgEffectsAfterThrow | apps/transaction-watcher-service/src/services/transaction-watcher-service.service.ts:198-204 | once a nonce query throws, the later rows are not examined |
| Watcher.TickAfterThrow | apps/transaction-watcher-service/src/services/transaction-watcher-service.service.ts:66-74 | once a chain throws, the later chains are not visited |
| Watcher.ChainTick | apps/transaction-watcher-service/src/services/transaction-watcher-service.service.ts:71-72 | both passes on one chain keep the store well formed |
| Watcher.FoundAsWrittenMissesHashes | apps/transaction-watcher-service/src/services/transaction-watcher-service.service.ts:114-118 | the check as written never finds a hash in a list of hashes |
| Watcher.FoundMeansMember | apps/transaction-watcher-service/src/services/transaction-watcher-service.service.ts:114-118 | the corrected check finds a hash exactly when it is in the list |
| Watcher.TransactionWatcher.DeleteTransactionFromStream | apps/transaction-watcher-service/src/services/transaction-watcher-service.service.ts:262-277 | removes the row's stream entry when it has one, and otherwise does nothing |
| Watcher.TransactionWatcher.ResolvePending | apps/transaction-watcher-service/src/services/transaction-watcher-service.service.ts:92-185 | one row's handling makes exactly that row's writes |
| Watcher.TransactionWatcher.CheckPendingTransactions | apps/transaction-watcher-service/src/services/transaction-watcher-service.service.ts:76-187 | throws and writes as `PendingPass` says, with the hash check as written |
| Watcher.TransactionWatcher.CheckReorgedNonces | apps/transaction-watcher-service/src/services/transaction-watcher-service.service.ts:192-260 | throws and writes as `ReorgPass` says |
| Watcher.TransactionWatcher.CheckChain | apps/transaction-watcher-service/src/services/transaction-watcher-service.service.ts:71-72 | the pending pass, then, unless it threw, the reorg pass on the store it left |
| Watcher.TransactionWatcher.HandleInterval | apps/transaction-watcher-service/src/services/transaction-watcher-service.service.ts:66-74 | every registered chain in registry order, as `Tick` says |
| TxService.CreateWrites | apps/transaction-service/src/services/transaction-service.service.ts:36-61 | the new row is PENDING_SIGN without a hash; exactly one entry is appended, and the sender decodes the request's data from it |
| TxService.TransactionService.Create | apps/transaction-service/src/services/transaction-service.service.ts:36-61 | returns the new row, saved, then queued |
| TxService.EventPayload | apps/transaction-service/src/services/transaction-service.service.ts:153-168 | an accepted payload has a string `transactionId` |
| TxService.EventPayloadRejectsScalars | apps/transaction-service/src/services/transaction-service.service.ts:156 | null and non-objects are rejected |
| TxService.EventPayloadBare | apps/transaction-service/src/services/transaction-service.service.ts:157-165 | an object without `value` is accepted as itself exactly when its `transactionId` is a string |
| TxService.EventPayloadUnwraps | apps/transaction-service/src/services/transaction-service.service.ts:157 | `{ value: v }` is judged as `v` |
| TxService.SentHash | apps/transaction-service/src/services/transaction-service.service.ts:84 | the payload's string hash, or "" when it is absent or null |
| TxService.SentWrites | apps/transaction-service/src/services/transaction-service.service.ts:84-94 | on a known row only hash and status change, status becoming PENDING, and the saved row goes to its user as `statusUpdate` |
| TxService.SentWithoutHash | apps/transaction-service/src/services/transaction-service.service.ts:84 | a `tx.sent` without a hash stores "" |
| TxService.StatusEventName | apps/transaction-service/src/services/transaction-service.service.ts:125-145 | `reorged` exactly for REORGED |
| TxService.StatusOverwrites | apps/transaction-service/src/services/transaction-service.service.ts:120-145 | a status name replaces the status whatever it was; the user is notified under `reorged` exactly for REORGED, with id, status, hash and block number |
| TxService.StatusAbsentKeepsRow | apps/transaction-service/src/services/transaction-service.service.ts:120-145 | a status event without a status keeps the row and reports no status |
| TxService.IgnoredEvents | apps/transaction-service/src/services/transaction-service.service.ts:70-119 | an invalid payload or an unknown id changes nothing and notifies no one |
| TxService.UserRows | apps/transaction-service/src/services/transaction-service.service.ts:170-172 | exactly the rows of that user |
| TxService.TransactionService.HandleTransactionSent | apps/transaction-service/src/services/transaction-service.service.ts:67-95 | throws and writes as `SentSpec` says |
| TxService.TransactionService.HandleTransactionStatusUpdate | apps/transaction-service/src/services/transaction-service.service.ts:101-146 | throws and writes as `StatusSpec` says |
| TxService.TransactionService.FindByUserAddress | apps/transaction-service/src/services/transaction-service.service.ts:170-172 | exactly the stored rows of that user |
| Consumer.DropNewlines | apps/transaction-service/src/kafka-consumer.service.ts:91 | no line feed is left, and text without one is unchanged |
| Consumer.TrimStart | apps/transaction-service/src/kafka-consumer.service.ts:91 | drops exactly the leading white space |
| Consumer.TrimEnd | apps/transaction-service/src/kafka-consumer.service.ts:91 | drops exactly the trailing white space |
| Consumer.CleanProperties | apps/transaction-service/src/kafka-consumer.service.ts:86-92 | the parsed text has no line feed; a missing, empty or blank value becomes `{}` |
| Consumer.ConsumerPayload | apps/transaction-service/src/kafka-consumer.service.ts:122-133 | accepted exactly when the value is an object with a string `transactionId`, with no `value` unwrapping |
| Consumer.EmptyMessageIgnored | apps/transaction-service/src/kafka-consumer.service.ts:92-100 | an empty message is rejected and no handler runs |
| Consumer.Dispatch | apps/transaction-service/src/kafka-consumer.service.ts:101-107 | `tx.sent` reaches only the sent handler, `tx.status` only the status handler, and other topics nothing |
| Consumer.WrappedEventRejected | apps/transaction-service/src/kafka-consumer.service.ts:125-129 | a `{ value: … }` wrapper the service would accept is rejected here |
| Consumer.EventJsonAccepted | apps/transaction-watcher-service/src/services/transaction-watcher-service.service.ts:132-136 | an emitted event passes both shape checks as itself |
| Consumer.StatusEventDelivered | apps/transaction-service/src/kafka-consumer.service.ts:84-115 | a watcher's status event, parsed back, overwrites the row's status and notifies its user |
| Consumer.SentEventDelivered | apps/transaction-service/src/kafka-consumer.service.ts:84-115 | a sender's `tx.sent`, parsed back, stores the hash and PENDING |
| Consumer.KafkaConsumer.HandleMessage | apps/transaction-service/src/kafka-consumer.service.ts:84-115 | writes as `MessageEffects` says, and never throws |
| Lifecycle.SenderFollowsEdges | apps/transaction-sender-service/src/services/transaction-sender-service.service.ts:109-193 | every save the sender makes ends the row in PENDING or FAILED |
| Lifecycle.PendingPassFollowsEdges | apps/transaction-watcher-service/src/services/transaction-watcher-service.service.ts:76-187 | every save of the pending pass goes from PENDING to CONFIRMED, FAILED or REORGED |
| Lifecycle.ReorgEffectsSaveOnly | apps/transaction-watcher-service/src/services/transaction-watcher-service.service.ts:205-258 | the reorg writes save only their own rows, and only to FAILED or PENDING_SIGN |
| Lifecycle.ReorgPassFollowsEdges | apps/transaction-watcher-service/src/services/transaction-watcher-service.service.ts:192-260 | every save of the reorg pass goes from REORGED to FAILED or PENDING_SIGN |
| Lifecycle.ConfirmedUntouchedByWatcher | apps/transaction-watcher-service/src/services/transaction-watcher-service.service.ts:76-258 | on any store, neither watcher pass, with either hash check, saves a row that was CONFIRMED |
| Lifecycle.FinalBlockReachesReorgPass | apps/transaction-watcher-service/src/services/transaction-watcher-service.service.ts:101-129 | with the check as written, a PENDING row whose final block lists hashes is marked REORGED and is read by the reorg pass of the same tick |
| Lifecycle.CreateSetsNoChainFields | apps/transaction-service/src/services/transaction-service.service.ts:36-61 | `create` writes a row whose `blockNumber` and `nonce` are null |
| Lifecycle.SenderKeepsChainFields | apps/transaction-sender-service/src/services/transaction-sender-service.service.ts:116-192 | every sender save keeps the stored row's `blockNumber` and `nonce` |
| Lifecycle.WatcherKeepsChainFields | apps/transaction-watcher-service/src/services/transaction-watcher-service.service.ts:76-258 | every save of either watcher pass keeps the stored row's `blockNumber` and `nonce` |
| Lifecycle.HandlersKeepChainFields | apps/transaction-service/src/services/transaction-service.service.ts:70-145 | every save of the `tx.sent` and `tx.status` handlers keeps the stored row's `blockNumber` and `nonce` |

## Left out

- I/O and timing are not modelled:
  - The `while (true)` loop and the `@Interval` timer: one step or one tick is modelled.
  - The 5 s pause after a failed step, and the retry sleeps, which are recorded as wait values.
  - The Kafka and Redis connection retries at start-up.
- Node and library calls are inputs, not models: ABI encoding, gas estimation, sending, receipts, blocks and nonce queries. The wallet constructor is reduced to "accepted or not".
- JSON is only partly modelled:
  - `JSON.parse` of a whole message is a parser oracle.
  - Only the string-array codec of `args` is modelled; a valid JSON value that is not a string array is treated as a parse failure.
  - Numbers are integers.
  - `\u` escapes in the surrogate range `D800`-`DFFF` are refused, where `JSON.parse` accepts them (a pair gives one character, a lone one a lone surrogate). Dafny characters hold no surrogates. On such `args` text the sender's decoding throws and the entry is read again. `JSON.stringify` never writes these escapes for a string of Dafny characters, so the round trip is unaffected.
- Failures of saves, Kafka emits, `xadd`, `xread` and `xdel` are not modelled; they would throw, or be logged and ignored. This covers the `xadd` of `create` and the resubmit `xadd` of the reorg pass, which has no per-record `try`, so its failure would end the tick.
- Concurrency between the processes is left out. Every step reads a consistent snapshot.
- `createdAt` and `updatedAt` are left out, including `updatedAt` in status notifications.
- TypeORM details:
  - `findOneBy({ id: undefined })` is treated as not found.
  - An id that is not a uuid is treated as not found rather than as an error.
- `Number` of text is only partly modelled: white space, fractions, exponents, hex forms and precision beyond 2^53 are left out.
- The watcher's `find` queries ask for no order, so the database may return rows in any order. The model returns them in insertion order. The order decides only which rows a pass reaches before it throws.
- `Watcher.ChainView` gives one answer per query for the whole tick. The code asks for the `finalized` block once per row with a block number. The model cannot express a finalized head that moves during a tick, or a query that fails for one row only. No lemma depends on this.
- Redis stream ids are naturals. `xread COUNT 1` returns at most the one next entry.
- Extra properties in the request body are not modelled.
- `TxService.SentHash`: a `txHash` that is neither a string nor null is treated as a failed save. Database coercion of numbers to text is not modelled.
- `TxService.StatusSpec`: a `status` that is not a valid name makes the save throw before anything is written, as an enum column refuses it.
- `Config.Validate`: Joi's full number syntax is approximated by `Decimal.NumberOf` within the safe integer range.
- `Registry.BlockchainService.GetSigner` has no contract; it only returns the field.

## Findings

| source | as written | input that shows it | evidently intended | confidence | as-written member | corrected member |
|---|---|---|---|---|---|---|
| apps/transaction-watcher-service/src/services/transaction-watcher-service.service.ts:114-118 | the finality path looks for an entry of `block.transactions` with a `hash` property equal to the row's hash | a final block whose `transactions` list is `["0xabc"]` and a row with `txHash = "0xabc"`; with ethers v6 `Block.transactions` holds hash strings | CONFIRMED when the row's hash is one of the block's transaction hashes | likely; it depends on the shape ethers gives `Block.transactions`; not executed | Watcher.FinalityPathAsWritten | Watcher.FinalityPath |

How the finding is modelled:

- The check as written, `Watcher.FoundAsWritten`, never succeeds on a list of hashes (`Watcher.FoundAsWrittenMissesHashes`). Under it, every final block sends a PENDING row to REORGED (`Watcher.FinalityPathAsWritten`), and the reorg pass of the same tick then examines it (`Lifecycle.FinalBlockReachesReorgPass`).
- The watcher class makes the check as written, so its methods follow the code. The pass specifications and their lemmas take the check as a parameter and hold for both.
- The intended check, `Watcher.Found`, accepts an entry that is the hash itself or an object carrying it; on a list of hashes it is membership (`Watcher.FoundMeansMember`), and with it a final block confirms exactly the rows whose hash it lists (`Watcher.FinalityPath`).

An observation, also not executed: none of the processes modelled here ever writes a row's `blockNumber` or `nonce` (`libs/shared/src/entities/transaction.entity.ts:44-47`). They are only read, by the watcher and in the consumer's payloads. `create` writes both as null (`Lifecycle.CreateSetsNoChainFields`). Every save of the sender, the watcher passes and the consumer handlers keeps them (`Lifecycle.SenderKeepsChainFields`, `Lifecycle.WatcherKeepsChainFields`, `Lifecycle.HandlersKeepChainFields`). So for rows the system creates, the finality path and the whole nonce pass never act; only rows written by other means reach them.

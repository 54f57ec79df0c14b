# A verified model of the go-palletone ledger core

This project models the bookkeeping core of go-palletone, the PalletOne node, in Dafny. It covers:

- the transaction pool's UTXO overlay and its sanity check of a transaction;
- the jury's merge of mediator co-signatures, its two-thirds quorum and its table of contract transactions in flight;
- the storage layer's key scheme and index maintenance over a key-value store;
- the domain types' helpers and payload parsers, and the RLP shape of a transaction;
- greedy coin selection;
- a peer's head and known-hash bookkeeping and the registry of peers;
- the conversion of a raw-transaction JSON into a payment;
- the guards of the contract transaction simulator.

There is one Dafny module per Go file:

| module | Go file | form |
|---|---|---|
| `Common` | the Go standard library behaviour the core relies on (`strings.Split`, `fmt` `%d`, `strconv.ParseInt`, big-endian order) | functions |
| `Modules` | dag/modules/unit.go | datatypes, functions, loop methods |
| `TransactionRlp` | dag/modules/transaction_rlp.go | loop methods against functions |
| `UtxoView` | dag/txspool/utxoviewpoint.go | class `UtxoViewpoint` over a `map` |
| `Jury` | consensus/jury/service.go | class `Processor` over a `map`, and functions |
| `Store` | the key-value database the storage code writes through | class `Database` |
| `Saver` | dag/storage/saver.go | methods on a `Database` |
| `DagDb` | dag/storage/dagdb.go | class `DagDb` |
| `UtxoPickup` | core/utxo_pickup.go | loop methods against functions |
| `Peer` | ptn/peer.go | classes `Peer` and `PeerSet` |
| `RawTxJson` | ptnjson/rawtxjson.go | functions and a loop method |
| `RwSet` | contracts/rwset/rwsetTxSimulator.go | class `RwSetTxSimulator` |

Code the core calls but whose source is outside this model is passed in as a function-typed field of an environment record. This covers RLP and JSON, `tx.Hash()`, `rlp.RlpHash`, `tokenengine`, hex parsing, the text forms of hashes and chain indices, and the contract runtime. The round trips it must satisfy are stated as predicates and required where a property depends on them (`Store.RlpRoundTrips`, `TransactionRlp.PayloadRoundTrips`). The Go code's run-time panics (an unchecked type assertion, a nil dereference) are explicit outcomes (`MergePanic`, `Panicked`, `Panic`, `None` from `HeaderEqual`), not preconditions.

The model follows the code as written, including where it behaves in ways a reader might not expect:

- `FetchUnitUtxos` resolves an in-unit input by calling `AddTxOut(originTx, i, j)` with the spender's position and message index, not the outpoint's indices.
- `ProcessContractSigEvent` ends in an error even on the path that hands the transaction to the pool.
- The greedy accumulator and the sanity check's running total are 64-bit and wrap around. `SelectUtxoGreedy` is specified by `GreedyWrapped`; the properties of the greedy choice are proved about the exact-sum `GreedyOutcome`, which `SelectionExactWhenFits` shows is the same selection whenever the lesser utxos sum below 2^64.
- `ParseStringKey` never updates the version it is called on.
- `ConvertRawTxJson2Tx` drops the conversion error and carries a nil payload.

## Model

| member | source | states |
|---|---|---|
| Modules.HeaderHashIgnoresAuthentication | dag/modules/unit.go:89-94 | two headers that differ only in Authors and Witness have the same hash |
| Modules.HeaderHash | dag/modules/unit.go:89-94 | the RLP hash of the header with Authors and Witness cleared, so an already unauthenticated header hashes to its plain RLP hash; HeaderHashIgnoresAuthentication gives the invariance |
| Modules.HeaderEqual | dag/modules/unit.go:73-80 | with two parents on each side, true exactly when the first two parent hashes are equal as an unordered pair; a panic exactly when the old header has no parent, the new one fewer than two, or the single old parent matches one of the new ones (otherwise a single old parent gives false) |
| Modules.ContainsParent | dag/modules/unit.go:759-767 | true exactly when some parent's text form equals the text form of pHash |
| Modules.ContainsParentIsMembership | dag/modules/unit.go:759-767 | when distinct hashes have distinct text forms, ContainsParent is membership of pHash in the parents |
| Modules.UnitTransaction | dag/modules/unit.go:667-674 | the result is the first transaction whose TxHash matches; nil exactly when none matches |
| Modules.IsEmpty | dag/modules/unit.go:168-173 | true exactly for a nil unit or a unit without transactions; IsEmptyHasNoTransaction ties it to Unit.Transaction |
| Modules.IsEmptyHasNoTransaction | dag/modules/unit.go:168-173 | an empty unit yields no transaction for any hash; a non-empty one yields its first transaction for that transaction's hash |
| Modules.ErrUnitMessage | dag/modules/unit.go:717-735 | the message is non-empty exactly for the codes -1 to -6 |
| Modules.ErrUnitMessagesDistinct | dag/modules/unit.go:717-735 | two different codes never share a non-empty message |
| Modules.FillBytes | dag/modules/unit.go:877-888 | exactly lenth bytes; shorter data sits in the trailing bytes behind zeros; longer data is cut to its first lenth bytes |
| Modules.BigEndianOfFilled | dag/modules/unit.go:877-888 | left-padding with zeros does not change the big-endian value, so the 4- and 8-byte index decodes read the original number |
| Modules.ParseList | dag/modules/unit.go:301-428 | the element loop of ExtractFrInterface yields exactly what the list parser ParseAll defines: elements parsed in order up to the first failure |
| Modules.ParseAllElems | dag/modules/unit.go:301-428 | every element the list parse returns is the element parser's result on the item at the same position |
| Modules.ParseAllOk | dag/modules/unit.go:301-428 | a list parse fails exactly when some item fails to parse |
| Modules.InputShapedOk | dag/modules/unit.go:301-428 | one input parses exactly when it is a 3-list whose outpoint is a 3-list of byte strings |
| Modules.OutputShapedOk | dag/modules/unit.go:301-428 | one output parses exactly when it is a 3-list whose asset is a 3-list of byte strings |
| Modules.PaymentExtractionOk | dag/modules/unit.go:301-428 | PaymentPayload.ExtractFrInterface succeeds exactly on data of the payment shape (a 3-list of inputs, outputs and a byte-string lock time) |
| Modules.PaymentExtractionFields | dag/modules/unit.go:301-428 | on success, inputs and outputs have the lengths of the source lists, indices and amounts are the big-endian values of the filled 4- and 8-byte fields, and scripts are copied |
| Modules.ExtractPayment | dag/modules/unit.go:301-428 | the method on a receiver does what PaymentExtraction defines |
| Modules.ExtractTpl | dag/modules/unit.go:486-535 | succeeds exactly on a list of six byte strings, then holds all six fields; on failure the receiver is unchanged |
| Modules.ExtractDeploy | dag/modules/unit.go:560-601 | succeeds exactly on an 8-list whose first three fields are byte strings, and sets only TemplateId, ContractId and Name; on failure the receiver is unchanged |
| Modules.ParseStringKey | dag/modules/unit.go:461-473 | true exactly when the key splits into three parts on "^*^" and the third decodes; the receiver's version is never changed |
| Modules.ParseStringKeyIntended | dag/modules/unit.go:461-473 | same success condition; on success the version is the decoded one, otherwise unchanged |
| Modules.ParseStringKeyLosesVersion | dag/modules/unit.go:461-473 | whenever the key holds a version other than the receiver's, the code reports success but leaves the receiver with the wrong version |
| TransactionRlp.Tx2Temp | dag/modules/transaction_rlp.go:56-69 | keeps TxHash and TxId, and emits one temp message per message, in order, with the same App and the payload's encoding |
| TransactionRlp.Temp2Tx | dag/modules/transaction_rlp.go:70-124 | copies TxId and TxHash, keeps the messages already in tx, and appends one message per temp message, in order, with the same App |
| TransactionRlp.UnknownAppGivesNilPayload | dag/modules/transaction_rlp.go:118-121 | a temp message with an unrecognised App gives a message with a nil payload |
| TransactionRlp.DecodeRlp | dag/modules/transaction_rlp.go:40-50 | DecodeRLP reports success exactly when the raw read succeeds, whatever the inner decode does; on a failed raw read tx is unchanged |
| TransactionRlp.EncodeDecodeRoundTrip | dag/modules/transaction_rlp.go:40-55 | EncodeRLP (the RLP of tx2Temp) followed by DecodeRLP into an empty transaction reports success and gives the transaction back, with round-tripping temp and payload codecs and known Apps |
| TransactionRlp.Apps | dag/modules/transaction_rlp.go:56-124 | the App sequence of a message list, position by position |
| TransactionRlp.TempRoundTrip | dag/modules/transaction_rlp.go:56-124 | decoding tx2Temp(tx) into an empty transaction preserves TxId, TxHash and the App sequence |
| TransactionRlp.TempRoundTripWhole | dag/modules/transaction_rlp.go:56-124 | with payload codecs that round-trip and messages of known Apps, decoding tx2Temp(tx) gives tx back |
| TransactionRlp.TxFromTempFits | dag/modules/transaction_rlp.go:70-124 | every message temp2Tx appends carries a payload of the type its App names |
| UtxoView.UtxoViewpoint.LookupUtxo | dag/txspool/utxoviewpoint.go:58-63 | the overlay's entry for the outpoint, nil exactly when it has none |
| UtxoView.UtxoViewpoint.InsertTxOut | dag/txspool/utxoviewpoint.go:177-196 | an unspendable script leaves the overlay unchanged; otherwise the outpoint's entry carries the output's amount, script and asset, and no other key changes |
| UtxoView.UtxoViewpoint.AddTxOut | dag/txspool/utxoviewpoint.go:198-218 | an out-of-range message or output index, or a non-payment message, leaves the overlay unchanged; otherwise the one output is inserted |
| UtxoView.OneOutAddedGrows | dag/txspool/utxoviewpoint.go:198-218 | adding one output never removes an outpoint from the overlay |
| UtxoView.UtxoViewpoint.AddTxOuts | dag/txspool/utxoviewpoint.go:220-237 | the overlay becomes TxOutsAdded, the outputs of every payment message added in order |
| UtxoView.MsgOutsAddedFacts | dag/txspool/utxoviewpoint.go:220-237 | adding one message's outputs creates an entry at (tx hash, i, j) for each spendable output j with its value, script and asset, and leaves every other outpoint as it was |
| UtxoView.TxOutsAddedFacts | dag/txspool/utxoviewpoint.go:220-237 | the same for all payment messages of a transaction: entries at (tx hash, i, j), nothing else touched |
| UtxoView.UtxoViewpoint.RemoveUtxo | dag/txspool/utxoviewpoint.go:239-241 | exactly that outpoint leaves the overlay |
| UtxoView.UtxoViewpoint.SpentUtxo | dag/txspool/utxoviewpoint.go:64-82 | none of the given outpoints remains in the overlay; each one found in the overlay or the db is marked spent and saved; db misses are skipped |
| UtxoView.UtxoViewpoint.FetchUtxosMain | dag/txspool/utxoviewpoint.go:163-175 | each needed outpoint found in the db is stored in the overlay, and the first db miss aborts with that outpoint |
| UtxoView.UtxoViewpoint.FetchUtxos | dag/txspool/utxoviewpoint.go:149-162 | only outpoints not already in the overlay are requested from the db |
| UtxoView.Missing | dag/txspool/utxoviewpoint.go:153-159 | the needed set is exactly the outpoints the overlay lacks |
| UtxoView.InFlight | dag/txspool/utxoviewpoint.go:89-92 | the in-flight map maps a hash to a position before k |
| UtxoView.InFlightLast | dag/txspool/utxoviewpoint.go:89-92 | a hash is in the map exactly when some transaction has it, and it maps to the last such position |
| UtxoView.UtxoViewpoint.BuildInFlight | dag/txspool/utxoviewpoint.go:89-92 | the loop builds exactly InFlight |
| UtxoView.UtxoViewpoint.FetchUnitUtxos | dag/txspool/utxoviewpoint.go:83-136 | a unit with at most one transaction changes nothing; otherwise the overlay is what the in-unit scan of transactions[1:] and the db fetch of the remaining inputs produce |
| UtxoView.ScanInputsGrows | dag/txspool/utxoviewpoint.go:94-135 | scanning inputs only adds overlay keys and requests only outpoints that are not resolved in the unit |
| UtxoView.ScanMsgsGrows | dag/txspool/utxoviewpoint.go:94-135 | scanning a transaction's messages requests only its requestable inputs |
| UtxoView.InFlightNamed | dag/txspool/utxoviewpoint.go:89-92 | every hash in txInFlight maps to a transaction carrying that hash |
| UtxoView.InputStepCovers | dag/txspool/utxoviewpoint.go:111-132 | one input keeps overlay keys, requests and registered outputs, and is then resolved in-unit with AddTxOut's output in the overlay, or requested, or in the overlay |
| UtxoView.ScanInputsCovers | dag/txspool/utxoviewpoint.go:111-132 | the same for every input of a payment message |
| UtxoView.ScanMsgsCovers | dag/txspool/utxoviewpoint.go:106-134 | the same for every payment input of a transaction |
| UtxoView.ScanTxsCovers | dag/txspool/utxoviewpoint.go:94-135 | every payment input of transactions[1:] is resolved in-unit with the origin output registered, or requested, or left in the overlay |
| UtxoView.UnitScanExact | dag/txspool/utxoviewpoint.go:88-135 | both directions of the same-unit rule for the scan FetchUnitUtxos runs: requested outpoints are exactly drawn from unresolvable inputs absent from the overlay, and no payment input is left uncovered |
| UtxoView.ScanTxsRequests | dag/txspool/utxoviewpoint.go:94-135 | the first transaction's inputs are never requested, overlay keys are kept, and every requested outpoint was absent from the overlay and requestable by some later transaction |
| UtxoView.FindDuplicate | dag/txspool/utxoviewpoint.go:382-391 | true exactly when one input list names the same outpoint twice |
| UtxoView.CheckTransactionSanity | dag/txspool/utxoviewpoint.go:302-398 | the check gives the verdict SanityResult defines: no messages, oversize, output bounds with the 64-bit running total, duplicate inputs per message |
| UtxoView.OutputsCheckSum | dag/txspool/utxoviewpoint.go:334-379 | the output loop succeeds exactly when the running total plus the remaining outputs stays within MaxDao, and then returns that total |
| UtxoView.SanityFromCorrect | dag/txspool/utxoviewpoint.go:302-398 | the message loop passes exactly when the payment total stays within MaxDao and no message repeats an input |
| UtxoView.SanityAccepts | dag/txspool/utxoviewpoint.go:302-398 | the check accepts exactly a transaction with messages, within the size limit, whose payment outputs sum to at most MaxDao and with no message repeating an input |
| Jury.LastSigBefore | consensus/jury/service.go:368-374 | the last signature message before position i, none exactly when there is none |
| Jury.FirstSigFrom | consensus/jury/service.go:379-402 | the first signature message from position from, none exactly when there is none |
| Jury.CheckAndAddTxData | consensus/jury/service.go:362-405 | the loop method gives the outcome and merged transaction that Merge defines |
| Jury.MergeOnlyAddedChanges | consensus/jury/service.go:362-405 | every outcome other than Added leaves the local transaction unchanged |
| Jury.MergeFailures | consensus/jury/service.go:365-404 | each error occurs exactly under its condition: differing message counts, a differing non-signature message, no received signature, no local signature message |
| Jury.MergeAddsOne | consensus/jury/service.go:390-400 | Added appends exactly the received first signature to the local list, recomputes TxHash over the zeroed transaction, and changes no other message |
| Jury.MergeIdempotent | consensus/jury/service.go:384-388 | merging the same signature a second time gives AlreadyHave and no change |
| Jury.TxSigNum | consensus/jury/service.go:407-416 | the length of the first signature message's list, 0 without one |
| Jury.MergeRaisesSigNum | consensus/jury/service.go:362-416 | a successful merge raises the signature count by one |
| Jury.QuorumIsTwoThirdsMajority | consensus/jury/service.go:425-438 | cnt*2/3+1 is the least number of signatures that is more than two thirds of cnt; 3 of 4 and 5 of 7 |
| Jury.ToolCheckPasses | consensus/jury/service.go:425-438 | addTx2LocalTxTool's checks pass exactly when cnt >= 4 and the signatures are more than two thirds of cnt |
| Jury.Processor.AddTx2LocalTxTool | consensus/jury/service.go:425-438 | a failed check leaves the pool unchanged; otherwise the tx goes to the pool, whose rejection is the error |
| Jury.RunFromOutcome | consensus/jury/service.go:321-360 | the dispatch succeeds only at an invoke-request message with no earlier request message, and reports NoRequest when there is no request message at all |
| Jury.RunContractCmd | consensus/jury/service.go:321-360 | a transaction without messages is an error |
| Jury.RunFromFirstRequest | consensus/jury/service.go:321-360 | the first request message decides: invoke runs the contract, template, deploy and stop requests are errors |
| Jury.Processor.ProcessContractEvent | consensus/jury/service.go:148-199 | each failing step gives its error and leaves mtx and the pool alone; on success mtx[TxId] holds the mediators, the signed tx and the time |
| Jury.Processor.ProcessContractSigEvent | consensus/jury/service.go:247-299 | the table, pool and error are SigHandled's: SigStep, then the entry deleted on pool acceptance, and the error of line 298 returned on the path that reaches the pool |
| Jury.SigStepTouchesOnlyItsEntry | consensus/jury/service.go:247-290 | the merge-and-check step before the pool's verdict keeps the table's keys and changes at most the entry of the event's TxId |
| Jury.SigHandledTouchesOnlyItsEntry | consensus/jury/service.go:247-299 | the handler's final table gains no key and keeps every other entry; the event's entry is removed exactly when its merged transaction went to the pool and the pool accepted it |
| Jury.SigStepUnknown | consensus/jury/service.go:256-260 | an event whose TxId is not in mtx is rejected with no change |
| Jury.SigStepReachesPool | consensus/jury/service.go:283-298 | a transaction goes to the pool exactly when the event is valid, its entry exists, the merge adds a signature and the quorum passes |
| Jury.Processor.SweepExpired | consensus/jury/service.go:305-318 | one sweep removes exactly the entries older than the limit |
| Jury.SweptLater | consensus/jury/service.go:305-318 | sweeping at an earlier time and then a later one is the same as sweeping once at the later time |
| Store.Database.WriteBatch | dag/storage/dagdb.go:862-875 | writing a batch applies its puts in order |
| Saver.EncodeBlockNumber | dag/storage/saver.go:214-218 | exactly 8 bytes whose big-endian value is the number |
| Saver.HeaderKeyFixesNumber | dag/storage/saver.go:72-79 | two headers with the same key have the same index |
| Saver.SaveHeader | dag/storage/saver.go:72-79 | stores the header under HEADER_PREFIX ++ encodeBlockNumber(index) ++ Number.Bytes() ++ hash |
| Saver.KeyAdded | dag/storage/saver.go:231-245 | an error exactly when the list is empty or already holds the key; otherwise the list with the key appended |
| Saver.KeyAddedKeepsDistinct | dag/storage/saver.go:231-245 | appending to a list without duplicates keeps it without duplicates |
| Saver.ContainsKey | dag/storage/saver.go:236-240 | the loop finds the key exactly when it is in the list |
| Saver.AddUnitKeys | dag/storage/saver.go:220-245 | errors exactly when KeyAdded does on the list the RLP decoder leaves (even after a logged decode error), and stores the appended list otherwise |
| Saver.UnitKeysStayDistinct | dag/storage/saver.go:220-245 | the stored unit-key list stays free of duplicates and grows by exactly the key |
| Saver.AddKeysWithTag | dag/storage/saver.go:258-288 | the same empty, duplicate and append rules for the list the JSON decoder leaves under the tag, error or not |
| Saver.TagKeysStayDistinct | dag/storage/saver.go:258-288 | the tagged list stays free of duplicates and grows by exactly the key |
| Saver.IdFromHash | dag/storage/saver.go:290-308 | a 32-byte id holding the trailing bytes of the hash, zero-padded in front |
| Saver.ContractSavedKeeps | dag/storage/saver.go:290-308 | CodeHash is derived only when empty, Id only when empty, and a non-empty Id is kept |
| Saver.SaveContract | dag/storage/saver.go:290-308 | stores the filled-in contract under its id and returns that id |
| Saver.ContractStateKeyParses | dag/storage/saver.go:330-341 | a contract-state key splits on "^*^" into owner, name and version text, and ParseStringKey's intended reading recovers the version |
| Saver.SaveContractState | dag/storage/saver.go:330-341 | stores the value under prefix ++ id ++ "^*^" ++ name ++ "^*^" ++ version text |
| Saver.ContractTemplateKeySplits | dag/storage/saver.go:342-356 | a template key splits into owner, "bytecode" and the version |
| Saver.SaveContractTemplate | dag/storage/saver.go:342-356 | stores the bytecode under CONTRACT_TPL ++ templateId ++ "^*^bytecode^*^" ++ version |
| Saver.SaveJoint | dag/storage/saver.go:43-65 | an unsigned joint gives the error and writes nothing; a signed one is stored and its key recorded |
| DagDb.IrreversiblePrefix | dag/storage/dagdb.go:557-558 | the scan prefix UNIT_NUMBER_PREFIX_asset_1_ ends in the separator '_' |
| DagDb.MinimalBytes | dag/storage/dagdb.go:284-292 | big.Int.Bytes(): big-endian with no leading zero byte |
| DagDb.AddrOutputKeysDiffer | dag/storage/dagdb.go:284-292 | outputs of different message indices are stored under different keys |
| DagDb.DagDb.SaveOutputByAddr | dag/storage/dagdb.go:284-292 | a zero tx hash is an error and writes nothing; otherwise the output is stored under its key |
| DagDb.DagDb.SaveNumberByHash | dag/storage/dagdb.go:162-174 | the zero ChainIndex is rejected with nothing written; otherwise the index is stored under the hash key |
| DagDb.GetNumberWithUnitHash | dag/storage/dagdb.go:415-434 | a missing key is not found; empty data is the null-index error |
| DagDb.GetHashByNumber | dag/storage/dagdb.go:186-213 | a missing key is the read error; success exactly when the entry RLP-decodes to a string that parses as a hex hash, and the result is that hash |
| DagDb.GetHeader | dag/storage/dagdb.go:598-616 | a missing key is the read error; success exactly when the entry under the HEADER_PREFIX text key decodes to a header, which is the result |
| DagDb.GetBody | dag/storage/dagdb.go:230-240 | a missing key is the read error; success exactly when the entry under the body key decodes to a hash list, which is the result |
| DagDb.NumberByHashReadBack | dag/storage/dagdb.go:162-174 | reading the hash key after SaveNumberByHash gives the saved index |
| DagDb.DagDb.SaveHashByNumber | dag/storage/dagdb.go:176-185 | stores the hash text under UNIT_NUMBER_PREFIX_asset_(1 or 0)_index |
| DagDb.HashByNumberReadBack | dag/storage/dagdb.go:176-213 | GetHashByNumber after SaveHashByNumber with the same ChainIndex gives the saved hash |
| DagDb.MainNumberKeyIsNumbered | dag/storage/dagdb.go:176-185 | a main-chain number key is the irreversible prefix followed by the index in canonical decimal |
| DagDb.DagDb.SaveHeader | dag/storage/dagdb.go:152-159 | stores the header under HEADER_PREFIX index _ chain index _ hash |
| DagDb.DagDb.SaveBody | dag/storage/dagdb.go:225-228 | stores the transaction hashes under the body key |
| DagDb.DagDb.UpdateAddrTransactions | dag/storage/dagdb.go:294-319 | the store changes as AddrTxsUpdated defines |
| DagDb.AddrTxsAppendOnly | dag/storage/dagdb.go:294-319 | a zero hash or an unreadable list is an error with nothing written; otherwise the list becomes old ++ [hash] and no other key changes |
| DagDb.DagDb.SaveTxLookupEntry | dag/storage/dagdb.go:321-337 | the store becomes LookupsSaved: each transaction's lookup key holds its entry |
| DagDb.LookupsSavedAt | dag/storage/dagdb.go:321-337 | the j-th transaction's key holds its entry (unit hash, unit index, j) when no later transaction written shares the key |
| DagDb.LookupsSavedElsewhere | dag/storage/dagdb.go:321-337 | keys of no transaction in the unit keep their old value (or stay absent) |
| DagDb.GetTxLookupEntry | dag/storage/dagdb.go:659-678 | a missing or empty entry is the "not found legal data" error; a success is the entry the inner decode leaves, whose own error is only logged |
| DagDb.LookupEntryReadBack | dag/storage/dagdb.go:321-337 | GetTxLookupEntry after SaveTxLookupEntry returns (unit hash, unit index, i) |
| DagDb.DagDb.UpdateHeadByBatch | dag/storage/dagdb.go:862-875 | success exactly when no put and not the write fails; any failure writes nothing; success writes the four head keys |
| DagDb.HeadPutsAllSame | dag/storage/dagdb.go:862-875 | the canonical, head-header, head-unit and head-fast keys all hold the same hash afterwards, and no other key changes |
| DagDb.ConvertOne | dag/storage/dagdb.go:736-841 | a converted message keeps its App, and an unknown App passes through unchanged |
| DagDb.Converted | dag/storage/dagdb.go:736-841 | on success as many messages as given |
| DagDb.ConvertedShape | dag/storage/dagdb.go:736-841 | on success each message is its own conversion, in order; it fails exactly when some message's payload fails to convert |
| DagDb.ConvertedRoundTrip | dag/storage/dagdb.go:736-841 | with a JSON payload codec that round-trips, conversion gives the messages back |
| DagDb.ConvertMsg | dag/storage/dagdb.go:736-841 | the loop gives exactly Converted |
| DagDb.DagDb.LoadTransaction | dag/storage/dagdb.go:708-735 | a zero hash, a missing key, a bad decode or a bad payload is an error; otherwise the stored transaction with converted messages |
| DagDb.TransactionFor | dag/storage/dagdb.go:682-707 | GetTransaction's only error is the panic on a malformed lookup entry; other failures give nil |
| DagDb.DagDb.GetTransaction | dag/storage/dagdb.go:682-707 | the method gives TransactionFor |
| DagDb.UnitTxs | dag/storage/dagdb.go:526-539 | one transaction slot per body hash |
| DagDb.UnitTxsOnlyPanic | dag/storage/dagdb.go:526-539 | collecting a unit's transactions can fail only by the panic |
| DagDb.DagDb.GetUnitTransactions | dag/storage/dagdb.go:526-539 | the loop gives the body's hashes, each looked up |
| DagDb.UnitAtShape | dag/storage/dagdb.go:490-525 | the chain-index, header or body failure is the result; on success UnitHash is the requested hash, with the stored header and one slot per body hash |
| DagDb.UnitReadBack | dag/storage/dagdb.go:490-525 | a unit saved by index, header and body reads back with them |
| DagDb.DagDb.GetUnit | dag/storage/dagdb.go:490-525 | the method gives UnitAt |
| DagDb.PrefixScan | dag/storage/dagdb.go:485-488 | GetPrefix: exactly the entries whose key starts with the prefix |
| DagDb.CollectSuffixes | dag/storage/dagdb.go:563-568 | the loop over the scanned keys collects their suffixes in the iteration order |
| DagDb.MaxParsed | dag/storage/dagdb.go:569-581 | the max loop gives MaxScan |
| DagDb.MaxScanBounds | dag/storage/dagdb.go:569-581 | MaxScan is at least every parsed suffix and is itself one of them (or the initial 0) |
| DagDb.PrefixedSplit | dag/storage/dagdb.go:565 | splitting prefix ++ s on the prefix gives two parts |
| DagDb.SuffixesOfNumbered | dag/storage/dagdb.go:563-568 | every scanned key contributes its numeric suffix |
| DagDb.GreatestNumbered | dag/storage/dagdb.go:569-582 | the maximum suffix names one of the scanned keys |
| DagDb.NumberedScanGreatest | dag/storage/dagdb.go:557-596 | the chosen key is in the scan and its number is the greatest |
| DagDb.IrreversibleFindsGreatest | dag/storage/dagdb.go:557-596 | over main-chain number keys, the key chosen is stored and its suffix number is the greatest of all scanned keys |
| DagDb.LastIrreversible | dag/storage/dagdb.go:582-596 | no hash at the chosen key is the "not found unit's hash" error |
| DagDb.DagDb.GetLastIrreversibleUnit | dag/storage/dagdb.go:557-596 | the method gives LastIrreversible over an enumeration of the scanned keys |
| UtxoPickup.Swap | core/utxo_pickup.go:38-40 | exchanges two elements in place, a permutation (the sort.Interface swap; the sort is modelled on values) |
| UtxoPickup.MinOf | core/utxo_pickup.go:45-55 | the minimum is one of the utxos |
| UtxoPickup.MinOfFirstMinimal | core/utxo_pickup.go:45-55 | the minimum has the least amount and is the first of that amount |
| UtxoPickup.FindMin | core/utxo_pickup.go:45-55 | the loop returns MinOf |
| UtxoPickup.Greaters | core/utxo_pickup.go:63-70 | every utxo in the bucket is above the amount |
| UtxoPickup.Lessers | core/utxo_pickup.go:63-70 | every utxo in the bucket is below the amount |
| UtxoPickup.BucketsExact | core/utxo_pickup.go:63-70 | the buckets hold exactly the utxos above and below the amount, each a sub-multiset of the input |
| UtxoPickup.Partition | core/utxo_pickup.go:63-70 | the loop builds exactly the two buckets |
| UtxoPickup.InsertAscending | core/utxo_pickup.go:79 | inserting into an ascending list keeps it ascending |
| UtxoPickup.InsertMultiset | core/utxo_pickup.go:79 | inserting adds exactly the element |
| UtxoPickup.SortByAmountSorts | core/utxo_pickup.go:79 | the sort is ascending by amount and a permutation |
| UtxoPickup.SelectionSortIsPermutation | core/utxo_pickup.go:79 | the sorted lesser bucket is ascending and a permutation of the bucket |
| UtxoPickup.SumAppend | core/utxo_pickup.go:80-91 | the sum of a concatenation is the sum of the parts |
| UtxoPickup.SumPrefixBelow | core/utxo_pickup.go:80-91 | a prefix sums to no more than the whole |
| UtxoPickup.SumPermutation | core/utxo_pickup.go:80-91 | a permutation has the same sum |
| UtxoPickup.CutFrom | core/utxo_pickup.go:80-91 | the cut point found from n is past n and its prefix reaches the amount |
| UtxoPickup.Cut | core/utxo_pickup.go:80-91 | a cut point's prefix reaches the amount |
| UtxoPickup.CutFromShortest | core/utxo_pickup.go:80-91 | the cut point is the shortest prefix past n that reaches the amount; none exactly when no such prefix exists |
| UtxoPickup.CutShortest | core/utxo_pickup.go:80-91 | the cut is the shortest non-empty prefix reaching the amount; none exactly when the list is empty or sums below the amount |
| UtxoPickup.Accumulate | core/utxo_pickup.go:80-91 | the accumulation loop with its uint64 running sum: it takes the prefix where the wrapped sum first reaches the amount, with that sum minus the amount as change, or reports not enough |
| UtxoPickup.SelectUtxoGreedy | core/utxo_pickup.go:56-95 | the selection as written, with the wrapping accumulator, over the sorted lesser bucket |
| UtxoPickup.GreedyPicksSmallestGreater | core/utxo_pickup.go:71-77 | with some utxo above the amount, the result is exactly the smallest such utxo, with change its amount minus the amount |
| UtxoPickup.GreedyTakesShortestPrefix | core/utxo_pickup.go:78-88 | otherwise the taken utxos are the shortest prefix of the sorted lessers reaching the amount, and their sum is the amount plus change |
| UtxoPickup.GreedyNotEnough | core/utxo_pickup.go:89-91 | with no utxo above the amount, the result is the error exactly when all lessers together fall short |
| UtxoPickup.NoGreaters | core/utxo_pickup.go:63-70 | with no utxo above the amount the greater bucket is empty |
| UtxoPickup.NoLessers | core/utxo_pickup.go:63-70 | with no utxo below the amount the lesser bucket is empty |
| UtxoPickup.GreedyIgnoresEqual | core/utxo_pickup.go:63-94 | utxos equal to the amount are in neither bucket, so with only those (or none) the result is empty with change 0 and no error |
| UtxoPickup.GreedySubMultiset | core/utxo_pickup.go:56-95 | the taken utxos are a sub-multiset of the input |
| UtxoPickup.PrefixSubMultiset | core/utxo_pickup.go:80-88 | a prefix is a sub-multiset of the list |
| UtxoPickup.CutWrapped | core/utxo_pickup.go:80-91 | the accumulation as written, with the 64-bit accumulator wrapping; a cut point it finds lies past n |
| UtxoPickup.WrappedAccumulatorFails | core/utxo_pickup.go:80-91 | two utxos of 2^64-2 with target 2^64-1: the wrapped accumulator never reaches the target, so the selection as written reports not enough, while the exact sum reaches it at the second utxo |
| UtxoPickup.CutWrappedExact | core/utxo_pickup.go:80-91 | while the running sum stays below 2^64, the wrapped loop stops where the exact sum first reaches the amount, with the same change |
| UtxoPickup.GreedyWrappedExact | core/utxo_pickup.go:56-95 | for lessers summing below 2^64 the selection as written is the exact-sum greedy outcome |
| UtxoPickup.SelectionExactWhenFits | core/utxo_pickup.go:56-95 | the same for the lesser bucket in the selector's own sorted order, so the greedy lemmas describe the selector whenever the lessers sum below 2^64 |
| Peer.HeadOf | ptn/peer.go:131-141 | an asset never set gives the zero hash and the zero chain index |
| Peer.SetHeadKeepsMax | ptn/peer.go:145-156 | after SetHead the stored index is the larger of the old and the new; the hash is replaced only on first set or a strictly greater index |
| Peer.Peer.constructor | ptn/peer.go:91-106 | a new peer has the given id and version, no heads and empty known sets |
| Peer.Peer.SetHead | ptn/peer.go:145-156 | the head map becomes WithHead and the known sets are unchanged |
| Peer.Mark | ptn/peer.go:160-186 | the hash is in the result, the result stays within the cap, only old elements are dropped, and a full set keeps exactly cap - 1 old hashes before the add |
| Peer.Peer.MarkUnit | ptn/peer.go:160-166 | the unit hash is known afterwards within the 1024 cap, a full set keeping exactly 1023 old hashes; other sets unchanged |
| Peer.Peer.MarkGroupSig | ptn/peer.go:170-176 | the group-signature hash is known afterwards within the 1024 cap, a full set keeping exactly 1023 old hashes; other sets unchanged |
| Peer.Peer.MarkTransaction | ptn/peer.go:180-186 | the transaction hash is known afterwards within the 32768 cap, a full set keeping exactly 32767 old hashes; other sets unchanged |
| Peer.ReadStatusOrder | ptn/peer.go:348-373 | success exactly when code, size, genesis, network and version all match; otherwise the first failing check in that order is the error |
| Peer.ReadStatus | ptn/peer.go:348-374 | a failed read is its error; success returns the decoded status, whose genesis, network and version equal the local ones (ReadStatusOrder gives the full order) |
| Peer.PeerSet.constructor | ptn/peer.go:385-401 | a new set is empty and open |
| Peer.PeerSet.Register | ptn/peer.go:456-468 | a closed set gives errClosed and a known id errAlreadyRegistered, both without change; otherwise exactly that peer is added |
| Peer.PeerSet.Unregister | ptn/peer.go:472-481 | an unknown id gives errNotRegistered without change; otherwise exactly that id is removed |
| Peer.PeerSet.Close | ptn/peer.go:606-618 | the set is emptied and marked closed |
| Peer.PeerSet.PeersWithout | ptn/peer.go:501-541 | exactly the registered peers whose known set of the kind lacks the hash, each once |
| Peer.PeerSet.PeersWithoutUnit | ptn/peer.go:501-512 | exactly the peers that do not know the unit hash |
| Peer.PeerSet.PeersWithoutGroupSig | ptn/peer.go:515-526 | exactly the peers that do not know the group signature |
| Peer.PeerSet.PeersWithoutTx | ptn/peer.go:530-541 | exactly the peers that do not know the transaction |
| Peer.PeerSet.BestPeer | ptn/peer.go:584-602 | nil exactly when the set is empty; otherwise a registered peer whose head index for the asset is at least every peer's |
| RawTxJson.Ptn2Dao | ptnjson/rawtxjson.go:146-148 | the amount times 10^8 truncated toward zero, taken modulo 2^64 (the uint64 conversion), so it is that number whenever it lies in the uint64 range |
| RawTxJson.Dao2Ptn | ptnjson/rawtxjson.go:149-152 | the result times 10^8 is exactly the dao amount |
| RawTxJson.DaoRoundTrip | ptnjson/rawtxjson.go:146-152 | Ptn2Dao(Dao2Ptn(n)) is n for every uint64 n |
| RawTxJson.Ptn2DaoTruncates | ptnjson/rawtxjson.go:146-148 | a non-negative amount below 2^64 dao converts to the largest whole number of dao it covers |
| RawTxJson.NegativeAmountWraps | ptnjson/rawtxjson.go:146-148 | a negative amount is not rejected: minus one dao becomes 2^64-1 |
| RawTxJson.FirstBadAddress | ptnjson/rawtxjson.go:134-138 | the first output whose address does not parse, none exactly when all parse |
| RawTxJson.PaymsgShape | ptnjson/rawtxjson.go:124-145 | an error exactly when some address does not parse; otherwise one input per JSON input with outpoint (Txid, MessageIndex, Vout) and one output per JSON output with value Ptn2Dao(amount) and the address's lock script, in order |
| RawTxJson.ConvertRawTxJson2Paymsg | ptnjson/rawtxjson.go:124-145 | the two loops give exactly Paymsg |
| RawTxJson.ConvertRawTxJson2Tx | ptnjson/rawtxjson.go:154-159 | exactly one APP_PAYMENT message, carrying the payment, or a nil payload when the conversion failed |
| RwSet.RwSetTxSimulator.constructor | contracts/rwset/rwsetTxSimulator.go:38-42 | a new simulator has empty sets and every flag false |
| RwSet.RwSetTxSimulator.CheckDone | contracts/rwset/rwsetTxSimulator.go:82-87 | an error exactly when Done was invoked |
| RwSet.CheckDoneFailsIffDone | contracts/rwset/rwsetTxSimulator.go:82-87 | CheckDone fails exactly when doneInvoked, with the fixed message |
| RwSet.DecomposeVersionedValue | contracts/rwset/rwsetTxSimulator.go:89-97 | nil gives (nil, nil); otherwise the value and version it holds |
| RwSet.RwSetTxSimulator.GetState | contracts/rwset/rwsetTxSimulator.go:45-62 | the state and result change as GetStateOf defines |
| RwSet.GetStateEffect | contracts/rwset/rwsetTxSimulator.go:45-62 | after Done it fails with no change; otherwise it returns nil and records (ns, key) with a nil version, and nothing else changes |
| RwSet.RwSetTxSimulator.SetState | contracts/rwset/rwsetTxSimulator.go:64-76 | the state and result change as SetStateOf defines |
| RwSet.SetStateEffect | contracts/rwset/rwsetTxSimulator.go:64-76 | fails exactly when done or when private data was queried, with no change; otherwise appends (ns, key, value) to the write set and nothing else changes |
| RwSet.RwSetTxSimulator.DeleteState | contracts/rwset/rwsetTxSimulator.go:78-80 | exactly SetState with a nil value |
| RwSet.RwSetTxSimulator.Done | contracts/rwset/rwsetTxSimulator.go:99-104 | the state is unchanged |
| RwSet.RunKeepsFlags | contracts/rwset/rwsetTxSimulator.go:38-104 | no operation raises a flag, so from all flags false they stay false |
| RwSet.RunWrites | contracts/rwset/rwsetTxSimulator.go:64-80 | with neither guard raised, the write set grows by exactly the writes asked for, in order, a delete writing nil |
| RwSet.NeverDone | contracts/rwset/rwsetTxSimulator.go:38-104 | a simulator from newBasedTxSimulator never fails CheckDone or SetState, and its write set is exactly the writes it was given |

## Left out

- Logging, goroutines, locks, timers and sleeps throughout; the sleep-poll branch of ProcessContractSigEvent (consensus/jury/service.go:263-282) is not modelled.
- I/O and foreign code are parameters: RLP and JSON codecs, hashing, the contract runtime, key-store unlock, signing, transaction validation and the transaction pool (a log of handed-over transactions). Their behaviour is only what the stated round-trip predicates assume. Where the source logs a decode error and goes on with the target (GetUnitKeys, GetKeysWithTag, the inner decode of GetTxLookupEntry), the codec also gives what the decoder leaves in the target, which may be partly filled after an error; FillsAgree only ties it to a successful decode.
- The key prefixes of dag/constants are parameters of the store; their values are not part of this model.
- Network sends, requests, the handshake's goroutines and timeout, and peer disconnect in ptn/peer.go. Only the head map, the known-hash sets, the peer registry and the status-message checks are modelled.
- Store write errors: every Put and StoreBytes succeeds. UpdateHeadByBatch's put and write failures are inputs.
- Iteration order of Go maps: the order is a ghost sequence, any enumeration of the keys, and the properties hold for every order.
- Peer.Mark: which old elements `Pop` removes from a full set is left open; only how many is fixed.
- DagDb.IrreversibleKey: Go builds the key with `fmt.Sprintf(key+"%d", max)` (dag/storage/dagdb.go:582); the model concatenates the prefix and the decimal, which is the same key only while UNIT_NUMBER_PREFIX and the asset text contain no `%`.
- UtxoPickup.SortByAmount: `sort.Sort` is unstable; the model sorts with a stable insertion sort, so among equal amounts its order is one of the orders `sort.Sort` may give.
- ConvertMsg overwrites each message's payload in place, visible to other holders of the slice; the model returns the new message list.
- SaveContract mutates the caller's contract; the model returns the filled-in contract.
- The other helpers in saver.go (SaveTransaction, the older updateAddrTransactions and SaveTxLookupEntry) are not part of this model; the dagdb.go versions are modelled.
- Saver.SaveJoint: the `onDone` callback (dag/storage/saver.go:61-63) is not called; it is caller code with no effect on the store, and the model has no caller to hand it to.
- Nil pointers passed as arguments (a nil unit, header or transaction) are not modelled, except for the panics noted above.
- RawTxJson.Ptn2Dao: decimal amounts are exact rationals; beyond 2^63-1 dao the Go `IntPart` result is undefined by its documentation, and the model takes the low 64 bits.
- RawTxJson: NewPaymentPayload, NewTxIn and NewTransaction are not part of this model; the model takes lock time 0, empty signature scripts, zero TxHash and TxId, and the zero asset for the nil asset.
- RwSet: the read-write set builder, the database lookup (commented out in GetState) and GetTxSimulationResults are not part of this model; the sets are logs of recorded entries, and `writePerformed` is never set by the code.
- UtxoView.CheckTransactionSanity: the serialized size and the MaxBlockBaseSize and MaxDao limits are parameters.
- UtxoView.SanityAccepts: stated for limits with 2 * MaxDao below 2^64, where the 64-bit running total cannot wrap between two checks; the check itself is modelled with the wrap.
- UtxoPickup: `Utxos.Len` and `Utxos.Less` are the sequence length and the amount comparison the sort uses; they have no members of their own.

## Findings

| source | as written | input that shows it | evidently intended | confidence | as-written member | corrected member |
|---|---|---|---|---|---|---|
| dag/modules/unit.go:471 | `version = &v` rebinds the local pointer, so the caller's StateVersion never receives the decoded version | any key `a^*^b^*^t` with `t` the RLP of a version other than the receiver's: the call returns true and the receiver keeps its old version | `*version = v`, storing the decoded version | high (not executed) | Modules.ParseStringKey, Modules.ParseStringKeyLosesVersion | Modules.ParseStringKeyIntended |
| core/utxo_pickup.go:80-91 | the running sum of the lesser utxos is a uint64 and wraps past 2^64-1 | utxos of 2^64-2 and 2^64-2 with target 2^64-1: the exact sum reaches the target at the second utxo, the wrapped one (2^64-4) does not, so the call reports not enough | compare an exact (or overflow-checked) sum with the target | medium (not executed) | UtxoPickup.CutWrapped, UtxoPickup.WrappedAccumulatorFails | UtxoPickup.Cut |

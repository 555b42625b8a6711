# pixelparty frame indexer and ownership contract, modelled in Dafny

This project models two small pieces of the pixelparty indexer.

The first is the per-block handler `getBlock` (`pixelparty/indexingLogic.js`).
It keeps the actions addressed to `pixelparty.near` and, within them, the
`FunctionCall` operations whose method is `load_frame_data`. It decodes each kept
call's arguments and attaches the receipt id of the action. For every such call,
`handleFrameDataRetrieval` walks the decoded `data` array by index. At each index
it pairs `data[i]` with `metadata[i]` and the block and call context into one
flat frame record, and submits that record with a GraphQL mutation.

The second is the ownership contract `Contract` (`pixelparty/indexingLogic.rs`).
`add_ownership` appends one `OwnershipRecord` to the stored history.
`get_ownership_history` returns the records of one owner, in stored order.

Files:

- `frame_indexer.dfy`, module `FrameIndexer`: the block data, the selector
  (`Matches`, `DecodeAll`, `Select`), the expander (`Frames`,
  `HandleFrameDataRetrieval`), the GraphQL capability (`GraphqlContext`) and
  the handler (`GetBlock`).
- `ownership.dfy`, module `Ownership`: `OwnershipRecord`, the filter `OwnedBy`
  and the class `Contract`.

How the model stands in for what it cannot see:

- The base64 and JSON decoding is a parameter `decode: string -> Option<FrameDataWrapper<D, M>>`.
  `None` stands for `JSON.parse` throwing. The item types `D` (frame data) and
  `M` (frame metadata) are type parameters.
- `context.graphql` is the class `GraphqlContext`. A submission appends the
  record to its `submitted` sequence and always succeeds.
- The code never checks that `metadata` is as long as `data`. The loop runs over
  `data` only, and reading `metadata[i]` past its end gives `undefined`. The model
  keeps this: `frameMetadata` is an `Option`, and `MetadataAt` gives `None` there.
  No error is raised.
- The code does not skip a call whose payload fails to decode. The throw happens
  inside the selection expression, before anything is submitted, so the whole
  handler rejects. The model does the same: `GetBlock` returns `Rejected` and
  submits nothing.
- The selected call is the object `{...functionCall, args, receiptId}` (lines
  33-37). Line 50 then reads `tx.signerId`, which that object does not carry (see
  "## Findings"). `SelectAsWritten` and `BlockFramesAsWritten` model the code as
  written. `Select`, `BlockFrames` and `GetBlock` carry the action's signer, as
  intended.
- The Rust file would not compile as written. `.cloned()` is applied to an
  iterator of owned values, and `OwnershipRecord` derives neither `Clone` nor a
  JSON serializer. The model takes the evident meaning: copy the matching
  records out in order.

## Model

| member | source | states |
|---|---|---|
| FrameIndexer.ActionMatches | pixelparty/indexingLogic.js:29-32 | every call selected from an action's operations is a `FunctionCall` among those operations whose method is `load_frame_data`, paired with that action; no more results than operations |
| FrameIndexer.Matches | pixelparty/indexingLogic.js:25-32 | every selected call comes from an action of the block whose receiver is `pixelparty.near`, is a `FunctionCall` operation of that action, and names `load_frame_data` |
| FrameIndexer.ActionMatchesAppend | pixelparty/indexingLogic.js:29-32 | selection within an action distributes over concatenation of the operations, so operation order is kept |
| FrameIndexer.MatchesAppend | pixelparty/indexingLogic.js:25-28 | selection distributes over concatenation of the actions, so action order is kept |
| FrameIndexer.OtherOperationIgnored | pixelparty/indexingLogic.js:30-32 | inserting an operation that is not a `load_frame_data` FunctionCall anywhere changes nothing |
| FrameIndexer.OtherReceiverIgnored | pixelparty/indexingLogic.js:27 | inserting an action addressed to another receiver anywhere changes nothing |
| FrameIndexer.ActionMatchesComplete | pixelparty/indexingLogic.js:29-32 | every `load_frame_data` FunctionCall of an action is selected from it |
| FrameIndexer.MatchesComplete | pixelparty/indexingLogic.js:25-32 | every `load_frame_data` FunctionCall of every action addressed to `pixelparty.near` is selected |
| FrameIndexer.NoTargetSelectsNothing | pixelparty/indexingLogic.js:25-27 | a block with no action addressed to `pixelparty.near` selects no call |
| FrameIndexer.DecodeAll | pixelparty/indexingLogic.js:33-37 | decoding fails exactly when some selected call's payload fails to decode; otherwise there is one decoded call per selected call, in order, with the decoded args, the receipt id of its action and the FunctionCall's other fields copied |
| FrameIndexer.Select | pixelparty/indexingLogic.js:25-38 | selection fails exactly when some selected payload fails to decode; every selected call names `load_frame_data` and carries the receipt id and signer of one action addressed to `pixelparty.near` |
| FrameIndexer.SelectAsWritten | pixelparty/indexingLogic.js:33-37 | the call objects as written equal the corrected ones except that none carries a signer id |
| FrameIndexer.Frames | pixelparty/indexingLogic.js:71-84 | the loop produces exactly `data.length` records; record i holds `data[i]`, `metadata[i]` (absent past the end of `metadata`) and the same account id, block height, block timestamp and receipt id |
| FrameIndexer.CallsFrames | pixelparty/indexingLogic.js:45-56 | the records of all calls number the sum of their data lengths; each carries the block's height and timestamp and the receipt id and account id of one of the calls |
| FrameIndexer.CallsFramesAppend | pixelparty/indexingLogic.js:46-56 | the records of a run of calls are those of each call, one after the other |
| FrameIndexer.BlockFrames | pixelparty/indexingLogic.js:41-59 | no record when decoding fails; every record carries the block's height and timestamp and the receipt id and signer of one action addressed to `pixelparty.near` |
| FrameIndexer.BlockFramesAsWritten | pixelparty/indexingLogic.js:46-56 | as written, the block submits the intended records in the intended order, each equal to the intended one except that it has no account id |
| FrameIndexer.CallsFramesDropSigner | pixelparty/indexingLogic.js:50-53 | calls stripped of their signer expand to the same records, in the same order, stripped of their account id |
| FrameIndexer.AsWrittenLosesSigner | pixelparty/indexingLogic.js:50 | on a concrete block, the record as written has no account id while the signer of the action is `alice.near` |
| FrameIndexer.NoTargetSubmitsNothing | pixelparty/indexingLogic.js:41-59 | a block with no action addressed to `pixelparty.near` submits no record |
| FrameIndexer.GraphqlContext.Graphql | pixelparty/indexingLogic.js:95 | one mutation appends exactly its record to what has been submitted |
| FrameIndexer.HandleFrameDataRetrieval | pixelparty/indexingLogic.js:62-101 | the loop submits exactly the records of `Frames`, in index order, after whatever was submitted before |
| FrameIndexer.SubmitAll | pixelparty/indexingLogic.js:45-58 | the fan-out submits the records of every call, call after call, after whatever was submitted before |
| FrameIndexer.GetBlock | pixelparty/indexingLogic.js:14-60 | the handler rejects exactly when a selected payload fails to decode; it then submits nothing, and otherwise it submits exactly `BlockFrames` |
| Ownership.OwnedBy | pixelparty/indexingLogic.rs:33-37 | every returned record is owned by the queried account; no more records than stored |
| Ownership.OwnedByInStoredOrder | pixelparty/indexingLogic.rs:33-37 | the result is the stored records at a strictly ascending list of positions, and a position is in that list exactly when its record is owned by the account |
| Ownership.OwnedByNothing | pixelparty/indexingLogic.rs:33-37 | an account that owns no stored record gets an empty result |
| Ownership.OwnedByPush | pixelparty/indexingLogic.rs:22-29 | appending a record extends the result of its owner by that record and leaves every other account's result unchanged |
| Ownership.Contract.constructor | pixelparty/indexingLogic.rs:7-9 | the contract holds the history it is loaded with |
| Ownership.Contract.AddOwnership | pixelparty/indexingLogic.rs:22-29 | the history grows by exactly one record, built from the arguments and placed last; every earlier record stays at its position; each account's query result grows by that record exactly when it is the owner |
| Ownership.Contract.GetOwnershipHistory | pixelparty/indexingLogic.rs:32-38 | reads the state without changing it; every returned record is owned by the account; an account owning nothing gets an empty result |

## Left out

- Base64 and UTF-8 decoding and `JSON.parse` (lines 16-19 of the JavaScript file) are one uninterpreted parameter. They are library calls whose lenient behaviour is not part of this model.
- A payload that parses but is not shaped like `{data, metadata}` is not modelled. The decoder returns that shape or fails. In the code, a missing `data` array throws a TypeError inside one call's expansion.
- The `Promise.all` fan-out (lines 45-58) is concurrent. The model runs the calls one after the other (`SubmitAll`). The set of records and each call's own index order are the same under any interleaving; the order between calls is not.
- SubmitAll: does not model a rejection of `Promise.all` or a failed mutation. `context.graphql` always succeeds here, so a failure that stops one call's loop early is not captured.
- The GraphQL mutation text and its transport (lines 86-95) are external I/O. A submission is an append to `GraphqlContext.submitted`.
- `console.log` output (lines 42 and 97-99) is logging and is left out.
- The `near_sdk` runtime (`#[near_bindgen]`, Borsh serialization, on-chain `Vector` storage, `env`, `ext_contract`) is a foreign binding. The history is a plain `seq`, and the constructor takes the history loaded from storage, since the source has no initializer.
- The fields of a FunctionCall other than `methodName` and `args` are modelled as `gas` and `deposit`, as the block library delivers them. That library is not part of this model.

## Findings

| source | as written | input that shows it | evidently intended | confidence | as-written member | corrected member |
|---|---|---|---|---|---|---|
| pixelparty/indexingLogic.js:33-37, 50 | the selected call is the FunctionCall's own fields plus `args` and `receiptId`; line 50 reads `tx.signerId`, which that object lacks, so every record's `account_id` is undefined | a block with one action from `alice.near` to `pixelparty.near` holding one `load_frame_data` call (`AsWrittenLosesSigner`) | `account_id` is the signer of the action that made the call, attached alongside `receiptId` | medium, not executed; it rests on the FunctionCall operation of the block library having no `signerId`, and line 36 attaches `receiptId` by hand for the same reason | FrameIndexer.BlockFramesAsWritten | FrameIndexer.BlockFrames |

# A verified model of the Hyperliquid signing application

The application signs Hyperliquid exchange actions on a hardware wallet. A host sends PKI-signed metadata, a list of
actions and a signing command; the user sees one review for the whole list; the device then releases one EIP-712
signature for each action. This project models the four parts that have to agree for this to be safe, and proves what
each promises and what they promise together:

1. **The session** (`HlContext`, `Session`, `Device`): the stored context, the command handlers, the review and the
   communication gate, as a state machine (`Session.Step`, `Session.Run`) and as classes over mutable state that are
   proved to do exactly these steps. `SessionProofs`, `SessionTheorems` and `SessionRuns` prove what holds over every
   run: each signature is released under an approved review of its list, in push order, once, with the reviewed path;
   the review looks actions up by type while signing walks them by index, and still each signed action is the one shown.
   `SessionExact` says what each command and choice does, exactly, in every reachable state.
2. **Serialization and digests** (`MessagePack`, `Serializer`, `Decoder`, `SizeBound`, `Writer`, `Eip712`,
   `ActionHash`): the MessagePack tokens of each action, a decoder written for the proof, the bound of the 1024-byte
   buffer, the chain of writes that fills it, and the hashes up to the digest that is signed.
3. **Transport and parsing** (`Chunks`, `Tlv`, `Parsers`, `BulkParsers`, `ActionParser`, `MetadataParser`,
   `MarginAmount`, `Fields`): chunk reassembly against the client's splitting, and the nested TLV parsers against the
   client's printers and, for all bytes, against the fields that the bytes hold.
4. **Review checks** (`Review`, `ReviewProofs`, `ReviewUi`, `Screens`): which lists a review accepts, and what its
   screen says about what is signed.

`WireForms` and the lemmas named `…WrittenOut` state the bytes that are sent, serialized and hashed, and the screens, in
full and without the functions that compute them, so that a printer and its parser, or a serializer and its decoder,
cannot agree on the wrong thing.

`SessionRuns.HonestSession` joins all four: an honest client's printed, split and sent metadata and actions, followed
by an approval, give exactly the review of these actions and their signatures.

`Bytes` holds bytes, big-endian numbers and hex; `Model` the entities. A function `Foo` of the specification and the
method that models the C function which computes it stand beside each other; the method's `ensures` equates the two.
Where the order of modules matters to a reader: `Bytes`, `Model`, then each of the four parts in the order above.

Hashing and signing are functions given to the model (`Keccak`, `Env`); whether they, or a send, work is part of each
event (`Luck`). Keccak is not taken to be injective: `Eip712.DigestBinds` asks only that it does not collide on the
inputs that the two digests in question hash.

## Results that differ from what the repository says

- `src/handler/sign_action.c:91-94` says that the list is frozen once the first review is shown. It is frozen by the
  first *signature*: after an approval whose hashing or signing fails, the index is still 0 and actions can still be
  pushed (`SessionRuns.FrozenBySignature` gives the exact condition, `ApprovedListGrows` the runs in which the list does
  grow after its approval, `SomeApprovedListGrows` one of them). The claim this is meant to support, that what is
  signed is what was shown, holds all the same, because the next signing command opens a new review.
- `doc/signing_flow.md:61` takes the device back to idle when metadata come again before signing. The code empties the
  list and keeps the new metadata; only during signing does it drop both.
- `doc/signing_flow.md:82-83` lists no order ids for cancellations; the code shows every one of them, and
  `ReviewProofs.CancelScreenDetermines` depends on it.
- An order screen does not fix everything about the limit order: it shows a position side, which a buy and a
  reduce-only sell share, and no limit price for market orders. `ReviewProofs.OrderScreenDetermines` proves that these two
  are all that is open; `DirectionIsNotShown` and `MarketPriceIsNotShown` prove that they are open. For a pair of
  triggers, the stop-loss's direction is open too (`StopLossDirectionIsNotShown`), as the comment at
  `src/ui/op_modify.c:121-122` says.
- `src/handler/sign_action.c:89-90` says that all actions are described in the review. Besides the fee approvals and
  abstraction changes that `src/action.c:205-207` names as silent, the grouping, the builder and its fee inside a bulk
  order are signed without being shown: no review depends on them (`ReviewProofs.GroupingAndBuilderAreNotShown`).
- The length encoder of `unit-tests/tlv_helpers.h` and the Python client's agree exactly below 2^24
  (`Tlv.EncodersAgree`); above, the C one stops at three length bytes.

## Model

| member | source | states |
|---|---|---|
| SessionTheorems.SignaturesFollowReview | src/handler/sign_action.c:20-119 | in every run, every released signature ends an exchange: an honest review of a list the device held, its approval, and the signatures of the first actions of that list, in push order, under the review's path and address |
| SessionTheorems.NothingSignedTwice | src/handler/sign_action.c:85-119 | in every run, two signatures with no approval between them are of actions of different types, so none is signed twice under one approval |
| SessionTheorems.ReviewedIsAccounted | src/action.c:182-234 | in a list under review, the action at any index is the one its screen accounts for, though the review finds it by type |
| SessionTheorems.EverySignatureIsAccounted | src/ui/operation.c:48-105 | in every run, every signed action was accounted for on the screen whose approval released it: brackets for orders, trigger pairs for modifications, all ids for cancellations, amount and side for margin, the leverage for leverage updates; fee approvals and abstraction changes only under ORDER; nothing is claimed of a bulk order's grouping and builder, which are not shown |
| SessionTheorems.LastOfExchange | src/handler/sign_action.c:48-51 | the last signature of an exchange is of the last action counted, with the remaining count that goes with it |
| SessionTheorems.EarlierInExchange | src/hl_context.c:50-59 | earlier signatures under the same approval are of the earlier actions, at matching positions |
| SessionProofs.LookupIsWalk | src/hl_context.c:50-68 | with pairwise distinct types, looking up the type of entry i returns entry i |
| SessionProofs.ListIsShort | src/action.c:202-234 | a stored list has at most four actions, one for every operation but ORDER, so the capacity of ten is never reached |
| SessionProofs.StoredIsConsistent | src/order_request.c:284-301 | every stored action names only the metadata's asset, and its bulk list is not empty |
| SessionProofs.SetActionKeeps | src/action.c:236-264 | SET_ACTION keeps the context valid: distinct types, allowed by the operation, one at most for MODIFY, all parsed under the stored metadata |
| SessionProofs.ProvideMetadataKeeps | src/action_metadata.c:221-247 | PROVIDE_ACTION_METADATA keeps the context valid and its metadata signed |
| SessionProofs.SignActionCases | src/handler/sign_action.c:20-60 | signing releases nothing and changes nothing, or releases the next signature of the reviewed list and steps on or resets |
| SessionProofs.SignCommandKeeps | src/handler/sign_action.c:62-119 | a signing command keeps the run invariant: it opens a review or continues the approved one |
| SessionProofs.ReviewChoiceKeeps | src/ui/operation.c:24-38 | an approval or rejection keeps the run invariant |
| SessionProofs.ChunkCommandKeeps | src/chunked_payload.c:17-85 | a chunk command keeps the run invariant |
| SessionProofs.StepKeeps | src/app_main.c:54-86 | every event keeps the run invariant, including the gate on communication |
| SessionProofs.RunKeeps | src/app_main.c:36-87 | the invariant holds after every run from the start |
| SessionRuns.ContextInEveryRun | src/hl_context.c:17-80 | in every run: index at most count at most four, no actions without signed metadata, consistent assets, allowed types, lookup by type equal to walk by index |
| SessionRuns.OnePathPerReview | src/handler/sign_action.c:95-118 | while a review is pending it is the last output, and while signing is under way the trace ends with its exchange; the stored path, actions and metadata are those of this review, and the address is derived from its path |
| SessionRuns.OtherPathsAreRefused | src/handler/sign_action.c:113-117 | once signing is under way, a command with any other path is refused and changes nothing |
| SessionRuns.MetadataOnlyWithEmptyList | src/action_metadata.c:221-247 | metadata change only together with emptying the list: to exactly the parse of a complete signed payload when no signing is under way, or to none, by such a payload during signing, a choice or a signing command; a payload that does not parse leaves the context unchanged |
| SessionRuns.FrozenBySignature | src/handler/sign_action.c:91-94 | after an approval the list is still open if and only if hashing or signing failed and the refusal was sent; otherwise it is frozen or gone |
| SessionRuns.ApprovalDoesNotFreeze | src/handler/sign_action.c:91-94 | after an approval whose hashing fails, the next action that a client sends is appended to the approved list |
| SessionRuns.ApprovedListGrows | src/handler/sign_action.c:91-94 | the same in runs from a fresh device: reviewed, approved, nothing signed, and the list is longer afterwards |
| SessionRuns.SomeApprovedListGrows | src/handler/sign_action.c:91-94 | there is such a run: a leverage change is added to an approved order |
| SessionRuns.SigningProgress | src/handler/sign_action.c:48-59 | an approval and one further matching command for each remaining action, all working, release all signatures in order and end in the empty context |
| SessionRuns.SignNext | src/handler/sign_action.c:48-59 | a working signature at index k reports remaining n-(k+1), and resets after the last |
| SessionRuns.ChunkRun | src/chunked_payload.c:17-85 | a delivered payload has exactly the effect of its handler on the context, outputs nothing and leaves nothing buffered |
| SessionRuns.ActionArrives | tests/application_client/set_action.py:16-35 | an action printed and split by the client, sent in chunks, is appended to the context as it is |
| SessionRuns.MetadataArrive | tests/application_client/action_metadata.py:57-75 | signed metadata printed and split by the client become the context's metadata with an empty list |
| SessionRuns.HonestSession | doc/signing_flow.md:7-46 | the whole documented flow, over the client's encoding and transport, gives the review of exactly the sent actions and all their signatures in order, and ends empty |
| Session.PaddedComparison | src/handler/sign_action.c:113-114 | comparing lengths and zero-padded arrays is comparing paths |
| Session.ReadPathExact | src/handler/sign_action.c:65-75 | the path read is exactly the one printed as its count and 4-byte big-endian indices in order, whatever follows |
| Session.ReadPathRefuses | src/handler/sign_action.c:65-75 | a path is refused exactly when its count is missing, zero or above ten, or indices are missing |
| SessionProofs.CompatibleExact | src/action.c:202-234 | a type is compatible if and only if the operation allows it and MODIFY holds none of its two yet |
| SessionExact.AllowedByCode | src/action.c:202-234 | by wire codes: ORDER takes 0, 3, 4 and 6, MODIFY 0 and 1, CLOSE 0, UPDATE_MARGIN 5, and every cancellation 2 |
| SessionExact.CodesRead | src/action_metadata.c:50-73 | operation codes 0 to 8 without 3, and type codes 0 to 6, are read; all others are refused |
| SessionExact.SetActionInEveryRun | src/action.c:236-264 | in every run, an action is stored if and only if it parses under the metadata's asset, nothing has been signed yet, and its type is allowed and new, and the only one for MODIFY |
| SessionExact.MetadataReplaceOrReset | src/action_metadata.c:236-246 | a complete signed payload replaces the whole context; during signing it empties it |
| SessionExact.RejectionForgets | src/ui/operation.c:33-37 | a rejection enables communication and forgets metadata and list |
| SessionExact.NothingWithoutMetadata | src/action.c:243-246 | from an empty context nothing is shown, stored or released until signed metadata are provided |
| SessionExact.NoSignatureAfterRejection | src/ui/operation.c:33-37 | in every run, after a rejection a signature is released only after new metadata and a new approved review |
| SessionExact.MessageWrittenOut | src/handler/sign_action.c:35-51 | a release is the action, the reviewed path, the signature over the digest of action, network and address by that path's key, and the remaining count |
| SessionExact.OpeningExact | src/handler/sign_action.c:95-111 | in every run, a first signing command opens a review if and only if it carries a path, actions are stored, the address is derived and the review accepts; the context stays as it is |
| SessionExact.NextSignatureExact | src/handler/sign_action.c:113-118 | in every run, a later signing command releases the next signature exactly for the reviewed path, on working crypto and with actions left, and forgets everything only after the last one that was sent |
| SessionExact.ApprovalExact | src/ui/operation.c:24-32 | in every run, what an approval releases and keeps, for every outcome of hashing, signing and sending |
| SessionExact.AnswersAndGate | src/app_main.c:54-86 | choices never end the application, chunk commands do exactly when the answer is not sent, and no command does anything while communication is disabled |
| SessionExact.EndedIsSilent | src/app_main.c:79-82 | after it has ended nothing happens |
| HlContext.ActionStore.constructor | src/hl_context.c:6-15 | the store starts as the empty context |
| HlContext.ActionStore.Reset | src/hl_context.c:78-80 | reset gives the empty context |
| HlContext.ActionStore.SaveMetadata | src/hl_context.c:17-22 | saves the metadata and nothing else |
| HlContext.ActionStore.Push | src/hl_context.c:31-48 | pushes exactly when there is room, signing has not started and the type is new; the context is otherwise unchanged |
| HlContext.ActionStore.Current | src/hl_context.c:50-55 | the action at the index, or none past the end |
| HlContext.ActionStore.Next | src/hl_context.c:57-59 | steps the index by one |
| HlContext.ActionStore.Get | src/hl_context.c:61-68 | the first stored action of the type |
| HlContext.ActionStore.Remaining | src/hl_context.c:74-76 | count minus index, with no 8-bit wrap-around |
| HlContext.ActionStore.IsCompatible | src/action.c:202-234 | the operation allows the type, and MODIFY holds nothing of its two types yet |
| Device.App.ParseActionMetadata | src/action_metadata.c:221-247 | verify, then reset, then save: the context after it is the specified one |
| Device.App.ParseActionPayload | src/action.c:236-264 | parse, compatibility check and push: the context after it is the specified one |
| Device.App.HandleChunk | src/handler/set_action.c:7-10 | one chunk command over the buffer and the context does exactly the specified step |
| Device.App.SignNext | src/handler/sign_action.c:20-60 | hash, sign, step, send and reset: the new context, the release and the returned value are the specified ones |
| Device.App.HandleSign | src/handler/sign_action.c:62-119 | path capture, review, or comparison and signing: exactly the specified step |
| Device.App.HandleChoice | src/ui/operation.c:24-38 | enables communication and signs or resets, exactly as specified |
| Device.App.Handle | src/app_main.c:54-86 | one turn of the loop does exactly one step of the state machine |
| Device.App.RunApp | src/app_main.c:36-87 | the application over its mutable state has exactly the runs of the state machine, so all results on runs apply to it |
| Eip712.DigestBinds | src/eip712_common.c:77-122 | if Keccak does not collide on what two digests hash, equal digests mean the same action with its nonce, the same network, and the same wallet for abstraction changes |
| Eip712.ConnectionBinds | src/eip712_cid.c:9-60 | the same for actions hashed through their connection id, against any other action |
| Eip712.UserSignedBinds | src/eip712_builder_fee.c:10-85 | the same for fee approvals and abstraction changes, against any other action |
| Eip712.HashStructBinds | src/eip712_common.c:51-75 | without collisions, equal struct hashes have the same type text and the same member words |
| Eip712.ConnectionPreimageInjective | src/action.c:306-342 | serialized bytes, nonce and end byte determine action and nonce |
| Eip712.DigestWrittenOut | src/eip712_common.c:77-100 | the digest is the hash of 0x19, 0x01 and the two hashes |
| Eip712.AgentWrittenOut | src/eip712_cid.c:9-60 | every byte hashed for an action with a connection id: the Exchange domain, version 1, chain 1337, and the Agent message with "a" on mainnet and "b" on testnet |
| Eip712.FeeWrittenOut | src/eip712_builder_fee.c:10-85 | every byte hashed for a fee approval, on its own chain id, with the network's name |
| Eip712.AbstractionWrittenOut | src/eip712_abstraction.c:10-90 | every byte hashed for an abstraction change, on its own chain id, with the network's name, the address and the value's text |
| ActionHash.HashContext.EncodeVal | src/eip712_common.c:64-75 | feeds a value left-padded to 32 bytes, and refuses longer ones |
| ActionHash.HashContext.EncodeDynVal | src/eip712_common.c:51-62 | feeds the hash of a dynamic value |
| ActionHash.ComputeDomainHash | src/eip712_common.c:10-49 | is the EIP-712 domain separator of name, version 1, chain and zero contract |
| ActionHash.AgentMessageHash | src/eip712_cid.c:9-33 | is hashStruct of Agent with the source text and the connection id |
| ActionHash.FeeMessageHash | src/eip712_builder_fee.c:10-50 | is hashStruct of the fee approval: chain text, rate, builder, nonce |
| ActionHash.AbstractionMessageHash | src/eip712_abstraction.c:10-50 | is hashStruct of the abstraction change: chain text, user, value text, nonce |
| ActionHash.ComputeConnectionId | src/action.c:306-342 | succeeds exactly for serializable actions on working crypto, with the hash of bytes, nonce and end byte; otherwise nothing is hashed |
| ActionHash.HashAction | src/action.c:344-394 | never fails on an action while the crypto library works, and gives the two specified hashes |
| ActionHash.ComputeSigningDigest | src/eip712_common.c:77-100 | hashes the magic bytes and both hashes |
| MessagePack.DecTokenInvertsEnc | unit-tests/test_order_request.c:643-654 | every token in its smallest MessagePack form reads back to itself and leaves what follows |
| MessagePack.WrittenFormIsShortest | unit-tests/test_bulk_order.c:352-358 | no other form that MessagePack allows for a token is shorter than the one written |
| MessagePack.DocumentRoundTrip | src/action.c:266-289 | a sequence of tokens that is one complete value is recovered from its bytes, with what follows untouched |
| Serializer.BodyIsDocument | src/action.c:266-289 | every map and array header counts exactly what is emitted under it: each serialized action is one complete MessagePack value |
| Decoder.SerializationRoundTrip | src/action.c:266-289 | a decoder recovers every bulk order, modify, cancel, leverage and margin action from its bytes, with any suffix untouched |
| Decoder.SerializationInjective | src/action.c:266-289 | bytes and suffix determine action and suffix, across all five types |
| WireForms.BodySignedAs | src/action.c:266-289 | the serialized bytes of all five actions, key by key in the order the serializers write them |
| WireForms.OrderEncodes | src/order_request.c:334-405 | the same for one order |
| WireForms.NumbersSigned | unit-tests/test_order_request.c:643-654 | one number of each size and sign in its marker and big-endian bytes |
| WireForms.OrderCodesMean | src/order_request.h:9-23 | which codes are read for time in force, trigger kind, grouping and order type, and the text each is signed as |
| WireForms.ActionCodesMean | src/user_set_abstraction.c:57-69 | the same for abstractions and networks |
| WireForms.StructureOfCode | src/action.h:16-24 | each action type code parses to its own structure |
| SizeBound.OrderSize | src/order_request.c:334-405 | an order takes at most 162 bytes |
| SizeBound.BulkOrderSize | src/bulk_order.c:170-222 | a bulk order takes at most 918 bytes |
| SizeBound.BulkModifySize | src/bulk_modify.c:118-142 | a bulk modify takes at most 938 bytes |
| SizeBound.BulkCancelSize | src/bulk_cancel.c:122-146 | a bulk cancel takes at most 117 bytes |
| SizeBound.EveryActionFits | src/action.c:15-15 | every serializable action fits the 1024-byte buffer |
| Writer.SerBuffer.SerWriter | src/action.c:291-304 | writes all of the data or none of it, never past the buffer |
| Writer.SerBuffer.WriteParts | src/action.c:291-304 | appends one token, or fails because the whole document does not fit, with what was there before intact |
| Writer.LimitOrderSerialize | src/order_request.c:55-84 | appends exactly the tokens of a limit kind |
| Writer.TriggerOrderSerialize | src/order_request.c:141-179 | appends exactly the tokens of a trigger kind |
| Writer.OrderRequestSerialize | src/order_request.c:334-405 | appends exactly the tokens of an order |
| Writer.ModifyRequestSerialize | src/bulk_modify.c:50-69 | appends exactly the tokens of a modify request |
| Writer.CancelRequestSerialize | src/bulk_cancel.c:54-73 | appends exactly the tokens of a cancel request |
| Writer.BuilderSerialize | src/bulk_order.c:59-88 | appends exactly the tokens of the builder, if there is one |
| Writer.BulkOrderSerialize | src/bulk_order.c:170-222 | appends exactly the tokens of a bulk order |
| Writer.BulkModifySerialize | src/bulk_modify.c:118-142 | appends exactly the tokens of a bulk modify |
| Writer.BulkCancelSerialize | src/bulk_cancel.c:122-146 | appends exactly the tokens of a bulk cancel |
| Writer.UpdateLeverageSerialize | src/update_leverage.c:56-89 | appends exactly the tokens of a leverage update |
| Writer.UpdateIsolatedMarginSerialize | src/update_isolated_margin.c:66-100 | appends exactly the tokens of a margin update, the amount as a signed integer |
| Writer.ActionSerialize | src/action.c:266-304 | from any offset, succeeds exactly when the whole encoding fits; the buffer is then the old prefix and the encoding, and on failure the old prefix is intact |
| Bytes.BytesToLowercaseHex | unit-tests/stubs/os_utils_stubs.c:7-24 | fills exactly the hex digits and a NUL when they fit, refuses otherwise, and leaves the rest before the start alone |
| Bytes.UnHexInvertsHex | unit-tests/stubs/os_utils_stubs.c:7-24 | the hex text determines the bytes |
| Chunks.BufferInvariant | src/chunked_payload.c:28-85 | after any interleaving of commands for either handler: idle, or fewer bytes than a size of at most 1020, and exactly those received since the last first chunk |
| Chunks.StateStaysValid | src/chunked_payload.c:28-85 | every command leaves a sound state, and a completed payload has 1 to 1020 bytes |
| Chunks.ChunkedPayload.Process | src/chunked_payload.c:17-85 | one command over the static buffer has exactly the specified outcome and new state; refusals and completion leave it all zero |
| Chunks.TransportRoundTrip | src/chunked_payload.c:17-85 | from idle, every legal split of a payload of 1 to 1020 bytes delivers exactly that payload, once, at the last chunk |
| Chunks.TransportExact | src/chunked_payload.c:17-85 | and nothing but a legal split of it ever delivers a payload |
| Chunks.ClientTransport | tests/application_client/command_sender.py:28-73 | in particular the client's split into 255-byte commands |
| Chunks.SplitMessageJoins | tests/application_client/command_sender.py:28-29 | the pieces are 1 to 255 bytes long and join to the message |
| Tlv.EncodersAgree | unit-tests/tlv_helpers.h:19-43 | the C and the Python length encoders agree if and only if the value is below 2^24 |
| Tlv.ReadDerInverts | tests/application_client/tlv.py:5-12 | an encoded tag or length reads back, with what follows untouched |
| Tlv.ReadFieldInverts | tests/application_client/tlv.py:14-29 | a printed field reads back with its tag, value and raw bytes, and what follows untouched |
| WireForms.FieldWrittenOut | tests/application_client/tlv.py:5-29 | a printed field is its tag, its length and its value, each tag and length in the form written out |
| WireForms.NumbersWrittenOut | tests/application_client/tlv.py:15-17 | numbers are sent in their shortest form |
| WireForms.KindWrittenOut | tests/application_client/order_request.py:17-50 | the bytes the client sends for a limit or trigger kind |
| WireForms.OrderWrittenOut | tests/application_client/order_request.py:82-93 | the bytes the client sends for an order, field by field |
| WireForms.RequestsWrittenOut | tests/application_client/bulk_modify.py:13-17 | the same for modify and cancel requests and builder information |
| WireForms.BulkOrderWrittenOut | tests/application_client/bulk_order.py:43-50 | the same for a bulk order |
| WireForms.BulkEditsWrittenOut | tests/application_client/bulk_cancel.py:25-29 | the same for bulk modifies and cancels |
| WireForms.RecordWrittenOut | tests/application_client/update_isolated_margin.py:16-21 | the same for leverage, fee, margin and abstraction |
| WireForms.ActionWrittenOut | tests/application_client/set_action.py:28-35 | the same for a whole action |
| WireForms.MetadataWrittenOut | tests/application_client/action_metadata.py:57-75 | the same for the signed part of metadata |
| Fields.OrderFields | src/order_request.c:191-332 | for all bytes: every part of an accepted order is the reading of its own field, which occurs exactly once; only the client id may be missing |
| Fields.LimitFields | src/order_request.c:8-53 | the same for a limit kind |
| Fields.TriggerFields | src/order_request.c:86-189 | the same for a trigger kind |
| Fields.KindsDiffer | src/order_request.c:263-282 | no bytes are both a limit and a trigger kind |
| Fields.BuilderFields | src/bulk_order.c:8-57 | the same for builder information |
| Fields.ModifyFields | src/bulk_modify.c:7-38 | the same for a modify request |
| Fields.CancelFields | src/bulk_cancel.c:8-41 | the same for a cancel request |
| Fields.BulkOrderFields | src/bulk_order.c:106-168 | the same for the grouping and the optional builder of a bulk order |
| Fields.LeverageFields | src/update_leverage.c:6-45 | the same for a leverage update |
| Fields.FeeFields | src/approve_builder_fee.c:7-59 | the same for a fee approval |
| Fields.MarginFields | src/update_isolated_margin.c:7-52 | the same for asset and side of a margin update |
| Fields.AbstractionFields | src/user_set_abstraction.c:7-47 | the same for an abstraction change |
| Fields.ActionFields | src/action.c:33-154 | the same for a whole action, with its two constants |
| Fields.MetadataFields | src/action_metadata.c:22-198 | the same for metadata, of which builder, margin and leverage may be missing |
| Fields.NoOtherFields | unit-tests/tlv_helpers.h:9-13 | no accepted structure holds a field whose tag it does not know |
| Tlv.RunPrinted | unit-tests/tlv_helpers.h:9-13 | printed fields with known tags, unique ones not repeated, are handed to the handlers one by one, in order |
| Tlv.RunKeeps | unit-tests/tlv_helpers.h:9-13 | what every admitted field keeps, a successful parse keeps |
| Tlv.ParseTlv | unit-tests/tlv_helpers.h:9-13 | the parser loop stops at the first malformed, unknown, repeated or refused field, and otherwise gives what the handlers built |
| Tlv.EncodeIntBE | unit-tests/tlv_helpers.h:45-78 | skipping leading zero bytes gives the shortest big-endian form |
| Bytes.ClientByteCount | tests/application_client/tlv.py:15-17 | the client's byte count from the bit length is the shortest one |
| Bytes.FromBEInvertsMinBE | tests/application_client/tlv.py:15-17 | the shortest form reads back to the number |
| Parsers.OrderPrintParse | src/order_request.c:191-332 | the client's bytes for any order parse back to that order under its asset |
| Parsers.OrderVariantMatchesType | src/order_request.c:263-282 | the parsed kind always matches the final order type, because that tag is unique and has to come first |
| Parsers.BuilderPrintParse | src/bulk_order.c:8-57 | printed builder information parses back |
| Parsers.ModifyPrintParse | src/bulk_modify.c:7-38 | a printed modify request parses back under its order's asset |
| Parsers.CancelPrintParse | src/bulk_cancel.c:8-41 | a printed cancel request parses back under its asset |
| Parsers.BulkOrderIsMap | src/bulk_order.c:90-104 | stored orders are the independent parses of the repeated fields, in order, one to five of them |
| Parsers.BulkModifyIsMap | src/bulk_modify.c:71-86 | the same for modify requests |
| Parsers.BulkCancelIsMap | src/bulk_cancel.c:75-90 | the same for cancel requests |
| BulkParsers.RequestList.Fill | src/order_request.c:324-332 | the parser run over the shared sub-context gives what a run from its contents gives |
| BulkParsers.RequestList.Handle | src/bulk_order.c:90-104 | whatever was left in the sub-context, a field is parsed on its own and appended; the sixth is refused |
| BulkParsers.ParseBulkOrderPayload | src/bulk_order.c:90-168 | the imperative parser over slots and the shared sub-context computes the specified bulk order |
| BulkParsers.ParseBulkModifyPayload | src/bulk_modify.c:71-108 | the same for bulk modifies |
| BulkParsers.ParseBulkCancelPayload | src/bulk_cancel.c:75-112 | the same for bulk cancels |
| BulkParsers.StaleContextRefuses | src/bulk_order.c:95-96 | without the wipe no order that the client prints after the first would parse |
| BulkParsers.StaleContextExact | src/bulk_order.c:95-96 | without the wipe, exactly an empty field or a first client id would still be taken, and would finish as a copy of the order before it up to its id |
| BulkParsers.WipedContextRefuses | src/bulk_order.c:95-103 | with the wipe both are refused |
| ActionParser.ParsedBodyIsSound | src/action.c:99-141 | a parsed structure is of the kind named by the type, for the metadata's asset, with no empty list |
| ActionParser.ParsedActionIsSound | src/action.c:99-154 | a parsed action has the variant of its final type tag, only the metadata's asset, and no empty list |
| ActionParser.MarginAmountFidelity | src/update_isolated_margin.c:15-23 | all 2^64 eight-byte words are accepted, the amount read gives the word back, and every amount has a word |
| MarginAmount.AmountIsFaithful | src/update_isolated_margin.c:15-100 | for every accepted structure, its one amount field of one to eight bytes, read in two's complement, is the stored amount, the last serialized token, what a decoder reads back, and what direction and magnitude on the screen stand for |
| MarginAmount.RunReadsAmount | src/update_isolated_margin.c:15-23 | a run of the parser takes at most one amount field and stores its two's-complement reading |
| ActionParser.BodyPrintParse | src/action.c:99-141 | every printed structure parses back under its type and asset |
| ActionParser.ActionPrintParse | src/action.c:33-154 | every printed action parses back to itself under the metadata's asset |
| ActionParser.PrintAction | tests/application_client/set_action.py:28-35 | a printed action has 1 to 739 bytes, so one chunked transfer holds it |
| MetadataParser.AcceptedMetadataIsSigned | src/action_metadata.c:134-198 | accepted metadata carry a signature that is valid over all their other bytes |
| MetadataParser.MetadataPrintParse | tests/application_client/action_metadata.py:57-75 | metadata printed and signed by the client parse back to themselves |
| MetadataParser.MetadataSize | tests/application_client/action_metadata.py:57-75 | printed metadata fit one chunked transfer |
| Review.Find | src/ui/common.c:34-43 | the first request that matches, or none if there is none |
| Review.Count | src/ui/common.c:45-56 | how many requests match |
| ReviewProofs.Partition | src/ui/common.c:58-68 | exclusive and exhaustive matchers split a list with nothing left over |
| ReviewProofs.OrderReviewExact | src/ui/op_order.c:137-207 | an order review is accepted if and only if the list is one limit order, at most one take-profit and at most one stop-loss that close it, in any order, and no change to cross margin comes with it |
| ReviewProofs.AcceptedOrderIsBracket | src/ui/op_order.c:161-182 | no hidden orders: an accepted list holds nothing but the shown orders, each trigger determined by the limit order, its asset and its shown price |
| ReviewProofs.OrderScreenDetermines | src/ui/op_order.c:8-135 | equal screens mean equal orders up to client ids, given the limit order's direction and a market order's price |
| ReviewProofs.DirectionIsNotShown | src/ui/common.c:70-89 | the direction is open: a buy and the reduce-only sell share a screen |
| ReviewProofs.MarketPriceIsNotShown | src/ui/op_order.c:64-95 | a market order's limit price is open |
| ReviewProofs.ModifyReviewExact | src/ui/op_modify.c:47-128 | a modify review, of edits or new triggers, is accepted if and only if the list is the shown take-profit, the shown stop-loss or both with one size, all reduce-only market closes |
| ReviewProofs.ModifyScreenDetermines | src/ui/op_modify.c:129-237 | equal screens mean equal requests up to client ids, but for the direction of a stop-loss beside a take-profit |
| ReviewProofs.StopLossDirectionIsNotShown | src/ui/op_modify.c:121-128 | that direction is open |
| ReviewProofs.CloseReviewExact | src/ui/op_close.c:8-66 | a close review is accepted if and only if the list is one reduce-only limit order |
| ReviewProofs.CloseScreenDetermines | src/ui/op_close.c:8-66 | two accepted closes share a screen if and only if they agree on direction and size; limit price, time in force and client id are open |
| ReviewProofs.GroupingAndBuilderAreNotShown | src/bulk_order.c:170-222 | no review depends on a bulk order's grouping, builder or nonce, though all three are signed |
| ReviewProofs.CancelScreenDetermines | src/ui/op_cancel.c:9-57 | equal cancel screens mean equal cancel lists |
| ReviewProofs.MagnitudeReadsBack | src/ui/op_update_margin.c:19-23 | direction and magnitude give back the amount, the most negative one included |
| ReviewProofs.MarginScreenDetermines | src/ui/op_update_margin.c:8-66 | equal margin screens mean equal side and amount |
| Screens.ReviewOpensExactly | src/ui/operation.c:68-92 | a review opens if and only if the stored actions hold what the operation reviews: a bracket without a change to cross margin, a trigger pair, a lone close, a margin update, or one or two cancels |
| Screens.OrderScreenWrittenOut | src/ui/op_order.c:8-135 | the pairs and the intent of an order review in terms of the limit order and its triggers: long for an opening buy and a reduce-only sell, the limit price unless it is a market order, each trigger's own price, the size |
| Screens.ModifyScreenWrittenOut | src/ui/op_modify.c:129-237 | the same for a modify review: the position that the triggers close, and each trigger's own price and id |
| Screens.CloseScreenWrittenOut | src/ui/op_close.c:8-66 | the same for a close review |
| Screens.CancelScreenWrittenOut | src/ui/op_cancel.c:9-134 | the same for a cancel review, and how many requests each operation takes |
| Screens.TargetWrittenOut | src/ui/op_cancel.c:67-103 | the name of a cancellation is that of its operation |
| Screens.MarginScreenWrittenOut | src/ui/op_update_margin.c:8-66 | the same for a margin review: side, amount without sign, and whether it is taken away |
| Screens.OpeningWrittenOut | src/ui/operation.c:58-66 | every screen opens with the protocol, and with a notice exactly on the test network |
| ReviewUi.UiContext.ShowMetadataMargin | src/ui/common.c:6-20 | appends the margin pair if the metadata have a margin |
| ReviewUi.UiContext.ShowMetadataLeverage | src/ui/common.c:22-32 | appends the leverage pair if the metadata have a leverage |
| ReviewUi.UiContext.ShowCancelOids | src/ui/op_cancel.c:9-18 | appends one pair for each cancelled order |
| ReviewUi.UiContext.UiOrderCommon | src/ui/op_order.c:8-62 | appends the pairs market and limit reviews share, or refuses cross margin |
| ReviewUi.UiContext.UiOrder | src/ui/op_order.c:137-207 | accepts exactly as specified and shows exactly the specified pairs |
| ReviewUi.UiContext.CheckModify | src/ui/op_modify.c:62-128 | the search and count checks decide exactly the specified acceptance |
| ReviewUi.UiContext.UiModify | src/ui/op_modify.c:47-237 | accepts exactly as specified and shows exactly the specified pairs |
| ReviewUi.UiContext.UiCancel | src/ui/op_cancel.c:20-134 | accepts one cancel, or two for TP and SL, and shows their ids |
| ReviewUi.UiContext.UiClose | src/ui/op_close.c:8-66 | accepts one reduce-only limit order and shows its position |
| ReviewUi.UiContext.UiUpdateMargin | src/ui/op_update_margin.c:8-66 | shows side and magnitude |
| ReviewUi.UiContext.HandleUi | src/ui/operation.c:48-105 | the pairs written into the sixteen slots are the specified screen, and a review opens exactly when there is one |

## Left out

- User interface: screens, menus, texts, number formatting and intent sentences; a screen is the list of its values.
  The status page after an approval, which says "signed" whenever the call did not return -1, is not modelled.
- Cryptography: Keccak and signing are total functions, SHA-256 and the PKI check one predicate over the hashed fields
  and the signature, address derivation one function of the path. Failures are one flag for each request, not one for
  each library call.
- The SDK's TLV library is not part of the repository. Assumed of it: integers of 1 to 8 bytes within the range of
  their type, booleans 0 or 1, strings of 1 to the stated number of non-NUL bytes, unknown tags and repeated unique
  tags refused, truncated fields refused, lengths and tags in the definite forms of sections 8.1.3.4, 8.1.3.5 and
  10.1 of ITU-T X.690 with one to four length bytes, not necessarily the shortest.
- The cmp library is not part of the repository. Its writes are taken from the MessagePack specification: the smallest
  form of "int format family", "str format family", "array format family" and "map format family".
- bip32_path_read is not part of the repository: taken to read 1 to 10 big-endian 4-byte indices and to refuse any
  other count or too little data.
- Parser contexts other than the bulk ones are draft values passed from handler to handler, not structures written
  through pointers; "tag received" is "field of the draft filled". Received-tag checks and value checks are the code's.
- A client order id is kept as its 16 bytes; the text the code stores is produced where it is written.
- Handlers of chunked payloads are told apart by an enumeration instead of function pointers, and the buffer is wiped
  before the handler runs instead of after it, which no handler can see.
- Writer pairs: where the code makes two writes and checks each, a helper method makes both; the order is the same.
- GET_ADDRESS, the other instruction and parameter checks of the dispatcher, status words, NVM and debug output.
- Session.SignAction: a signature counts as released even when sending it fails, which errs on the side of more
  released signatures.

# A verified model of the node

This project models the parts of the Rust Nano/Banano node that carry its hardest guarantees and proves them in Dafny:
cementing of blocks, representative weights, the wire protocol, the node id handshake, connection admission, pruning and
the block store. `dafny verify dfyconfig.toml` checks everything.

Code that works on values is modelled by functions and lemmas. Code that updates state is modelled by classes and methods
with loops, and every such method is proved equal to a function of the old state or against the property itself. What the
node draws at random, reads from a clock, receives from the network or is told by code outside the model is a parameter.

## What is proved

**Cementing** (`LedgerState`, `Cementing`, `ConfirmBatch`). `BlockCementer::confirm` walks the dependencies of a block with
a stack that forgets its bottom when it gets too large, while at every transaction refresh other writers insert blocks, roll
back unconfirmed ones and prune confirmed ones. Every cementing step raises one height by one, keeps the confirmed set closed
under dependencies, the frontiers right and the count equal to the sum of all heights. For every acyclic block graph and
every limit the walk ends and never looks up a missing block: a confirmed block that is still on the stack is the frontier
of its account, because `previous` is pushed before `link`, so it cannot have been pruned. The walk returns exactly the newly
confirmed blocks in dependency order, at most as many as the limit, and at least one if the target is unconfirmed. With N
unconfirmed blocks up to the target, one call confirms the target whenever the limit is at least 2N - 1. `confirm_batch`
reports every newly confirmed block exactly once, dependencies first, next to a root that needed it, and confirms every root
or reports it as failed. This holds whatever happens to all other blocks, as long as the roots themselves are not taken out
and put back for ever; writers that do so keep the loop busy for any number of rounds.

**Counters and weights** (`RepWeights`, `Loading`, `WeightLoading`). The weight cache is exactly the weight table cut at the
minimum, after any sequence of updates; moving weight conserves the total; block insertion keeps the table equal to the sum
of the delegated balances. The key ranges of parallel loading partition the key space, so counters are exact for any number
of threads in any order. Loaded weights are not: `copy_from` cuts every partial sum at the minimum. The exact condition
under which nothing is lost is proved, and for every minimum above 1 a ledger of two accounts whose weight is lost.

**Account text** (`AccountText`). Decoding undoes encoding for every account and every checksum function. An accepted text
has the tail that encoding would produce if and only if that tail has 60 characters. The prefixes of accounts enforce this;
`node_` does not, so the same id has several accepted texts.

**Wire protocol** (`Bytes`, `Messages`, `Codec`, `StreamParser`, `Deserializer`). A message that the constructors accept
(`Buildable`) has the payload length that its header announces and is read back unchanged if and only if it is `Readable`:
a request for confirmations is not empty and asks for no pair of zeros, a list of frontiers has at most 1000 entries and no
null frontier, telemetry has at most 821 unknown bytes, and a handshake announces the version of its response. The stream
parser gives the same messages, errors and final state however the bytes are cut into chunks, keeps less than one message
back, and reads the concatenated encodings of such messages as exactly these messages, duplicates reported as such. The size
limit of `validate_header` can never be exceeded by a 16 bit extension field, so `MessageSizeTooBig` is never reported.

**Handshake** (`SynCookies`, `HandshakeProcess`, `DataReceiver`, `HonestNodes`). Every cookie ever issued is live, taken or
dropped, and never two of these. Over every run of any number of channels that share their cookies, against any peers: a
channel is realtime only with evidence, namely a response that verifies under the recorded node id and signs a cookie that
was issued to that address and taken out of the table for this; no cookie proves two channels; nothing is passed on before
that; at most one query is answered; the cookie counters equal the live cookies and never go below zero. What a realtime
channel passes on is exactly what the parser made of all received bytes, in order and each message once, across every pause
and retry. Two honest nodes reach realtime on both sides under every schedule of sends, deliveries and polls: eight steps,
of which one is always possible until both are upgraded by their networks, with all cookies used up. A reply is well formed
if and only if the query was of version 2 or no cookie was free for a query of one's own: a version 1 query with a free slot
gets a reply that is announced as version 2 and carries a version 1 response.

**Connections** (`TokenBucket`, `PeerExclusion`, `Attempts`, `Network`). The token bucket hands out at most its capacity plus
what was earned plus one token, none extra from the first call, and the extra token is real. The two indices of excluded
peers, and the three of connection attempts, describe the same entries in every reachable state. In every reachable state of
the network the live channels per direction, per IPv4 address and per IPv6 subnetwork are within their limits, no two live
outbound channels lead to the same endpoint, and channel ids are new. The limit per address does not cover IPv6: the check
compares a plain address with the /48 networks of the channels. An admitted channel keeps its group within the limit if and
only if its address stands for its group or the group had room, and two IPv6 channels of one group are admitted with a limit
of one. Purging attempts removes exactly those that timed out if and only if none is from the future or one is still running.

**Pruning and storage** (`PruneSteps`, `Pruning`, `BlockStore`). Pruning moves hashes from the stored to the pruned blocks,
keeps the ledger well formed, the confirmation frontiers stored, the pruned count exact and the pruned part of every chain
closed downwards. Other writers insert, roll back and confirm blocks between two transactions, in the middle of a chain that
is read and in the middle of a chain that is pruned. Unless it gets stuck at the highest account number, a pass ends. It
prunes only blocks at or below targets that were read; if it is not stopped it has done every target that it read and leaves
nothing below a frontier that was deep enough or old enough to be pruned when it began. If nobody else writes, it prunes
exactly the blocks at or below the targets, except for the genesis block. The index and data tables of the block store are one map from hashes to blocks;
byte order of ids is number order, so appending is always legal, also after the store was opened again.

## Where the code and its promises differ

- Tests and comments speak of `nano_` addresses and of network codes that begin with 0x52. The code writes `ban_` and uses
  codes that begin with 0x42. The model follows the code.
- The loop of `confirm_batch` over one root ends if from some moment on, `quiet`, other writers either leave the root alone
  or do not put it back (`Settles`); what they do to other blocks does not matter. `Stuck` gives writers for which it does not
  end. A root that was pruned meanwhile is reported as failed.
- `SynCookies::validate` accepts any signature if there is no cookie for the endpoint. The handshake does not use it.
- An empty slot of the duplicate filter looks like digest zero until the first epoch has aged.
- A clock that goes backwards gives a negative duration, which reads as a huge one: an attempt from the future is purged,
  but only if no attempt that began earlier is still running.
- `inc_or_max` never yields zero, so a pruning pass that reaches the highest of all account numbers, with enough blocks to
  read there, never ends: `StuckAtLast`. A pass ends if no state that can come about has that many (`LastOk`, with conditions
  that can be checked before the pass in `LastIsOk`).
- An expired peer that is forgotten starts again at score 1: misbehaving again excludes it for a shorter time than a
  remembered one.
- A failed `add_outbound_attempt` also forgets an attempt for the same peer that was there before.

## Model

| member | source | states |
|---|---|---|
| `LedgerState.CementRaisesByOne` | ledger/src/block_cementer.rs:62-75 | only the next block of an account can be cemented: its height is one above the confirmed height |
| `LedgerState.CementConfirms` | ledger/src/block_cementer.rs:62-75 | cementing a block with confirmed dependencies confirms that block and nothing else |
| `LedgerState.CementCount` | ledger/src/block_cementer.rs:72-76 | the confirmed count stays equal to the sum of all confirmation heights |
| `LedgerState.CementKeepsWF` | ledger/src/block_cementer.rs:40-89 | a cementing step keeps closure under dependencies, one block per height, frontiers equal to the block at their height, and the count |
| `LedgerState.DependenciesKnown` | ledger/src/block_cementer.rs:91-98 | while a block is known, so is everything it depended on that was unconfirmed, whatever other writers did |
| `LedgerState.PreviousStored` | ledger/src/block_cementer.rs:40-49 | the previous block of an unconfirmed block is stored: if it is confirmed it is a frontier, and frontiers are not pruned |
| `Cementing.TraceCement` | ledger/src/block_cementer.rs:62-86 | appending a cemented block keeps the result a list of exactly the newly confirmed blocks, each once, dependencies first |
| `Cementing.ExpandTop` | ledger/src/block_cementer.rs:43-60 | after pushing dependencies the top is unchanged if and only if all are confirmed, otherwise an unconfirmed one is on top; the stack never exceeds the limit |
| `Cementing.ExpandedFits` | ledger/src/block_cementer.rs:52-60 | with a limit of at least 2N - 1 the bottom of the stack is never forgotten |
| `Cementing.ExpandedPush` | ledger/src/block_cementer.rs:43-60 | pushing keeps the structure of the stack: ranks fall above expanded entries, which have their unconfirmed dependencies above them |
| `Cementing.HeldPush` | ledger/src/block_cementer.rs:43-60 | pushing keeps every confirmed stack entry below an unconfirmed block whose previous block it is |
| `Cementing.HeldPop` | ledger/src/block_cementer.rs:62-89 | so does taking a block off the stack |
| `Cementing.HeldStored` | ledger/src/block_cementer.rs:40-42 | every stack entry is stored when it is looked up, also after other writers have pruned |
| `Cementing.WalkPush` | ledger/src/block_cementer.rs:43-60 | a round that pushes keeps the loop invariant and puts an unconfirmed block of lower rank on top |
| `Cementing.WalkCement` | ledger/src/block_cementer.rs:62-86 | a round that cements keeps the loop invariant and never cements more than the unconfirmed dependencies |
| `Cementing.WalkInterference` | ledger/src/block_cementer.rs:91-98 | after a refresh, pruning included, it is enough to check that the target exists: every stack entry is still stored |
| `Cementing.WalkDone` | ledger/src/block_cementer.rs:38-105 | when the limit is large enough the walk ends with the target confirmed |
| `Cementing.Ledger.RefreshIfNeeded` | ledger/src/block_cementer.rs:91-93 | a refresh lets other writers insert, roll back and prune; it neither confirms nor unconfirms anything |
| `Cementing.Ledger.PushDependents` | ledger/src/block_cementer.rs:43-60 | the loop over the dependencies computes the stack that the lemmas speak of |
| `Cementing.Ledger.VisitTop` | ledger/src/block_cementer.rs:40-89 | one round of the loop keeps the invariant and makes progress |
| `Cementing.Ledger.Confirm` | ledger/src/block_cementer.rs:30-105 | under any writers: termination, the exact result in dependency order, the limit, progress, and one call being enough from 2N - 1 on; a target that is gone at the first refresh leaves nothing confirmed |
| `ConfirmBatch.UnconfirmedShrinks` | ledger/src/ledger.rs:756-825 | confirming more leaves fewer blocks to confirm, which is why the loop over a root ends |
| `ConfirmBatch.TraceShrinks` | ledger/src/ledger.rs:756-825 | a call that confirms a dependency of the root makes the set of those left strictly smaller |
| `ConfirmBatch.LabelTruthful` | ledger/src/ledger.rs:787-799 | the root next to a reported block is one of the batch that needed the block to be confirmed |
| `ConfirmBatch.Notify` | ledger/src/ledger.rs:758-775 | a full buffer is reported as a whole and emptied, and nothing is lost when the node is stopped |
| `ConfirmBatch.ConfirmRoot` | ledger/src/ledger.rs:756-825 | unless the root is taken out and put back for ever: it ends up confirmed, or was not stored any more, or the node was stopped |
| `ConfirmBatch.TogglingNeverSettles` | ledger/src/ledger.rs:756-825 | writers that take a root out and put it back for ever |
| `ConfirmBatch.Stuck` | ledger/src/ledger.rs:756-825 | for every ledger in which a root waits for a dependency these writers keep any number of rounds from confirming anything |
| `ConfirmBatch.ConfirmBatch` | ledger/src/ledger.rs:742-844 | the reports together list every newly confirmed block exactly once, dependencies first and truthfully labelled, in batches of 1 to 2 * max - 1; every root is confirmed or reported as failed |
| `RepWeights.AgreesPut` | ledger/src/rep_weights_updater.rs:54-81 | writing the same weight to table and cache keeps the cache equal to the table cut at the minimum |
| `RepWeights.AddedTotal` | ledger/src/rep_weights_updater.rs:41-52 | adding to one representative adds to the total, up to one wrap-around |
| `RepWeights.OppositeAmountsConserve` | ledger/src/rep_weights_updater.rs:89-110 | moving weight between any two representatives conserves the total modulo 2^128 |
| `RepWeights.AddedTwice` | ledger/src/rep_weights_updater.rs:107-109 | two amounts for one representative are one wrapped sum |
| `RepWeights.AddedElsewhere` | ledger/src/rep_weights_updater.rs:97-106 | updates of different representatives commute and do not touch each other |
| `RepWeights.RepWeightsUpdater.RepresentationAdd` | ledger/src/rep_weights_updater.rs:41-52 | the new table, and the cache still in agreement with it |
| `RepWeights.RepWeightsUpdater.RepresentationAddDual` | ledger/src/rep_weights_updater.rs:89-110 | both amounts are added in either branch, equal representatives included, and the cache agrees |
| `RepWeights.RepWeightsUpdater.UpdateAll` | ledger/src/rep_weights_updater.rs:41-110 | after any sequence of updates the cache agrees with the table |
| `RepWeights.RepWeightsUpdater.CopyFrom` | ledger/src/rep_weights_updater.rs:29-35 | the cache after merging one thread's weights, cut at the minimum, in whatever order the rows come |
| `Loading.SplitsContiguous` | store_lmdb/src/lib.rs:50-69 | the key ranges of the threads follow each other without gap from the first key to the last |
| `Loading.SplitsPartition` | store_lmdb/src/lib.rs:50-69 | every key belongs to the range of exactly one thread |
| `Loading.SumAllParts` | store_lmdb/src/lib.rs:55-84 | the sums of the threads add up to the sum over the whole table |
| `Loading.SumReordered` | store_lmdb/src/lib.rs:71-84 | the order in which threads finish does not matter |
| `Loading.MergedCount` | ledger/src/ledger.rs:295-308 | a counter fed by all threads, in any order, is the sum over the whole table |
| `Loading.LoadConfirmedCount` | ledger/src/ledger.rs:295-308 | the count at start-up is the sum of all heights, the value that cementing keeps |
| `WeightLoading.InsertKeepsTable` | ledger/src/block_insertion/block_inserter.rs:109-128 | block insertion keeps the weight table equal to the delegated balances |
| `WeightLoading.Collect` | ledger/src/ledger.rs:270-281 | one thread's map holds for every representative the sum of its rows |
| `WeightLoading.MergedExact` | ledger/src/rep_weights_updater.rs:29-35 | a loaded weight is never too large; it is right if and only if the first nonzero part reaches the minimum or the whole does not |
| `WeightLoading.SplitWeightIsLost` | ledger/src/ledger.rs:265-293 | for any minimum above 1: two accounts, two threads and an order in which a delegated weight that reaches the minimum is loaded as nothing |
| `WeightLoading.LoadPart` | ledger/src/ledger.rs:265-293 | what one thread adds to the cache |
| `WeightLoading.LoadWeights` | ledger/src/ledger.rs:265-293 | the cache after loading with any number of threads in any order; without a minimum it is the cache of the running node |
| `WeightLoading.LoadedExact` | ledger/src/ledger.rs:265-293 | for every representative, when the loaded weight equals the delegated weight cut at the minimum |
| `AccountText.TablesInverse` | core/src/account.rs:14-29 | the two lookup tables are inverse on all 32 digits |
| `AccountText.TablesInverseBack` | core/src/account.rs:14-29 | every accepted character is the image of the digit it decodes to |
| `AccountText.EncodeAccount` | core/src/account.rs:90-118 | the loop produces the prefix and the 60 base-32 digits of account and checksum |
| `AccountText.DecodeAccount` | core/src/account.rs:122-241 | the loop computes the decoding function: prefix, length and first digit checks, 512 bit wrap-around, checksum check |
| `AccountText.DecodeEncoded` | core/src/account.rs:90-241 | decoding an encoded account gives the account, for every account and checksum function |
| `AccountText.AcceptedTail` | core/src/account.rs:122-241 | an accepted text has the canonical tail if and only if its tail has 60 characters, as behind all account prefixes |
| `AccountText.NodeIdTailAmbiguous` | core/src/account.rs:122-241 | with the prefix of node ids a leading zero digit is accepted and ignored |
| `Bytes.LittleEndianReads` | messages/src/message_header.rs:131-178 | little-endian integers are read back |
| `Bytes.BigEndianReads` | messages/src/asc_pull_ack.rs:46-120 | big-endian integers are read back |
| `Messages.CountFieldsDisjoint` | messages/src/confirm_req.rs:119-164 | the bits of the version 2 count do not overlap with flags or block type |
| `Messages.CountReads` | messages/src/confirm_req.rs:66-164 | any count from 0 to 255 is read back from its extension bits, next to any flag and block type bits |
| `Messages.ReadPairsWritten` | messages/src/confirm_req.rs:78-97 | a list of roots and hashes is read back, unless a pair of zeros is in it |
| `Messages.ReadFrontiersWritten` | messages/src/asc_pull_ack.rs:224-256 | a terminated list of frontiers is read back if and only if it is not too long and has no null frontier |
| `Messages.ReadBlocksWritten` | messages/src/asc_pull_ack.rs:181-200 | a terminated list of blocks is read back, also at its maximum length |
| `Codec.ReadVoteWritten` | messages/src/confirm_ack.rs:61-95 | a vote with any number of hashes up to the limit is read back |
| `Codec.HandshakeSizeExact` | messages/src/node_id_handshake.rs:190-279 | the announced size is the written size if and only if the version 2 flag matches the response |
| `Codec.ReadHandshakeWritten` | messages/src/node_id_handshake.rs:190-279 | a well-formed handshake is read back from its flags and bytes |
| `Codec.ReadTelemetryWritten` | messages/src/telemetry_ack.rs:250-291 | telemetry, absent or with unknown trailing data, is read back and its masked size is right |
| `Codec.TelemetrySizeExact` | messages/src/telemetry_ack.rs:250-291 | the announced size is the written size if and only if the unknown data fits the size mask |
| `Codec.DeserializeHashes` | messages/src/confirm_ack.rs:66-89 | the reading loop computes the specified hashes |
| `Codec.DeserializeRoots` | messages/src/confirm_req.rs:78-97 | the reading loop computes the specified pairs |
| `Codec.DeserializeFrontiers` | messages/src/asc_pull_ack.rs:224-244 | the reading loop stops at the terminator and computes the specified frontiers |
| `Codec.DeserializeBlocks` | messages/src/asc_pull_ack.rs:181-191 | the reading loop stops at the terminator and computes the specified blocks |
| `Codec.ReadAckWritten` | messages/src/asc_pull_ack.rs:46-120 | an acknowledgement is read back if and only if its frontiers are few enough and none is null |
| `Codec.ReadReqWritten` | messages/src/asc_pull_req.rs:206-263 | all three kinds of requests are read back |
| `Codec.ReadBulkPullWritten` | messages/src/bulk_pull.rs:33-100 | the optional count is announced by its flag and read back |
| `Codec.ReadConfirmAckWritten` | messages/src/confirm_ack.rs:61-104 | the count bits and the rebroadcast flag share the extension field without disturbing each other |
| `Codec.ReadConfirmReqWritten` | messages/src/confirm_req.rs:66-227 | the count bits and the block type share the extension field; a request survives if and only if it is not empty and has no pair of zeros |
| `Codec.MessageRoundTrip` | messages/src/message.rs:157-213 | for every message that can be built: the header announces exactly the bytes written and reading them gives the message back, if and only if the message is readable |
| `StreamParser.HeaderRoundTrip` | messages/src/message_header.rs:131-178 | a header is read back |
| `StreamParser.NeverTooBig` | messages/src/message.rs:223-238 | no header announces more than 65544 bytes, so no message is rejected for its size; a header is accepted if and only if network, version and type are right |
| `StreamParser.TryShrinks` | messages/src/message_deserializer.rs:40-105 | every message or error uses up input |
| `StreamParser.MoreDataLater` | messages/src/message_deserializer.rs:40-131 | more data behind a message changes neither the message nor what is left over |
| `StreamParser.IdleIsTransparent` | messages/src/message_deserializer.rs:49-90 | remembering a header is the same as reading it again |
| `StreamParser.DrainSplit` | messages/src/message_deserializer.rs:36-131 | draining between two pushes is the same as draining once |
| `StreamParser.ChunkIndependence` | messages/src/message_deserializer.rs:36-131 | for any bytes and any cutting into chunks: the same messages, errors, filter and final state |
| `StreamParser.Residue` | messages/src/message_deserializer.rs:36-90 | what is kept back is less than a header, or less than the awaited payload, which is within the limit |
| `StreamParser.ReadsEncoded` | messages/src/message_serializer.rs:26-41 | an encoded message is read back from the front of any buffer |
| `StreamParser.StreamRoundTrip` | messages/src/message_serializer.rs:26-41 | the encodings of any readable messages are parsed as exactly those messages, with duplicates reported |
| `StreamParser.ChunkedRoundTrip` | messages/src/message_deserializer.rs:36-131 | the same, cut into any chunks |
| `Deserializer.ApplyRemembers` | messages/src/network_filter.rs:38-66 | a slot knows the digest applied last, and other slots do not change |
| `Deserializer.FilterHistory` | messages/src/network_filter.rs:38-66 | over any sequence of digests: a duplicate is reported exactly if its slot saw it last |
| `Deserializer.ClearForgets` | messages/src/network_filter.rs:81-107 | a cleared digest is forgotten, except for digest zero in the first epochs |
| `Deserializer.NetworkFilter.ApplyDigest` | messages/src/network_filter.rs:54-66 | the answer and the new slots |
| `Deserializer.NetworkFilter.Clear` | messages/src/network_filter.rs:81-107 | the slots after clearing |
| `Deserializer.MessageDeserializer.Push` | messages/src/message_deserializer.rs:36-38 | data is appended to the buffer |
| `Deserializer.MessageDeserializer.FilterDuplicates` | messages/src/message_deserializer.rs:108-131 | the digest or the duplicate error, and the new filter |
| `Deserializer.MessageDeserializer.TryPayload` | messages/src/message_deserializer.rs:79-105 | the outcome and the whole new state |
| `Deserializer.MessageDeserializer.TryDeserialize` | messages/src/message_deserializer.rs:40-77 | the outcome and the whole new state |
| `Deserializer.MessageDeserializer.Receive` | network_protocol/src/nano_data_receiver.rs:302-304 | the loop over the deserializer drains it completely |
| `Deserializer.MessageSerializer.Serialize` | messages/src/message_serializer.rs:26-41 | writing the payload first and the header in front of it leaves the encoding in the reused buffer |
| `SynCookies.AssignedCounted` | network_protocol/src/syn_cookies.rs:35-59 | assigning keeps the counters equal to the live cookies and within the limit |
| `SynCookies.RemovedCounted` | network_protocol/src/syn_cookies.rs:98-106 | removing a live cookie never meets a counter of zero and keeps the counters exact |
| `SynCookies.IssueOk` | network_protocol/src/syn_cookies.rs:35-59 | issuing a cookie gives it a number that was never used, and keeps the books |
| `SynCookies.TakeOk` | network_protocol/src/syn_cookies.rs:78-106 | taking and dropping a cookie keep the books: issued is live, taken and dropped, without overlap |
| `SynCookies.TakenIsGone` | network_protocol/src/syn_cookies.rs:98-106 | a taken cookie was issued, is not live any more and never will be |
| `SynCookies.SynCookies.Assign` | network_protocol/src/syn_cookies.rs:35-59 | at most one cookie per endpoint and a bounded number per address |
| `SynCookies.SynCookies.Cookie` | network_protocol/src/syn_cookies.rs:98-106 | the cookie is handed out once, was issued to this endpoint and is booked as taken |
| `SynCookies.SynCookies.Validate` | network_protocol/src/syn_cookies.rs:62-76 | a good signature uses the cookie up; without a cookie everything is accepted |
| `SynCookies.SynCookies.Purge` | network_protocol/src/syn_cookies.rs:78-96 | exactly the cookies older than the cutoff go, and the counters stay exact |
| `SynCookies.SynCookies.Forget` | network_protocol/src/syn_cookies.rs:78-96 | a dropped cookie is gone from both tables and does not count as taken |
| `SynCookies.SynCookies.DecCookieCount` | network_protocol/src/syn_cookies.rs:153-161 | one less, with no caller at zero |
| `HandshakeProcess.AcceptedIsVerified` | network_protocol/src/handshake_process.rs:52-147 | a node id is accepted if and only if it is not one's own, the genesis matches and the response signs the cookie that waits for this peer, which is used up |
| `HandshakeProcess.OneReply` | network_protocol/src/handshake_process.rs:52-103 | over any run at most one query is answered |
| `HandshakeProcess.ReplyReadable` | network_protocol/src/handshake_process.rs:105-119 | a reply is well formed if and only if the query was of version 2 or no query of one's own is sent along |
| `HandshakeProcess.ReplyWellFormed` | network_protocol/src/handshake_process.rs:52-119 | the same seen before the call: the query is of version 2, the peer has a cookie already, or its address has no free slot |
| `HandshakeProcess.HandshakeProcess.InitiateHandshake` | network_protocol/src/handshake_process.rs:39-50 | a query with a fresh cookie, or nothing if no cookie is free |
| `HandshakeProcess.HandshakeProcess.VerifyResponse` | network_protocol/src/handshake_process.rs:121-147 | the first failing check, what happens to the cookie, and the number of the cookie that proves the node id, taken just now |
| `HandshakeProcess.HandshakeProcess.ProcessHandshake` | network_protocol/src/handshake_process.rs:52-103 | result and new state, and the cookie issued to this peer and taken just now that a verified node id signed |
| `DataReceiver.ParsedPush` | network_protocol/src/nano_data_receiver.rs:302-304 | new bytes do not change what has been read from the earlier ones |
| `DataReceiver.ParsedTry` | network_protocol/src/nano_data_receiver.rs:304-347 | what has been handled is what the parser makes of all bytes so far, one outcome more with every step |
| `DataReceiver.DeliveredMore` | network_protocol/src/nano_data_receiver.rs:97-106 | handling an outcome keeps what was passed on, and what waits for a retry, equal to the passable messages in order |
| `DataReceiver.DeliveredAll` | network_protocol/src/nano_data_receiver.rs:353-395 | a retry that succeeds leaves nothing waiting |
| `DataReceiver.SafeInGrows` | network_protocol/src/nano_data_receiver.rs:57-395 | what other channels do with the shared cookies keeps a channel safe |
| `DataReceiver.NanoDataReceiver.EnsureHandshake` | network_protocol/src/nano_data_receiver.rs:57-95 | an outbound channel starts with a query or is closed |
| `DataReceiver.NanoDataReceiver.QueueRealtime` | network_protocol/src/nano_data_receiver.rs:97-106 | the message is passed on, or kept for a retry |
| `DataReceiver.NanoDataReceiver.ProcessHandshake` | network_protocol/src/nano_data_receiver.rs:202-291 | a pause means a proven node id; the reply is queued or the channel aborted |
| `DataReceiver.NanoDataReceiver.ProcessFirst` | network_protocol/src/nano_data_receiver.rs:182-291 | before the upgrade anything but a handshake aborts the channel |
| `DataReceiver.NanoDataReceiver.ProcessMessage` | network_protocol/src/nano_data_receiver.rs:182-298 | before the upgrade only handshakes count; afterwards messages are passed on or kept for a retry |
| `DataReceiver.NanoDataReceiver.Handle` | network_protocol/src/nano_data_receiver.rs:304-347 | delivery stays exact and in order; a realtime channel stops at exactly the outcomes that are to stop it |
| `DataReceiver.NanoDataReceiver.Receive` | network_protocol/src/nano_data_receiver.rs:302-351 | bytes are parsed and handled in order; a stop leaves the rest in the buffer, and without a stop nothing more can be read |
| `DataReceiver.NanoDataReceiver.TryUpgrade` | network_protocol/src/nano_data_receiver.rs:353-380 | the upgrade waits for the last handshake to be sent and keeps the proven node id |
| `DataReceiver.NanoDataReceiver.Retry` | network_protocol/src/nano_data_receiver.rs:380-395 | the kept message, and no other, is passed on by a retry that succeeds |
| `DataReceiver.NanoDataReceiver.SendOne` | network_protocol/src/nano_data_receiver.rs:357-365 | one queued handshake is sent; nothing else changes |
| `DataReceiver.NanoDataReceiver.TryUnpause` | network_protocol/src/nano_data_receiver.rs:353-395 | upgrade or retry, with delivery exact and in order across both |
| `DataReceiver.DataStep` | network_protocol/src/nano_data_receiver.rs:302-351 | data on one channel keeps all channels safe and in order and no cookie proving two of them |
| `DataReceiver.PollStep` | network_protocol/src/nano_data_receiver.rs:353-395 | so does polling a paused channel |
| `DataReceiver.SendStep` | network_protocol/src/nano_data_receiver.rs:357-365 | so does sending |
| `DataReceiver.CookieStep` | network_protocol/src/syn_cookies.rs:35-106 | so does any use of the shared cookies by others |
| `DataReceiver.Run` | network_protocol/src/nano_data_receiver.rs:57-395 | over every run of any number of channels: realtime only with evidence whose cookie was taken for it, no cookie proving two channels, nothing passed on before, at most one answer, exact counters, exact delivery in order |
| `HonestNodes.FirstReply` | network_protocol/src/handshake_process.rs:52-119 | the answer to a query signs its cookie and carries a query of its own |
| `HonestNodes.SecondReply` | network_protocol/src/handshake_process.rs:52-147 | the answer is verified and answered in turn, and its cookie is used up |
| `HonestNodes.LastReply` | network_protocol/src/handshake_process.rs:52-147 | the last message verifies the other side and uses up the last cookie |
| `HonestNodes.Pair.constructor` | network_protocol/src/nano_data_receiver.rs:57-95 | two idle channels and a query on its way |
| `HonestNodes.Pair.NotStuck` | network_protocol/src/nano_data_receiver.rs:57-395 | until both sides are realtime some step is possible |
| `HonestNodes.Pair.Step` | network_protocol/src/nano_data_receiver.rs:57-395 | a possible step brings the handshake forward by one, any other one changes nothing |
| `HonestNodes.Pair.Run` | network_protocol/src/nano_data_receiver.rs:57-395 | under every schedule: never closed, at most eight steps, and after eight both sides are upgraded by their networks, each with the node id of the other, and no cookie is left over |
| `Clock.Elapsed` | nullables/clock/src/steady_clock.rs:103-105 | never more than the real time between two timestamps in order, and exactly that below 2^64 nanoseconds |
| `TokenBucket.TokenBucket.ResetWith` | network/src/token_bucket.rs:86-98 | a full bucket, unlimited if a number is zero |
| `TokenBucket.TokenBucket.Refill` | network/src/token_bucket.rs:110-124 | the new state |
| `TokenBucket.TokenBucket.TryConsume` | network/src/token_bucket.rs:60-74 | the new state and what was granted |
| `TokenBucket.ConsumedHolds` | network/src/token_bucket.rs:60-74 | a call hands out no more than the bucket held, and leaves less than one token's worth of unused time |
| `TokenBucket.Conserved` | network/src/token_bucket.rs:60-124 | over any run, what was handed out and what is held never exceeds what was held before and what was earned since |
| `TokenBucket.RateLimit` | network/src/token_bucket.rs:60-124 | after any call: at most the capacity, the earned tokens and one more |
| `TokenBucket.RateLimitFromStart` | network/src/token_bucket.rs:60-124 | counted from the first call: at most the capacity and the earned tokens |
| `TokenBucket.ExtraTokenIsReal` | network/src/token_bucket.rs:110-124 | a run from a new bucket that needs the extra token |
| `TokenBucket.GrantedAfterWait` | network/src/token_bucket.rs:60-124 | after any call a request within the capacity is granted once its tokens could be earned |
| `TokenBucket.UnlimitedGrantsAll` | network/src/token_bucket.rs:60-98 | without a limit every request of every run is granted |
| `TokenBucket.SmallestSize` | network/src/token_bucket.rs:70-71 | the recorded minimum is the least size after any call of the run |
| `TokenBucket.SentinelEmpties` | network/src/token_bucket.rs:63-68 | a request for the sentinel amount empties the bucket |
| `PeerExclusion.EvictOne` | network/src/peer_exclusion.rs:103-108 | dropping a peer with the earliest end keeps those with the latest |
| `PeerExclusion.PeerExclusion.Pop` | network/src/peer_exclusion.rs:185-192 | a peer with the earliest exclusion end; no unwrap fails and the indices stay inverse |
| `PeerExclusion.PeerExclusion.CleanOldPeers` | network/src/peer_exclusion.rs:103-108 | exactly as many peers as needed go, and only those whose exclusion ends first |
| `PeerExclusion.PeerExclusion.Insert` | network/src/peer_exclusion.rs:110-114 | both indices hold the new peer, within the size limit |
| `PeerExclusion.PeerExclusion.Worsen` | network/src/peer_exclusion.rs:38-45 | a known peer moves to its new date in both indices |
| `PeerExclusion.PeerExclusion.PeerMisbehaved` | network/src/peer_exclusion.rs:37-52 | the new score, the new entry, who was evicted, and the invariant of every reachable state with at most max(2, max_size) peers |
| `PeerExclusion.PeerExclusion.PermaBan` | network/src/peer_exclusion.rs:55-57 | one more permanent ban |
| `PeerExclusion.PeerExclusion.Remove` | network/src/peer_exclusion.rs:91-96 | the peer is gone from both indices |
| `PeerExclusion.PeerExclusion.CheckExcluded` | network/src/peer_exclusion.rs:76-89 | excluded if and only if banned or with a high enough score before its end; an expired peer is forgotten |
| `PeerExclusion.ForgettingMatters` | network/src/peer_exclusion.rs:143-175 | an expired peer is never excluded again without a new offence; after one, the forgotten and the remembered peer are treated alike if and only if the longer exclusion is over |
| `PeerExclusion.ExcludedSpan` | network/src/peer_exclusion.rs:143-171 | the first offence excludes nobody, the second for one hour, the n-th for 2n hours |
| `PeerExclusion.ExclusionEndGrows` | network/src/peer_exclusion.rs:157-167 | for every score: misbehaving again never shortens an exclusion, if and only if the new score is no multiple of 2^31 |
| `Attempts.CutDrops` | network/src/attempt_container.rs:64-80 | dropping a list of one without looking at it is right, because the index is exact |
| `Attempts.PurgeIsExact` | network/src/attempt_container.rs:102-118 | purging concerns exactly the outbound attempts at or past the timeout, if and only if none is from the future or one is still running |
| `Attempts.AttemptContainer.Insert` | network/src/attempt_container.rs:41-62 | all three indices hold the attempt, unless the endpoint was there |
| `Attempts.AttemptContainer.Remove` | network/src/attempt_container.rs:64-80 | the attempt is gone from all three indices and no unwrap fails |
| `Attempts.AttemptContainer.CountByAddress` | network/src/attempt_container.rs:90-96 | the number of attempts whose address group is the given address |
| `Attempts.AttemptContainer.CountBySubnetwork` | network/src/attempt_container.rs:82-88 | the number of attempts in the subnetwork |
| `Attempts.AttemptContainer.GetOldest` | network/src/attempt_container.rs:112-118 | an outbound attempt that began first, if there is any |
| `Attempts.AttemptContainer.Purge` | network/src/attempt_container.rs:102-110 | exactly the overdue attempts go, for any clock |
| `Addresses.NetworksApart` | network/src/utils.rs:3-39 | no IPv6 network is an IPv4 address |
| `Addresses.Ipv4SubnetworkIsMapped` | network/src/utils.rs:10-18 | an IPv4 subnetwork is no IPv6 subnetwork |
| `Addresses.GroupIdempotent` | network/src/utils.rs:20-27 | the group of a group is that group |
| `Addresses.SameGroup` | network/src/utils.rs:20-27 | one group means the same IPv4 address or the same /48 network |
| `Addresses.SameSubnetwork` | network/src/utils.rs:10-18 | one subnetwork means the same 24 bits of an IPv4 address or 32 bits of an IPv6 address |
| `Network.FewerBounded` | network/src/network.rs:399-448 | closing and removing channels keeps all limits |
| `Network.AddedBounded` | network/src/network.rs:553-617 | a channel that passes the checks keeps all limits |
| `Network.AddressCheckSees` | network/src/network.rs:463-468 | the check per address sees the whole group if the address stands for its group, as every IPv4 address does, and nothing otherwise |
| `Network.GroupLimit` | network/src/network.rs:553-617 | an admitted channel keeps its group within the limit per address if and only if its address stands for its group or the group had room |
| `Network.TwoOfOneGroup` | network/src/utils.rs:20-27 | there are two IPv6 addresses of one group that do not stand for it |
| `Network.SecondAdmitted` | network/src/network.rs:572-617 | no cause is found against a second channel of such a group |
| `Network.Ipv6GroupOverLimit` | network/src/network.rs:553-595 | with a limit of one per address, two channels of any such group are both added |
| `Network.AdmittedFits` | network/src/network.rs:572-617 | no cause of refusal means that the new channel fits |
| `Network.Network.CheckPlace` | network/src/network.rs:587-616 | the first cause of refusal among the later checks |
| `Network.Network.ValidateNewConnection` | network/src/network.rs:572-617 | refused for the first cause there is, and only if there is one |
| `Network.Network.AddOutboundAttempt` | network/src/network.rs:193-216 | tracked if the connection may be opened, not tracked otherwise |
| `Network.Network.AddNewChannel` | network/src/network.rs:253-286 | a new channel under an id that was never issued before, and all limits kept |
| `Network.Network.Remove` | network/src/network.rs:324-326 | the channel is gone |
| `Network.Network.Touch` | network/src/channel.rs:163-232 | what holders of a channel do to it keeps the limits |
| `Network.Network.Close` | network/src/network.rs:413-431 | closes the selected channels and no others |
| `Network.Network.RemoveDeadChannels` | network/src/network.rs:434-448 | exactly the closed channels are removed and returned |
| `Network.PurgedChannels` | network/src/network.rs:399-448 | closing what is idle, then what is outdated, and removing what is closed leaves exactly the survivors |
| `Network.Network.PurgeChannels` | network/src/network.rs:399-407 | exactly the closed, idle and outdated channels are removed and returned |
| `Network.Network.Purge` | network/src/network.rs:399-411 | the same, and exactly the overdue attempts are forgotten |
| `Network.Network.ChannelMisbehaved` | network/src/network.rs:632-649 | the score of the peer grows by one and its channel is closed |
| `Network.Network.UpgradeToRealtime` | network/src/network.rs:691-718 | upgraded unless a live channel with this node id is found in the same group; which one is looked at is open |
| `Network.Network.Stop` | network/src/network.rs:653-665 | the first stop removes all channels |
| `Buckets.IndexesPush` | network/src/attempt_container.rs:52-59 | pushing a new value keeps an index exact |
| `Buckets.IndexesDrop` | network/src/peer_exclusion.rs:204-210 | the list of a value exists and holds it, and dropping the value keeps the index exact |
| `Buckets.IndexCounts` | network/src/attempt_container.rs:82-96 | the length of a list is the number of values with that key |
| `PruneSteps.PruneConfirms` | ledger/src/ledger.rs:460-463 | a block below its frontier is confirmed, and pruning it changes no confirmation |
| `PruneSteps.PruneKeepsWF` | ledger/src/ledger.rs:459-475 | pruning a block below its frontier keeps the ledger well formed, with every frontier stored |
| `PruneSteps.PruneInterferes` | ledger/src/ledger.rs:427-441 | to cementing, a pruning step is one of the things that other writers may do |
| `PruneSteps.CementIsOther` | ledger/src/block_cementer.rs:62-86 | to pruning, a cementing step is one of the things that other writers may do |
| `PruneSteps.PrunableStays` | ledger/src/ledger.rs:427-441 | a block that can be pruned can still be pruned after whatever other writers did |
| `PruneSteps.GapMoves` | ledger/src/ledger.rs:459-475 | while a chain is being pruned there is one gap, at the block that is next |
| `PruneSteps.AllBelowPruned` | ledger/src/ledger.rs:459-481 | everything below a pruned block is pruned, except for the genesis block |
| `PruneSteps.TargetPrunable` | node/src/pruning.rs:111-139 | a target is strictly below the confirmation frontier of its account |
| `PruneSteps.TargetMeaning` | node/src/pruning.rs:111-139 | the target is the highest block below the frontier that is deep enough or old enough; what is above it is neither |
| `PruneSteps.WalkStable` | node/src/pruning.rs:113-136 | whatever other writers do at a refresh in the middle of a chain, the rest of the walk is the same |
| `PruneSteps.DepthKept` | node/src/pruning.rs:113-136 | pruning at and below a target does not make the walk to it shorter |
| `Pruning.PassReads` | node/src/pruning.rs:94-149 | reading a range of accounts queues exactly their targets |
| `Pruning.PassOthers` | node/src/pruning.rs:70-88 | whatever other writers do between two transactions keeps the pass right |
| `Pruning.PassCollects` | node/src/pruning.rs:70-83 | collecting, with other writers before and after, keeps the pass right |
| `Pruning.PassPrunes` | node/src/pruning.rs:85-88 | a batch takes targets from the queue only when they are done |
| `Pruning.QueuePrunable` | ledger/src/ledger.rs:427-441 | every queued target can be pruned, however long ago it was read |
| `Pruning.PassComplete` | node/src/pruning.rs:46-92 | if nobody else wrote, at the end exactly the blocks at or below targets are pruned |
| `Pruning.NothingLeft` | node/src/pruning.rs:46-92 | after a complete pass every block below a frontier that was deep or old when it began is pruned, except for the genesis block, whatever other writers did |
| `Pruning.LastIsOk` | node/src/pruning.rs:94-149 | three conditions, each checkable before the pass, under which it cannot get stuck at the highest account number |
| `Pruning.StillStuck` | node/src/pruning.rs:70-88 | writing a batch leaves a pass that is stuck there stuck |
| `Pruning.Pruner.constructor` | ledger/src/ledger.rs:310-314 | the cached count starts as the number of pruned blocks |
| `Pruning.Pruner.Release` | ledger/src/ledger.rs:467-470 | the ledger is well formed whenever other writers get a chance, also in the middle of a chain |
| `Pruning.Pruner.PruneBlock` | ledger/src/ledger.rs:459-475 | one block is pruned and the gap moves to the previous one |
| `Pruning.Pruner.PruningAction` | ledger/src/ledger.rs:448-487 | with other writers at every commit: the target is done, only blocks of its chain were pruned, their number is returned, and the panic is never reached |
| `Pruning.Pruner.PruneBatch` | ledger/src/ledger.rs:427-441 | targets are done from the front until the batch is full, and only blocks at or below those done are pruned |
| `Pruning.Pruner.RefreshRead` | node/src/pruning.rs:129-135 | a refresh in the middle of a chain does not change where the walk ends |
| `Pruning.Pruner.WalkChain` | node/src/pruning.rs:113-136 | the loop computes the target and its depth, as they were at its start, and the assertion in it holds |
| `Pruning.Pruner.CollectTargets` | node/src/pruning.rs:94-149 | the targets of a contiguous range of accounts as read at one moment, and the exact condition for making no progress at the last account |
| `Pruning.Pruner.SearchTargets` | node/src/pruning.rs:70-83 | the queue holds enough targets, or all accounts were read, or the node was stopped |
| `Pruning.Pruner.WriteBatch` | node/src/pruning.rs:85-88 | the queue gets shorter and the number of newly pruned blocks is returned |
| `Pruning.Pruner.LedgerPruning` | node/src/pruning.rs:46-92 | with other writers all along: the pass ends, the count is exact, only blocks at or below targets that were read are pruned; without a stop every such target is done and nothing that was deep or old is left; if nobody else writes, exactly the blocks at or below the targets are pruned |
| `Pruning.Pruner.StuckAtLast` | node/src/pruning.rs:70-149 | a pass at the highest account number that fills a read alone collects and writes for any number of rounds without getting on |
| `BlockStore.KeyOrder` | store_lmdb/src/block_store.rs:175-199 | the byte order of big-endian ids is their number order |
| `BlockStore.PutRefines` | store_lmdb/src/block_store.rs:164-177 | a put of a new hash appends legally and adds one entry to the one map |
| `BlockStore.DelRefines` | store_lmdb/src/block_store.rs:106-117 | a delete removes one entry from the one map |
| `BlockStore.NextAfterLast` | store_lmdb/src/block_store.rs:195-204 | the id after the last key is above all ids in use |
| `BlockStore.LmdbBlockStore.constructor` | store_lmdb/src/block_store.rs:68-80 | opening keeps the contents and finds a free id |
| `BlockStore.LmdbBlockStore.Put` | store_lmdb/src/block_store.rs:86-92 | fails if and only if the hash is there; the append never fails |
| `BlockStore.LmdbBlockStore.Get` | store_lmdb/src/block_store.rs:98-104 | the block under the hash, never missing its data |
| `BlockStore.LmdbBlockStore.Del` | store_lmdb/src/block_store.rs:106-117 | the entry is gone and nothing else |
| `BlockStore.LmdbBlockStore.Count` | store_lmdb/src/block_store.rs:119-121 | the number of blocks |

## Left out

- Block validation, insertion and rollback, elections, schedulers and bootstrap: other writers appear only as what they may leave behind at a transaction refresh.
- Pruning.Pruner.LedgerPruning: the other writers do not prune themselves, as the node runs one pruner; with other writers present, which targets are read depends on when they act, so the exact set is stated for a pass on its own only.
- Cryptography: checksums, digests and signatures are arbitrary functions; the only assumption is that what was signed verifies.
- Codec.MessageRoundTrip: sums of 16 bit sizes wrap around, as without overflow checks; parts that the node copies as they are, such as the known telemetry data, account information, keepalive peers and the head of a vote, are byte strings of their length; blocks are byte strings of the size of their type.
- Bit fields are written as sums of disjoint fields, with one bit-vector lemma for their disjointness.
- TokenBucket.TokenBucket.Refill: the floating point product is its exact rounded-down value, and sizes are unbounded.
- `TokenBucket::set_limit`, burst ratios and `largest_burst`.
- PeerExclusion.PeerExclusion.PeerMisbehaved: scores are unbounded; the 32 bit truncation in durations is modelled.
- Network.Network.Touch: channels are values in the table of the network, so a holder's changes go through the table; a holder that keeps a removed channel is not modelled.
- Network.Network.ValidateNewConnection: the constant tables of reserved addresses are a parameter.
- Peer lists, fanout, statistics, bandwidth classes, observers and the write queue of a channel.
- BlockStore.LmdbBlockStore.Put: ids are not exhausted; transactions are not rolled back; blocks are stored as values instead of bytes.
- Deserializer.NetworkFilter.ApplyDigest: the epoch stays the same between two calls; `clear_all` and the hasher are not modelled.
- DataReceiver.Run: whether a message could be sent or enqueued and whether the network allowed the upgrade are inputs of each step; every channel has a duplicate filter of its own; `AbortOwnNodeId` is never produced by the code, so the permanent ban behind it is not modelled.
- HonestNodes.Pair.Run: handshakes travel as values on a channel that neither loses nor reorders them, and sending succeeds; that their bytes are read back is stated for the codec.
- RPC, websocket, daemon, configuration, logging and the node wiring.

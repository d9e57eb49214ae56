# Verified models of Molva

Molva is a peer-to-peer messenger: a stack of small protocols over a best-effort network, each
keeping its state in one local database. This project models the protocols that carry the
messenger's promises and proves those promises over whole runs.

| files | what they model |
|---|---|
| `RatchetCrypto`, `Ratchet`, `RatchetState`, `RatchetSession`, `RatchetSteps`, `RatchetReads`, `RatchetRuns`, `RatchetHandshake` | Double Ratchet sessions: the state object, the key agreement, and two parties with every message ever sent between them |
| `SessionAgreement`, `SessionOrder` | which session two nodes end up with, with messages in order and out of order |
| `Pending`, `Chat`, `ChatInvariant`, `ChatOrder`, `ChatManager` | the texts that wait for a session, where each is and in which order they leave |
| `ChatAgreement`, `ChatPair`, `ChatTables` | the chat follows the session protocol, two whole nodes agree, and each event's statements do to the tables of the reliability layer what it does to the chat's store |
| `Outbox`, `Delivery` | the persistent queue with retries, acks, deduplication and statuses, over a lossy, duplicating, reordering network |
| `ChatDelivery`, `ChatCrossing` | two whole chats under that layer: what Delivered says of a text, and the run on which a Delivered text was never read |
| `SenderKey`, `SenderKeyState`, `SenderKeyCodec` | group sender keys and their stored form |
| `Group`, `GroupRuns`, `GroupChains`, `GroupManager` | group membership, key distribution and the rekey on removal at one node |
| `GroupNet`, `GroupHolders` | the group over all its nodes: agreement on members, and who holds whose chain |
| `Lamport` | sequence counters and the Lamport clock |
| `Chunks`, `Bitmap`, `Pull`, `PullManager` | the windowed file pull |
| `Reasm`, `ReasmRuns` | video frames cut into segments and rebuilt |
| `Invite`, `Mnemonic`, `BigEndian` | base58 invite codes, the seed phrase, big-endian numbers |
| `Prelude` | optional values, results, bytes and facts about sequences |

How the model speaks of things it does not contain:

* Keys, signatures and ciphertexts of the ratchets are symbolic. Diffie-Hellman is an unordered pair of
  private keys, key derivations are injective, a box opens exactly under its own key and associated data, a
  signature verifies exactly for its signer and its whole transcript. Digests (SHA-256, BLAKE2b, CRC-32) and
  the key derivations of sender keys are arbitrary functions.
* A database transaction works on a copy of the tables that is committed or discarded; handlers are functions
  from one state of the tables to the next, and the manager classes do the same step by step in place.
* The network is a choice of events. What may arrive is what was sent, any number of times and in any order;
  where a protocol needs more (ordered delivery for session agreement) the event says so. The ratchet and the
  sender keys are also given whatever does not need the parties' own secrets to be made.
* Entropy and the wall clock are parameters; a drawn key or id was never seen before, the clock may show anything.
* 32-bit and 64-bit arithmetic is written out where the code's integers can wrap; the theorems over runs of a
  chain are about fewer than 2^32 messages on it.

## Model

| member | source | states |
|---|---|---|
| RatchetState.State.Encrypt | ratchet/state.go:40-53 | the object's new state and the message are the specified ones; without a sending chain nothing changes |
| RatchetState.State.TakeSkipped | ratchet/state.go:88-96 | a stored key is found by (dh, n), handed out once and removed, the others keep their order |
| RatchetState.State.DeriveKeys | ratchet/state.go:109-118 | the loop stores exactly the keys of the skipped chain positions, of all stored keys the latest 512 remain, and the chain key is advanced as far |
| RatchetState.State.SkipTo | ratchet/state.go:100-119 | at most 512 keys are derived; a larger gap is refused with the state unchanged |
| RatchetState.State.DhRatchet | ratchet/state.go:123-151 | both chains of a DH step, receiving before sending, from the specified roots |
| RatchetState.State.Prepare | ratchet/state.go:62-76 | for a new key the old chain is closed at the announced length before the DH step, then the position is reached |
| RatchetState.State.Decrypt | ratchet/state.go:58-85 | the plaintext and the new state are the specified ones, on every success and every error |
| RatchetSession.StoredBounded | ratchet/state.go:12-15 | keys outstanding never outnumber the undelivered messages, so the bound evicts only when more than 512 wait |
| RatchetSteps.SkipKeeps | ratchet/state.go:100-119 | after any skip the list has at most 512 entries, pairwise different, each the true key of a pending position |
| RatchetSteps.SkipComplete | ratchet/state.go:112-117 | while no more than 512 messages wait, no pending position loses its key to eviction |
| RatchetSteps.SendKeeps | ratchet/state.go:40-53 | sending keeps the invariant of the whole session, with the message recorded at its chain position |
| RatchetReads.OpenedAt | ratchet/state.go:77-84 | a message opens under a derived key only at its own chain and position |
| RatchetReads.AcceptedIsAwaited | ratchet/state.go:58-85 | outside an unopened chain (a receiving chain not yet keyed whose peer key the message names) whatever Decrypt accepts was sent by the peer, is unread and yields its plaintext; the resulting state is again a right one |
| RatchetReads.AcceptedUnopened | ratchet/state.go:72-85 | in an unopened chain a message is accepted exactly when it is sealed under the unset chain key; nobody sent it, and of the stored state only the number moves |
| RatchetReads.AcceptedExactly | ratchet/state.go:58-85 | an accepted message was sent by the peer and unread if and only if the chain it names was not an unopened one |
| RatchetReads.AwaitedIsAccepted | ratchet/state.go:58-85 | conversely an unread message of the peer is accepted, in any order, and costs no other message its key, while at most 512 wait |
| RatchetRuns.StepKeeps | ratchet/state.go:58-85 | one event, honest or hostile (any ciphertext under any key not derived from the session's secret), keeps the invariant of both parties and the network |
| RatchetRuns.RunSafe | ratchet/state.go:58-85 | over every run an accepted message is one of the peer's, unread, with its own text, if and only if it did not fit an unopened chain |
| RatchetRuns.UnsentAccepted | ratchet/state.go:72-85 | in every reachable state a message that the peer did not send, or that was read, is accepted if and only if the chain is unopened and it is sealed under the unset chain key |
| RatchetRuns.RunExact | ratchet/state.go:58-85 | over every run with at most 512 undelivered a direction, across any number of DH steps, Decrypt succeeds outside an unopened chain exactly for the peer's unread messages, and in one exactly under the unset chain key |
| RatchetRuns.NeverAgain | ratchet/state.go:88-119 | what was accepted is accepted again at a later point of any run if and only if it fits an unopened chain there, and then it did so the first time; a message of the peer's never |
| RatchetHandshake.SameSecret | ratchet/handshake.go:47-164 | Finish and AcceptHandshake on the same init and ack derive one binding and one root secret |
| RatchetHandshake.FirstStep | ratchet/handshake.go:76-96 | the responder's first ratchet step yields the initiator's sending chain |
| RatchetHandshake.BindingIsWhole | ratchet/handshake.go:47-164 | sides that differ in a peer, a key, the session id or the role share neither binding nor secret |
| RatchetHandshake.SessionsWork | ratchet/handshake.go:47-164 | the session that any handshake starts has the safety and, within the bound, the exactness of the runs above, with their condition on unopened chains |
| RatchetHandshake.UnopenedAccepts | ratchet/handshake.go:88-95 | the input on which the plain promise fails: right after Finish the initiator accepts a message that nobody sent, and accepts it again |
| RatchetHandshake.Persisted | ratchet/handshake.go:99-119 | a stored handshake reads back as itself, and only its own bytes read back to it |
| SessionAgreement.Smaller | chat/manager.go:473-480 | the byte loop decides the order of node ids |
| SessionAgreement.LessAsymmetric | chat/manager.go:473-480 | of two nodes at most one considers itself the smaller |
| SessionAgreement.StepKeeps | chat/manager.go:287-376 | each step of the two-node protocol keeps its invariant |
| SessionAgreement.Agreement | chat/manager.go:287-376 | with ordered delivery, whenever no init or ack is under way both nodes hold the same session or neither holds one, and neither waits |
| SessionAgreement.SmallerWins | chat/manager.go:293-301 | after a collision the session is the one the smaller node began |
| SessionAgreement.ReorderingBreaks | chat/manager.go:293-309 | without ordered delivery a losing init delivered after the winner's ack leaves the nodes with different sessions |
| SessionOrder.AgreementAnyOrder | chat/manager.go:287-376 | with inits and acks in any order they still agree, and the smaller node does not wait, if no ack towards it overtakes an init sent before it |
| SessionOrder.OrderStep | chat/manager.go:287-376 | each step in any such order keeps the invariant |
| SessionOrder.InitAheadOfAck | chat/manager.go:293-301 | an init that overtakes an ack leaves the larger node waiting, though both agree |
| ChatManager.Manager.DrainPending | chat/manager.go:380-402 | the loop encrypts the waiting texts in the order in which the store returns them and drops deleted ones, as specified |
| ChatManager.Manager.EncryptEnqueue | chat/manager.go:406-418 | one text is encrypted and queued under its own id |
| ChatManager.Manager.SendText | chat/manager.go:153-206 | a commit has the specified tables, an error leaves all tables as they were |
| ChatManager.Manager.SendSealed | chat/manager.go:96-135 | the same for service payloads |
| ChatManager.Manager.OnChat | chat/manager.go:221-284 | the same for an incoming text |
| ChatManager.Manager.OnSealed | chat/manager.go:77-91 | the same for an incoming service payload, rolled back when its module refuses it |
| ChatManager.Manager.OnSessionInit | chat/manager.go:287-336 | the same for an init, with the collision decided by node id |
| ChatManager.Manager.OnSessionInitAck | chat/manager.go:339-376 | the same for an ack |
| ChatManager.Manager.Delete | chat/manager.go:209-211 | deleting erases the text and keeps the row |
| Pending.Sink | store/peers.go:105-107 | one entry goes left past the later ones, in place |
| Pending.SortByTime | store/peers.go:104-108 | the in-place sort gives the stable order by the clock |
| Pending.PendingChatTake | store/peers.go:76-114 | the peer's rows leave the table, in index order and then sorted by the clock |
| Pending.TakeMeaning | store/peers.go:76-114 | each of the peer's texts is taken once, an earlier clock first and at one clock the smaller id first |
| ChatInvariant.DrainEffect | chat/manager.go:380-402 | draining moves each waiting text to the outbox whole, each exactly once, and touches no other |
| ChatInvariant.SendTextKeeps | chat/manager.go:153-206 | an accepted text is recorded and in exactly one queue; a refused one leaves no trace |
| ChatInvariant.StepKeeps | chat/manager.go:96-450 | every event at a node keeps the queue invariant |
| ChatInvariant.Conservation | chat/manager.go:153-206 | in every reachable state each text neither deleted nor delivered is in exactly one of the pending queue and the outbox, and what is queued is that text |
| ChatInvariant.NoLeftovers | chat/manager.go:380-402 | nothing is queued for a delivered text, and no text waits twice |
| ChatOrder.NewestText | chat/manager.go:153-206 | a new text's number and stamp are above those of every text before it |
| ChatOrder.StepInOrder | chat/manager.go:96-450 | every event keeps each peer's waiting texts in writing order if and only if it is no text that has to wait and is not after, by clock and id, every text already waiting for that peer |
| ChatOrder.DrainNumbers | chat/manager.go:380-418 | a drain sends texts under rising message numbers of the session, in the order in which they were taken |
| ChatOrder.SentByClock | store/peers.go:76-114 | in every reachable state, of two texts waiting for a peer one is sent before the other if and only if its clock was earlier or, at one clock, its id is smaller |
| ChatOrder.SentInWritingOrder | chat/manager.go:153-206 | waiting texts are sent in writing order after every run in which each text that had to wait was after the ones already waiting |
| ChatOrder.NoneOvertakesWaiting | chat/manager.go:183-200 | after any run no text waits for a peer to whom the node can send, so a text sent at once overtakes none that waits |
| ChatOrder.TwoTexts | store/peers.go:63-114 | of two texts written to a peer without a session the second is sent first exactly when the clock did not rise, or stood still and the id did not |
| ChatOrder.OneMillisecond | store/peers.go:104-108 | the input on which writing order fails: two texts of one millisecond with falling ids |
| ChatAgreement.InitRefines | chat/manager.go:287-336 | the chat's handler of an init acts on the peer's session, handshake and outbox as the two-node protocol does |
| ChatAgreement.AckRefines | chat/manager.go:339-376 | so does the handler of an ack, the drain only advancing the new session |
| ChatAgreement.FollowsProtocol | chat/manager.go:96-450 | every event of the chat makes exactly the protocol steps named for it with its peer, queues exactly their init or ack, and does nothing to any other peer's session or handshake |
| ChatPair.RunProjects | chat/manager.go:96-450 | a run of two whole nodes, dealing with each other and with anybody else, is inside it a run of the two-node protocol |
| ChatPair.ChatsAgree | chat/manager.go:287-376 | two whole nodes, whatever else happens to them, hold one session or none with each other and no handshake whenever no init or ack is under way, if these arrive in order |
| ChatPair.OrderOnActs | chat/manager.go:287-376 | the acts of two nodes hand the smaller one no ack ahead of an init queued before it, and open the larger one's handshakes under new ids, if and only if the protocol's run inside them is in such an order |
| ChatPair.ChatsAgreeAnyOrder | chat/manager.go:287-376 | they also hold one session or none when only, among their acts, none hands the smaller node an ack ahead of an init queued before it |
| ChatTables.OneStatement | store/tx.go:58-78 | acking, erasing and flushing a text at the chat are the statements of the reliability layer on the same tables |
| ChatTables.EventOnTables | chat/manager.go:96-450 | the statements that a handler issues on history and outbox, in its order, do to any tables with the same contents what its event does to the chat's store, and a transaction that fails issues none |
| ChatTables.TablesConserve | store/tx.go:30-78 | the statements of any run of the chat, executed one after the other, lead to tables that hold its rows and envelopes, and in them every text neither deleted nor delivered waits for a session or has its own envelope queued, never both |
| Outbox.DedupPrune | store/tx.go:183-196 | pruning leaves no expired entry and at most the cap, and drops a recent entry only when the window is full and it is the oldest |
| Outbox.Backoff | outbox/manager.go:422-431 | the loop computes the pause |
| Outbox.PauseGrows | outbox/manager.go:422-431 | the pause never shrinks with more attempts, lies between five seconds and an hour and is an hour from the eleventh attempt on |
| Outbox.TryPeer | outbox/manager.go:227-264 | in one pass a peer is tried until its first failure and skipped from there on |
| Outbox.PassKeepsRow | outbox/manager.go:268-288 | a pass neither adds, drops nor reorders queue rows: a tried row counts one attempt and moves past its pause, the rest stay |
| Outbox.Manager.Reliable | outbox/manager.go:360-396 | the handler's effect and the dedup mark are committed together or not at all, and an ack leaves exactly after a commit |
| Outbox.Manager.Ack | outbox/manager.go:325-358 | an ack settles its own queue row and raises the status, once |
| Outbox.Manager.FinishPass | outbox/manager.go:268-288 | the transaction after a pass applies every result |
| Delivery.StepKeeps | outbox/manager.go:184-396 | every event of both nodes and the network keeps the invariant |
| Delivery.PruneIsEvictions | store/tx.go:183-196 | a pruning is a sequence of evictions, so the theorems below cover it |
| Delivery.HistoryHasNoDoubles | store/tx.go:30-53 | the receiver's history has at most one row per peer, direction and message id, over every run |
| Delivery.EffectsOnce | outbox/manager.go:360-396 | a handler's effect is committed exactly once per life of its dedup entry |
| Delivery.DeliveredIsHonest | outbox/manager.go:325-358 | Delivered means the receiver committed; an undelivered message is still queued, whole |
| Delivery.ReceivedIsWritten | store/tx.go:30-78 | a received row holds the text that was written, and a deletion is never undone |
| ChatDelivery.EventEffect | chat/manager.go:96-450 | whatever happens at a node, a row keeps its text until it is erased and only its own ack delivers it, a new envelope is a live text's or has an id just drawn, and a text is received exactly when there is a session that decrypts it |
| ChatDelivery.GetsIsReliable | outbox/manager.go:360-396 | the node commits, acknowledges and remembers an arriving envelope exactly as the engine of the tables does |
| ChatDelivery.ActKeeps | outbox/manager.go:325-396 | every act of two whole chats over the network keeps the invariant that ties the one's rows to the other's history |
| ChatDelivery.TextsDelivered | chat/manager.go:221-284 | over every run a received text is one that was written, unaltered; one not yet Delivered waits or is queued; a Delivered one was committed by the receiver, and while its dedup entry lasts it is in the history exactly when it was not unreadable at the commit |
| ChatDelivery.DeliveredIffReadable | chat/manager.go:221-242 | in every reachable state, once a text's envelope arrives and its ack returns the text counts as Delivered, and the receiver has it if and only if at the commit there was a session that decrypts it |
| ChatCrossing.WritingLoses | chat/manager.go:183-194 | in every reachable state in which a text is under way to a responder without a sending chain, the responder's writing first can make that text Delivered and never read |
| ChatCrossing.DeliveredUnread | chat/manager.go:328-333 | such a run from two empty stores: after thirteen acts and no eviction a text is Delivered and not in the receiver's history |
| SenderKeyState.Sender.Encrypt | senderkey/sender.go:44-52 | message and new chain point are the specified ones |
| SenderKeyState.Receiver.Decrypt | senderkey/receiver.go:40-76 | the loop and the skipped list give the specified plaintext and state or the specified error, after which the object is to be thrown away |
| SenderKeyState.Receiver.CurrentDist | senderkey/receiver.go:34-36 | the shared point reads what is to come and nothing before |
| SenderKey.AcceptedIsGenuine | senderkey/receiver.go:40-49 | if the owner's key signed only the owner's messages, whatever is accepted is one of these messages, unaltered in every part |
| SenderKey.GapReads | senderkey/receiver.go:55-75 | the skipped list stays strictly increasing, below n, and holds true chain keys of unread positions |
| SenderKey.AttemptSafe | senderkey/receiver.go:40-76 | acceptance means a position from k on, not read before, with the right text |
| SenderKey.AttemptLive | senderkey/receiver.go:40-76 | while at most 512 positions wait an unread message is accepted and no other key is lost |
| SenderKey.NewcomerReads | senderkey/receiver.go:25-76 | a receiver made from the Dist at position k, given any unforged messages, own, altered or foreign, in any order and with repeats, reads each later message exactly once and nothing else |
| SenderKeyCodec.Marshal | senderkey/receiver.go:89-101 | the loop writes the stored form |
| SenderKeyCodec.UnmarshalReceiver | senderkey/receiver.go:104-127 | the loop reads it, with the length and count checks |
| SenderKeyCodec.RoundTrip | senderkey/receiver.go:89-127 | bytes decode to a receiver exactly when they are its stored form |
| SenderKeyCodec.AcceptedIsEncodable | senderkey/receiver.go:104-127 | whatever is decoded can be stored again |
| Group.MemberRowsMeaning | store/groups.go:48-59 | the member table can be written exactly when no member is repeated, and holds the document's members |
| Group.CollectDistsMeaning | group/manager.go:371-401 | a welcome carries the current point of every known chain but the newcomer's |
| Group.TrustedKeysMeaning | group/manager.go:615-629 | of the chains in a welcome only the sender's own is stored |
| GroupManager.Manager.Create | group/manager.go:135-173 | a commit has the specified record, member and own chain, an error leaves the tables as they were |
| GroupManager.Manager.Add | group/manager.go:177-258 | a commit has the specified document, members and queue; each refusal, and adding a member again, changes nothing |
| GroupManager.Manager.Remove | group/manager.go:262-334 | a commit has the specified document, members, chains and queue; each refusal changes nothing |
| GroupManager.Manager.RekeyTx | group/manager.go:338-368 | the new chain is one generation on and queued for every listed member but the node itself |
| GroupManager.Manager.OnWelcome | group/manager.go:578-640 | an unknown group is stored with the sender's chain and a new own one, a known one is updated, a bad document is eaten |
| GroupManager.Manager.OnUpdate | group/manager.go:643-662 | a newer document is applied, an older one eaten, one for an unknown group rolled back for a retry |
| GroupManager.Manager.ApplyMembership | group/manager.go:666-725 | the loops over members give the specified removals, additions and distributions |
| GroupManager.Manager.DistributeSelfKey | group/manager.go:728-747 | the own chain's current point is queued for each addressee |
| GroupManager.Manager.OnKey | group/manager.go:750-786 | an older generation never replaces a stored one |
| GroupRuns.AddQueues | group/manager.go:226-249 | adding sends the newcomer the document with the known chains and every other member the document, and nothing else |
| GroupRuns.RemoveKeeps | group/manager.go:262-334 | removing takes out that member alone, tells every old member including the removed one, and rekeys |
| GroupRuns.ApplyKeeps | group/manager.go:666-725 | a document that is applied keeps every part of the invariant, whatever its membership change |
| GroupRuns.StepKeeps | group/manager.go:135-786 | every call and every arrival keeps the invariant |
| GroupRuns.RunSafe | group/manager.go:135-786 | in every reachable state record, document and member table agree, left holds exactly when the node is not in the document, every stored chain is a member's, and the own chain was sent by this node to the other members and to nobody else |
| GroupRuns.VersionRises | group/manager.go:590-690 | the admin key never changes and another document is always a newer version |
| GroupRuns.VersionsAlongRun | group/manager.go:590-690 | the same between any two moments of a run |
| GroupRuns.GenerationsRise | group/manager.go:770-778 | no event replaces the chain stored for another member by one of an older generation |
| GroupRuns.GenerationsAlongRun | group/manager.go:770-778 | between any two moments of a run the stored chain's generation does not fall if the chain was stored all the time between them |
| GroupChains.GenerationReturns | group/manager.go:666-786 | without that it can: from every reachable state of a group that another node administers, a member left out and taken back has its chain stored again with the first generation |
| GroupRuns.LeaverIsCutOff | group/manager.go:704-711 | when a node sees somebody stop being a member, the chain it uses from then on is a new one, never seen before and never sent by this node to them |
| GroupRuns.AudienceIsHolders | group/manager.go:405-489 | a group text goes to exactly those whom this node sent the chain it is under; who got it from others is in GroupHolders |
| GroupChains.ApplyLeavesChain | group/manager.go:666-725 | after a document is applied a member has a chain of its own if and only if it had one or the document removes somebody |
| GroupChains.ReturnsWithChain | group/manager.go:578-662 | a node taken back into a group, by welcome or by update, has a chain of its own if and only if the same document removes somebody |
| GroupChains.CanSendExactly | group/manager.go:405-489 | in every reachable state a node can send if and only if it is a member whose membership history has not cost it its chain |
| GroupChains.Stranded | group/manager.go:578-725 | the run on which the plain promise fails: welcomed, left out and welcomed back, an active member has no chain to send with |
| GroupNet.NetStep | group/manager.go:135-786 | every event of any node keeps the invariant of the whole group: documents are the admin's, chains are their owners', each node is sound |
| GroupNet.FollowersAgree | group/manager.go:666-690 | in every reachable state of the whole group, nodes at the same version have the same document and members |
| GroupHolders.ChainsDiffer | group/manager.go:338-368 | no two members ever send under one chain |
| GroupHolders.CountedStep | group/manager.go:643-725 | a node that counts everybody who holds its chain, as a member or as a newcomer still to be heard of, goes on doing so if and only if it does not pass over a welcome: apply a document that removes nobody while somebody was handed its chain by a welcome no newer and is not in it |
| GroupHolders.SkipsNobodySuffices | group/manager.go:656-660 | it passes over none if no skipped document holds somebody whom the applied one lacks |
| GroupHolders.NextInTurn | group/manager.go:656-660 | documents applied one version at a time skip nobody |
| GroupHolders.DocumentsDoNotDecide | group/manager.go:226-249 | no condition on the issued documents is exact: two possible runs lead to the same documents and the same node, and the same update passes over a welcome in the one and not in the other |
| GroupHolders.HoldersKnown | group/manager.go:226-249 | over every run, everybody a node counts was sent its chain, and if it never passes over a welcome, whoever was handed its chain by anybody is a member it counts or in a document it has yet to see |
| GroupHolders.Overtaken | group/manager.go:643-662 | from every state in which a member is level with the admin, an addition and a removal of which it gets only the second leave the third node holding its chain |
| GroupHolders.SevenEvents | group/manager.go:643-662 | the shortest such run, from nothing |
| Lamport.Counters.NextSeq | store/tx.go:82-92 | a counter starts at 1 and rises by one, other counters untouched |
| Lamport.Counters.LamportNext | store/tx.go:95-95 | a text's stamp is the clock after one tick |
| Lamport.Counters.LamportObserve | store/tx.go:142-152 | the clock passes the clamped stamp |
| Lamport.Counters.RecvSeqObserve | store/tx.go:103-124 | a gap is reported exactly for a jump, and the counter never falls |
| Lamport.ObservedPasses | store/tx.go:138-152 | the clock passes a stamp exactly when the stamp is within 2^53 or already behind the clock |
| Lamport.ClockBounds | store/tx.go:82-152 | under arbitrary stamps the clock strictly rises and after k operations is at most 2^53 + k |
| Lamport.CausalityRises | store/tx.go:82-152 | in any run of many nodes with stamps within 2^53 a causally later event has a larger stamp |
| Lamport.CeilingBreaksOrder | store/tx.go:126-138 | beyond the ceiling an answer can carry a smaller stamp than what it answers |
| Bitmap.Marks.Set | blob/bitmap.go:34-44 | one bit marks one chunk and leaves every other mark; the answer says whether it was new |
| Bitmap.Marks.Has | blob/bitmap.go:47-52 | tells marked chunks from unmarked and from indexes that are no chunk |
| Bitmap.Marks.Count | blob/bitmap.go:55-63 | the number of marked chunks |
| Bitmap.Marks.Complete | blob/bitmap.go:66-66 | true exactly when every chunk is marked |
| Bitmap.Marks.FirstMissing | blob/bitmap.go:69-77 | the first unmarked indexes, ascending, up to the limit |
| Bitmap.Marks.FromBytes | blob/bitmap.go:17-24 | stored bits come back as the same marks, and bits of the wrong length as none |
| Bitmap.Marks.Bytes | blob/bitmap.go:27-31 | the stored form restores to the same marks |
| Bitmap.UnmarkedMeaning | blob/bitmap.go:69-77 | the missing indexes are the unmarked ones, strictly ascending |
| Bitmap.AllOrMissing | blob/bitmap.go:55-77 | count, completeness and missing indexes agree |
| Chunks.Lengths | blob/crypto.go:43-53 | a chunk has bytes exactly when its index is below Chunks, none but the last is short, and 64-bit arithmetic never wraps on a valid manifest |
| Chunks.Tiling | blob/crypto.go:43-53 | every byte of the file lies in exactly one chunk |
| Chunks.ServeRequest | blob/manager.go:290-351 | only the addressee is served, in order, up to the first chunk that is not there |
| Chunks.ServedAll | blob/manager.go:313-349 | a request for existing chunks is answered in full with the file's own bytes |
| Pull.RunSafe | blob/manager.go:354-517 | over any run with lost, repeated, reordered and foreign chunks, timeouts, shutdowns and crashes, every chunk marked in memory or in the store holds the sender's bytes, and done means the whole file with the promised digest |
| Pull.CompleteIsSource | blob/manager.go:438-440 | a complete bitmap means the file is the sender's, byte for byte |
| Pull.AcceptKeeps | blob/manager.go:406-449 | accepting a chunk keeps that, and the last one ends the pull as done exactly when the digest was honest |
| Pull.AcceptedOnce | blob/manager.go:416-431 | an accepted chunk raises the count by one and is never accepted again; any other changes nothing |
| Pull.AnyOrder | blob/manager.go:406-449 | what is marked depends only on which chunks came, not on order or repeats, and the pull ends exactly when all have |
| Pull.RoundProgress | blob/manager.go:379-459 | an answered request either ends the pull or marks a whole window and asks for the next one |
| Pull.TransferCompletes | blob/manager.go:379-459 | as many answered requests as there are windows complete the file |
| Pull.ArrivesWhole | blob/manager.go:237-517 | whatever happened before, once started again and answered often enough the file arrives whole |
| PullManager.Puller.AcceptChunk | blob/manager.go:406-449 | the object's steps on file, bitmap, window and store are the specified ones |
| PullManager.Puller.StartPull | blob/manager.go:354-376 | after a restart the pull goes on from the stored marks and the file as it was left |
| PullManager.Puller.FinishPull | blob/manager.go:473-517 | the digest decides, and either way the pull ends |
| PullManager.Puller.RequestWindow | blob/manager.go:379-403 | the window is the first missing chunks, and nothing is asked when none is missing |
| PullManager.Puller.WindowDone | blob/manager.go:452-459 | true exactly when every requested chunk is marked |
| Reasm.SegmentVideo | media/reasm.go:28-49 | one reused buffer yields exactly the frame's segments; empty and oversized frames are refused |
| Reasm.Reassembler.Push | media/reasm.go:69-124 | the object's slots and answer are the specified ones |
| Reasm.PushKeeps | media/reasm.go:69-124 | whatever arrives, there are at most four slots with distinct ids, each with its count of parts right and some part missing |
| Reasm.ParseSegment | media/reasm.go:41-79 | a segment parses back to its frame id, number, total and bytes |
| ReasmRuns.SlotsMatch | media/reasm.go:69-124 | a push returns a frame exactly when it brings the frame's last missing part, and then that frame |
| ReasmRuns.ReturnedOnce | media/reasm.go:69-124 | with each segment pushed at most once and at most four frames open, the frames returned are those with every part pushed, each once and unchanged |
| ReasmRuns.EveryFrameOnce | media/reasm.go:28-124 | when every segment is pushed every frame comes back exactly once and no slot is left |
| Invite.LetterIsAlphabet | contact/invite.go:38-38 | the letters used are the alphabet |
| Invite.Base58Encode | contact/invite.go:131-151 | the loops compute the encoding |
| Invite.Base58Decode | contact/invite.go:154-173 | the loops compute the decoding, and a foreign letter is an error |
| Invite.RebaseRoundTrip | contact/invite.go:131-173 | digits rewritten in another base and back are unchanged, leading zeros included |
| Invite.DecodeEncode | contact/invite.go:131-173 | decoding an encoded byte string gives it back |
| Invite.EncodeDecode | contact/invite.go:131-173 | every string over the alphabet is the encoding of what it decodes to |
| Invite.EncodedLength | contact/invite.go:24-27 | an encoding is at most twice as long as its bytes, so a code never exceeds the limit of 96 |
| Invite.CodeIsCanonical | contact/invite.go:43-87 | a code is accepted for an id exactly when it is that id's code |
| Mnemonic.AppendBits | mnemonic/mnemonic.go:134-139 | the low bits are appended, the most significant first |
| Mnemonic.EncodeSeed | mnemonic/mnemonic.go:64-87 | the loops compute the phrase |
| Mnemonic.DecodePhrase | mnemonic/mnemonic.go:92-125 | the loops compute the seed or the error |
| Mnemonic.GroupFlatten | mnemonic/mnemonic.go:69-82 | numbers written as bits are read back by the same grouping |
| Mnemonic.FlattenGroup | mnemonic/mnemonic.go:101-114 | bits grouped into numbers and written out again are unchanged |
| Mnemonic.NormalOfJoined | mnemonic/mnemonic.go:95-95 | words joined by spaces are read back as they were |
| Mnemonic.AcceptedExactly | mnemonic/mnemonic.go:92-125 | a phrase is accepted for a seed exactly when its words, after trimming and lower-casing, are the seed's words |
| Mnemonic.RoundTrip | mnemonic/mnemonic.go:64-125 | every seed comes back from its phrase, for any word list without repetition and any digest |

## Left out

- RatchetRuns.RunSafe: does not promise that everything accepted was sent by the peer, because until a receiving chain is keyed its key is a constant; the condition is exact (UnsentAccepted) and UnopenedAccepts gives the input. RatchetRuns.NeverAgain carries the same condition.
- ChatOrder.SentInWritingOrder: waiting texts leave by clock and id, not in the order written; SentByClock and StepInOrder are exact and OneMillisecond gives the input.
- SessionAgreement.Agreement: needs inits and acks delivered in order; the queue orders by retry time, ReorderingBreaks shows what can happen otherwise, and SessionOrder.AgreementAnyOrder needs less.
- Delivery.DeliveredIsHonest: Delivered means the receiver committed a transaction for that message id, not that the text is in its history, because an unreadable message is eaten and still acked; ChatDelivery.DeliveredIffReadable is exact.
- ChatCrossing.DeliveredUnread: the comment at chat/manager.go:328-333 says that a responder does not begin a handshake of its own because that would lose envelopes under way; SendText and SendSealed do begin one (chat/manager.go:110 and 188), and the model follows the code.
- ChatDelivery.TextsDelivered: a deletion of a received text is not in the chat's store; ReceivedIsWritten of Delivery covers it on the tables.
- GroupRuns.RunSafe: does not say that every member can send, because a member taken back may have no chain of its own; GroupChains.CanSendExactly says exactly when and Stranded gives the run. It speaks of what this node sent; what other nodes hand on is in GroupHolders.
- GroupHolders.HoldersKnown: every node follows the protocol and a welcome reaches only its addressee, so members that pass chains on by themselves are outside; SevenEvents shows that without its condition it fails.
- GroupHolders.SkipsNobodySuffices: one way only, and has to be: a skipped newcomer matters only if the admin knew the node's chain when it wrote the welcome, which documents do not tell (DocumentsDoNotDecide); the exact condition, PassesOver, is about the welcomes.
- GroupRuns.StepKeeps: documents are kept in the order they were issued, not sorted by member id, and a version that the database driver cannot store as a signed number is not refused.
- ChatTables.TablesConserve: relates history and outbox only; the pending queue, sessions and counters are no tables of the reliability layer, and a deletion of a received text is not in the chat's store.
- Pull.RunSafe: a crash between renaming the finished file and recording it, and a failing file system or database during a pull, are not modelled.
- Reasm.Reassembler.Push: slots are values in the list, so sharing of a slot between variables is not modelled; a repeated segment of a frame already returned opens a new slot, which the theorems exclude by pushing each segment once.
- RatchetRuns.RunExact: chains of 2^32 messages and more, on which the counters wrap, are excluded.
- SQL, WAL mode and the encryption of columns; protobuf, so also the bytes of a stored ratchet state (ratchet/state.go:155-229), of which only the loss of an unkeyed chain's key is modelled; validation of wire messages beyond what the handlers branch on.
- The transport, goroutines, channels, timers and real time; statistics counters, callbacks and logging.
- Failures of the entropy source, blocking of a peer, and quarantine of corrupt rows.
- Grouping of due queue items by peer and the parallel sending of groups (outbox/manager.go:213-266); one peer's batch is modelled.
- Several groups and several pulls at a node: one group and one pull, since their rows are disjoint. The parallel managers for contacts, presence and calls.
- Receiving a group text (group/manager.go:502-574) beyond the membership and key questions: its decryption is SenderKey's.
- URL parsing, aliases and invisible characters of an invite; file names; loading the word list.
- Codec adaptation of audio and video.

# Verified models of the TON network protocols

Dafny models of four stateful cores of the TON node, each with its invariants and the theorems that
follow from them:

- **CatChain**, the block graph under the BFT consensus: the receiver that orders blocks and finds
  forks (`CatchainDag`, `CatchainState`, `CatchainTables`, `CatchainReceiver`, `CatchainTheorems`),
  the layer above it that picks the dependencies of the next own block (`CatchainTop`,
  `CatchainChain`, `CatchainTopTheorems`), the two together as actors (`CatchainOwn`), the restart
  from the stored blocks (`CatchainReplay`, `CatchainRestart`), the crash-safe sending of own blocks
  (`CatchainPipeline`), runs on which a promise fails (`CatchainRuns`) and the answer to
  `getDifference` (`CatchainDifference`).
- **ADNL** peer pairs: the replay window (`AdnlWindow`), packing messages into packets
  (`AdnlPacking`), and splitting and joining huge messages (`AdnlHuge`).
- **DHT**: keys and their XOR distance (`DhtKeys`), the nearest nodes by a walk over the buckets
  (`DhtNearest`), the iterative search (`DhtQuery`) and the buckets (`DhtBucket`).
- **HTTP** payloads: the incremental parser and the writer of the chunked coding, section 4.1 of
  RFC 7230 (`HttpScan`, `HttpPayload`, `HttpRoundTrip`).

`Options` and `Numbers` hold the few definitions that several of them share.

The whole project is checked by `dafny verify dfyconfig.toml`.

## How to read it

Objects that the program updates in place are classes. Where a class has many fields they are grouped
in one or two records, the invariant is a conjunction of named predicates over those records, and one
lemma per predicate and operation shows that the operation keeps it; the methods call these lemmas.
The theorems about CatChain are stated over the invariant, so they hold after every run of the methods.

Assumptions, each a parameter or a precondition of the members that need it:

- A signature check is a predicate on names and signatures. `Sender.Receive` assumes that nobody can
  name an own block that was never shown (`HonestMsg`).
- A block is named by source, height and payload hash. The name does not cover the links, so nothing
  assumes that links are acyclic; that comes from the order of delivery.
- Storage acknowledges a write only when it is durable, and commits writes in the order they were issued.
- The layer above asks for own blocks that depend on delivered blocks of other sources, as it does; nothing
  is assumed about how these dependencies are related (`Sender.AddBlock`).
- Time is a positive number that the caller passes in.
- "Blame-free" means that no source has been blamed.

## Where a promise holds only in part

Each of these is stated with the condition under which it holds and with an input on which it fails. The
conditions are exact, except that `Steady` is only sufficient for acceptance after a restart.

- **Restart.** The stored blocks are run again through the receiver's own checks, in whatever order the
  reads complete. Acceptance depends on fork ids, and these depend on the order of delivery, so a block
  accepted in one run is rejected in another that delivers the same blocks in another order
  (`AcceptedFirst`, `RejectedAgain`). If only first blocks of a source depend directly on sources of which two
  needed blocks have one height (`Steady`), everything accepted before is accepted again in every order
  (`CalmAccepts`, `Restore`); so it is in particular if there are no such two blocks (`UnforkedIsSteady`).
  A reference to a known block is accepted without a signature check, and on restart fewer blocks are
  known; a block is valid among no known blocks exactly if each of its references is signed
  (`AloneMeans`), and then no read fails (`Load`). Otherwise a read can stop the program at a CHECK, and
  `Recover` leaves the sender down.
- **One own block per height.** It holds over every run, whatever is asked for and whenever the program
  crashes and restarts, as long as no restart needs two blocks of one source and height (`Unforked`). If one
  does, the reads find the fork (`Restore`) and at once ask for an own block, which is built on the root
  block; `Recover` says so by its result, exactly then. That block is signed, stored and shown, a second one of
  height 1 (`ShowSecond`), and there is a store from which it comes to that (`TwoOwnBlocks`).
- **Delivery of an own block.** The CHECK on it holds exactly if no dependency is refused and a fork proof it
  carries is one (`PointerStored`). In a blame-free run it always holds (`SendOwn`). After a blame the top
  blocks may be stale, so that one list has a block and a later list what that block depends on
  (`TopCanBeStale`); the second own block then fails (`StaleRequest`), and no restart from it succeeds
  (`PointerStored`, `Recover`).
- **Replay window.** The 64-bit test is exact if and only if `seqno + 64` does not wrap around to a number
  up to the greatest accepted one, or the mask tells of `seqno` (`ReceivedMeans`). Otherwise a new packet
  is dropped (`WrapDropsNew`, `WrapHappens`); an old one is never accepted (`AcceptedIsReceived`).
- **Top blocks.** The incrementally kept top blocks equal the formula that `on_blame` computes exactly as
  long as each new block's clock covers no top block that it does not link to (`TopStepIsExactIff`); a
  block that links to a blamed source can break this (`TopCanBeStale`), and without blame nothing does.
- **Validation.** What passes validation has links the receiver can handle exactly if no direct dependency
  is the root block (`ValidMsgLinks`); such a dependency does pass (`RootDepPasses`), and the program then
  uses its source, which it does not have. Members that take a valid block exclude it (`NoRootDeps`).
- **getDifference.** No block is missing for unblamed sources (`UnblamedAreFound`). The CHECK on a missing
  block fails exactly if a height to be sent of a blamed source is not in its table (`MissingIff`), which is so
  after the first blame of a source without a fork proof, until blocks of these heights are named again
  (`BlamedIsMissing`).
- **Ping answers.** An answer is not compared with the node that was asked; the CHECK on it fails exactly if
  that node is still held and the answer tells of another (`ReceivedPing`).
- **End of an HTTP payload.** `store_http` writes the end after everything else exactly unless the size
  asked for ends with the body while trailer lines are waiting or may come (`EndIsLastIff`), a waiting
  line has no name (`UnnamedEndsEarly`), or parsing goes on and all that was read so far, a multiple of the
  buffer size, is written (`EndsEarly`). What is written is then a complete payload without the trailer lines
  (`EndsTooSoon`), and it comes of parsing the beginning of a long chunk (`EndsMidChunk`). `WriteAll` avoids
  these.

## Model

| member | source | states |
|---|---|---|
| CatchainDag.ClockDecidesReachability | catchain/catchain-block.cpp:49-55 | for delivered blocks, whatever the forks, comparing a height with one timestamp entry holds exactly when a path of prev/deps links leads from one block to the other |
| CatchainDag.ClockHasWitness | catchain/catchain-received-block.cpp:265-275 | every non-zero timestamp entry is the height of a block of that fork which the owner of the timestamp reaches |
| CatchainDag.ForkIsChain | catchain/catchain-received-block.cpp:109-129 | within one fork every block reaches all lower ones |
| CatchainDag.PathRaisesClock | catchain/catchain-received-block.cpp:265-275 | timestamps never decrease along a path of links |
| CatchainDag.ReachesAntisymmetric | catchain/catchain-received-block.cpp:227-246 | links of delivered blocks have no cycles, though names do not cover links |
| CatchainDag.ExtendDag | catchain/catchain-received-block.cpp:109-129 | a block whose links are delivered and whose fork slot is free extends a well-formed graph to a well-formed graph |
| CatchainDag.StreamGivesDag | catchain/catchain-receiver.cpp:42-63 | the callbacks of a run describe a well-formed graph in which each block is reported once and after everything it links to |
| CatchainDag.SameReach | catchain/catchain-block.cpp:49-55 | a block reaches the same blocks in every later graph |
| CatchainTables.OwnForkIsLower | catchain/catchain-received-block.cpp:124-128 | the CHECK that a block's entry for its own fork is below its height never fails |
| CatchainTables.MayBeDelivered | catchain/catchain-received-block.cpp:109-129 | the fork id and timestamp given to a block with delivered links keep the graph well formed |
| CatchainTables.ReportAdmissible | catchain/catchain-receiver.cpp:42-63 | the report of a delivered block may follow the earlier ones: a block of an unblamed source is above all its earlier blocks |
| CatchainTables.NothingLost | catchain/catchain-receiver.cpp:226-237 | with an empty queue every stored healthy block whose links are delivered is delivered |
| CatchainTables.ForkedChecks | catchain/catchain-received-block.cpp:168-225 | giving a block its fork id does not change the outcome of its checks |
| CatchainTables.AdmittedIsAcceptable | catchain/catchain-received-block.cpp:168-225 | an own block passes all checks before delivery if and only if its links and payload pass on the tables as they were before it was entered |
| CatchainTables.FreshPasses | catchain/catchain-received-block.cpp:168-225 | dependencies of unblamed sources not covered by the predecessor pass, unless the payload is a bad fork proof |
| CatchainTables.UnblamedOpensFirst | catchain/catchain-received-block.cpp:109-129 | a source gets its first fork id with its block of height 1; a second id is given only to a source already blamed |
| CatchainReceiver.ValidMsgLinks | catchain/catchain-received-block.cpp:362-417 | validation admits links the receiver can handle (right heights and sources, distinct foreign dependencies) if and only if no direct dependency is the root block |
| CatchainReceiver.ValidMsgSigned | catchain/catchain-receiver.cpp:187-224 | a valid block and all it refers to are signed, those known already included |
| CatchainReceiver.Receiver.Validate | catchain/catchain-received-block.cpp:362-417 | the checks in their order accept exactly the blocks with good source, height and predecessor, dependencies of different other sources, valid references, a payload and a signature |
| CatchainReceiver.Receiver.SourcesDiffer | catchain/catchain-received-block.cpp:398-405 | the set of used sources finds exactly the repeated ones |
| CatchainReceiver.Receiver.ValidateDep | catchain/catchain-receiver.cpp:187-206 | a reference is accepted exactly if it is the root block with the right data, or well formed and either known or signed |
| CatchainReceiver.Receiver.ValidateProof | catchain/catchain-received-block.cpp:131-155 | exactly pairs of valid references to different blocks of one source and height are fork proofs |
| CatchainReceiver.RootDepPasses | catchain/catchain-received-block.cpp:419-439 | a block with a direct dependency on the root block passes validation |
| CatchainReceiver.Receiver.constructor | catchain/catchain-receiver.cpp:465-503 | the receiver starts in its invariant with an empty queue |
| CatchainReceiver.Receiver.Blame | catchain/catchain-receiver-source.cpp:61-81 | exactly: the first blame empties the source's table of heights and is reported; a second changes nothing |
| CatchainReceiver.Receiver.OnNewBlock | catchain/catchain-receiver-source.cpp:145-174 | exactly: a new name enters its source's table of heights; a second name at one height blames the source and records the two names as a fork proof to be sent; once a proof is recorded nothing changes, and other sources never do |
| CatchainReceiver.Receiver.BlockReceived | catchain/catchain-receiver-source.cpp:92-110 | the received height ends at the first height of an unblamed source that is not received |
| CatchainReceiver.Receiver.BlockDelivered | catchain/catchain-receiver-source.cpp:112-130 | the delivered height ends at the first height of an unblamed source that is not delivered |
| CatchainReceiver.Receiver.SetIll | catchain/catchain-received-block.cpp:248-263 | illness reaches everything waiting, directly or not, only through links, blames the sources of all that fall ill, and terminates though links may be cyclic |
| CatchainReceiver.Receiver.Touch | catchain/catchain-receiver.cpp:172-185 | a name not seen before gets an empty block; a known one changes nothing |
| CatchainReceiver.Receiver.UpdateDeps | catchain/catchain-received-block.cpp:265-275 | the pointwise maximum of two timestamps |
| CatchainReceiver.Receiver.Register | catchain/catchain-received-block.cpp:61-83 | the merged timestamps of delivered links, the number of links not delivered, and a reverse link at each of those |
| CatchainReceiver.Receiver.InitializeHealthy | catchain/catchain-received-block.cpp:61-88 | the block waits for exactly its undelivered links, and is queued if there are none and it is stored |
| CatchainReceiver.Receiver.InitializeIll | catchain/catchain-received-block.cpp:50-59 | a block with an ill link is ill at once and so is all that waits for it |
| CatchainReceiver.Receiver.Initialize | catchain/catchain-received-block.cpp:30-88 | links are stored, states only move forward, and the whole invariant is kept |
| CatchainReceiver.Receiver.Written | catchain/catchain-received-block.cpp:289-296 | a stored block is queued exactly if it was not stored before and no link is missing; nothing else changes |
| CatchainReceiver.Receiver.AddFork | catchain/catchain-receiver-source.cpp:26-42 | a fork id never used before; a source that gets a second one is blamed |
| CatchainReceiver.Receiver.InitializeFork | catchain/catchain-received-block.cpp:109-129 | the block continues its predecessor's fork or opens a new one, and is then fit to extend the graph; this never blames a source for the first time |
| CatchainReceiver.Receiver.MakeIll | catchain/catchain-received-block.cpp:248-263 | a running block that fails a check is ill, with everything that waits for it, and nothing else is |
| CatchainReceiver.Receiver.RejectsDep | catchain/catchain-received-block.cpp:180-203 | true exactly if the predecessor's timestamp covers the dependency or another fork of its blamed source |
| CatchainReceiver.Receiver.PreDeliver | catchain/catchain-received-block.cpp:131-225 | the block passes if and only if it is acceptable, and is ill otherwise; an accepted fork proof records and blames exactly the source it names, reporting a first blame, and any other accepted block changes neither |
| CatchainReceiver.Receiver.Settle | catchain/catchain-received-block.cpp:98-107 | checks and delivery in one step: the fork proof of a delivered block is carried out, and its blame comes before its report |
| CatchainReceiver.ProofIsHeeded | catchain/catchain-received-block.cpp:154-159 | in every state the source named by a fork proof in a delivered block is recorded as forked and blamed |
| CatchainReceiver.Receiver.HonestSource | catchain/catchain-receiver.cpp:187-224 | in every state every known block is signed by its source; a source that signs at most one block of each height is never found to fork, whatever blocks and fork proofs others send |
| CatchainReceiver.Receiver.Notify | catchain/catchain-received-block.cpp:277-287 | each waiting block's count goes down by one and its timestamp takes in the delivered one; those with nothing left are queued |
| CatchainReceiver.Receiver.Deliver | catchain/catchain-received-block.cpp:227-246 | one report with the block's final timestamp, only this block changes to delivered, and the invariant holds again |
| CatchainReceiver.Receiver.Run | catchain/catchain-received-block.cpp:90-107 | a queued block meets every CHECK and becomes delivered if and only if it is acceptable, else ill; with a fork proof the source it names is blamed and reported before the block is |
| CatchainReceiver.Receiver.RunScheduler | catchain/catchain-receiver.cpp:226-237 | draining the queue terminates and loses no wake-up; the block at its head is delivered if and only if acceptable; where every source has one fork and nothing can be rejected, nothing is |
| CatchainReceiver.Receiver.CreateBlock | catchain/catchain-receiver.cpp:152-185 | a known initialized block is left alone, any other gets its links |
| CatchainReceiver.Receiver.ReceiveBlock | catchain/catchain-receiver.cpp:65-94 | any block: an invalid or already stored one changes nothing, a valid one is stored with its links; if these are delivered it is delivered exactly if it passes all checks and ill otherwise, and no block whose links are delivered is left waiting |
| CatchainReceiver.Receiver.AddOwnBlock | catchain/catchain-receiver.cpp:248-263 | any own block with delivered links, a fork proof included: the CHECK on its delivery holds if and only if it passes the checks made before |
| CatchainReceiver.Receiver.Enter | catchain/catchain-receiver.cpp:152-185 | a validated block is entered and counts as stored; if its links are delivered it is the only one in the queue, and will pass exactly if it passes on the tables before it |
| CatchainTheorems.TimestampMeansReachable | catchain/catchain-received-block.cpp:180-191 | on the receiver's own tables, in every reachable state, the timestamp comparison is reachability |
| CatchainTheorems.RejectionMeans | catchain/catchain-received-block.cpp:180-205 | a dependency is rejected exactly if the predecessor reaches it, or reaches another fork of its blamed source |
| CatchainTheorems.PassingMeans | catchain/catchain-received-block.cpp:168-225 | so a block whose links are delivered passes exactly if no dependency is refused in this sense and its fork proof is one |
| CatchainTheorems.IllnessIsInherited | catchain/catchain-received-block.cpp:50-59 | whatever depends on an ill block, however indirectly, is ill |
| CatchainTheorems.DeliveryIsCausal | catchain/catchain-received-block.cpp:227-287 | everything a delivered block depends on, however indirectly, is delivered |
| CatchainTheorems.UnblamedHeights | catchain/catchain-receiver-source.cpp:92-165 | an unblamed source has one block per height, none ill; exactly heights 1..delivered_height are delivered, those up to received_height are initialized, and delivered_height is at most received_height |
| CatchainTheorems.UnblamedSourceIsChain | catchain/catchain-receiver-source.cpp:26-42 | the delivered blocks of an unblamed source are one prev-chain with one fork id |
| CatchainTheorems.ForkIdsAreUnique | catchain/catchain-receiver-source.cpp:26-42 | a fork id belongs to one source, and a source with several is blamed |
| CatchainTop.TopAfterNew | catchain/catchain.cpp:119-166 | the incremental update of the top blocks never loses one, and is exact if the new block links to no blamed source |
| CatchainTop.PrevIsTip | catchain/catchain.cpp:119-166 | the predecessor of a new block of an unblamed source is that source's last block |
| CatchainTop.DominatedMeans | catchain/catchain.cpp:185-192 | the inner loop's test is reachability between tips |
| CatchainChain.BlameFreeIsExact | catchain/catchain.cpp:119-166 | in a blame-free run the condition for exact top blocks always holds |
| CatchainChain.TopAfterPick | catchain/catchain.cpp:29-43 | processing picked tips with their ancestors removes exactly them from the top blocks |
| CatchainChain.CatChain.constructor | catchain/catchain.cpp:222-240 | nothing seen, nothing sent, no top blocks |
| CatchainChain.CatChain.SendPreprocess | catchain/catchain.cpp:51-69 | emits one callback for exactly the ancestors that had none, each after its own ancestors |
| CatchainChain.CatChain.SetProcessed | catchain/catchain.cpp:71-86 | marks exactly the block and its ancestors; the marks stay closed under ancestors |
| CatchainChain.CatChain.OnNewBlock | catchain/catchain.cpp:119-166 | the new graph, tips, top blocks and callbacks; the top blocks stay a superset of the formula, equal to it while exact |
| CatchainChain.CatChain.OnBlame | catchain/catchain.cpp:168-198 | the recomputed top blocks are the formula: unprocessed tips of other unblamed sources that no other tip depends on |
| CatchainChain.CatChain.SendProcess | catchain/catchain.cpp:29-49 | at most max_deps distinct top blocks, as many as there are, processed with all their ancestors |
| CatchainTopTheorems.TopIsAntichain | catchain/catchain.cpp:168-198 | top blocks are unprocessed, one per foreign unblamed source, and neither another top block nor any other tip, including the local one, depends on them |
| CatchainTopTheorems.TopStepIsExactIff | catchain/catchain.cpp:119-166 | exactly when the incremental update agrees with the formula, in terms of the new block's timestamp |
| CatchainTopTheorems.TopCanBeStale | catchain/catchain.cpp:136-144 | a run with a blamed source in which the two differ: both of two tips are kept as top blocks though one depends on the other |
| CatchainTopTheorems.CallbacksFollowAncestors | catchain/catchain.cpp:51-69 | the preprocess callbacks are a linear extension of the graph, blamed sources or not |
| CatchainOwn.PickKeeps | catchain/catchain.cpp:29-49 | a list picked now is unrelated to every earlier list still waiting and to the last own block |
| CatchainOwn.SeeKeeps | catchain/catchain.cpp:119-166 | a callback seen late does not spoil the lists that wait |
| CatchainOwn.DeliverKeeps | catchain/catchain-receiver.cpp:42-63 | nor does a foreign block delivered meanwhile |
| CatchainOwn.CreateKeeps | catchain/catchain-receiver.cpp:304-351 | nor does the own block built from the first of them |
| CatchainOwn.OwnDepsAlwaysPass | catchain/catchain.cpp:29-49 | in every blame-free run, with any number of lists in flight, the next list holds at most max_deps delivered blocks of distinct foreign sources, none known to the last own block |
| CatchainOwn.OwnDepsAreFresh | catchain/catchain-receiver.cpp:248-263 | so the dependencies of every own block are delivered, of distinct unblamed foreign sources, at most max_deps, and not known to the last own block |
| CatchainOwn.BuiltIsValid | catchain/catchain-receiver.cpp:304-351 | the own block built from such a list is valid and has exactly these links |
| CatchainOwn.SendOwn | catchain/catchain-receiver.cpp:248-351 | in every blame-free run the own block built from the next list is delivered by the receiver at once: the CHECK never fails |
| CatchainPipeline.Sender.constructor | catchain/catchain-receiver.cpp:465-503 | nothing stored, nothing shown |
| CatchainPipeline.Sender.Stored | catchain/catchain-receiver.cpp:475-508 | the program is started on the writes of earlier runs |
| CatchainPipeline.Sender.Commit | catchain/catchain-receiver.cpp:265-283 | later acknowledgements keep the invariant |
| CatchainPipeline.Sender.Crash | catchain/catchain-receiver.cpp:465-503 | a crash that keeps any prefix with all acknowledged writes keeps the invariant and the chain |
| CatchainPipeline.Sender.Receive | catchain/catchain-receiver.cpp:65-94 | a block received and stored never overwrites anything recovery depends on; each fork found asks for one own block with its proof |
| CatchainPipeline.Sender.Tell | catchain/catchain-receiver.hpp:42-44 | one request per fork found, in order, behind the requests that wait; each is taken up exactly once |
| CatchainPipeline.Sender.AddBlock | catchain/catchain-receiver.cpp:304-351 | whatever delivered blocks of others are asked for: one own block at a time, built on the last one with the next height; further requests wait in order, none is lost, and the own source is never blamed |
| CatchainPipeline.Sender.Signed | catchain/catchain-receiver.cpp:285-302 | a valid block is written under its name; otherwise the CHECK fails and the sender is down |
| CatchainPipeline.Sender.BlockStored | catchain/catchain-receiver.cpp:265-283 | only an acknowledged block is pointed to |
| CatchainPipeline.Sender.PointerStored | catchain/catchain-receiver.cpp:248-263 | only an acknowledged pointer makes the block visible, as the next of the chain; then the first waiting request is begun on it and the others stay in order. The CHECK on its delivery holds if and only if no dependency is refused and its fork proof is one, which is so for a fork the program found; what the pointer needs is fresh exactly if the block is |
| CatchainPipeline.Sender.Recover | catchain/catchain-receiver.cpp:510-596 | from any store the program leaves: it resumes from the pointer or stops at a CHECK, the chain is kept or extended by the one block that was in flight; an own block is begun on the root exactly if the needed blocks have a fork; it resumes only if all they need is fresh, and then surely if they are steady and all references are signed |
| CatchainPipeline.Sender.Resume | catchain/catchain-receiver.cpp:580-596 | the pointed-to block is the last own block; the forks found by the reads have been asked to be told on top of the root block |
| CatchainPipeline.Sender.ShowSecond | catchain/catchain-receiver.cpp:248-302 | the own block begun by such a restart is stored, pointed to and delivered: two own blocks of height 1, and the own source is blamed |
| CatchainPipeline.RecoveredStore | catchain/catchain-receiver.cpp:580-596 | the chain after recovery ends at the pointer and is what the store holds |
| CatchainPipeline.RecoveredMem | catchain/catchain-receiver.cpp:580-596 | after recovery the own blocks in memory are exactly the chain |
| CatchainPipeline.StartFresh | catchain/catchain-received-block.cpp:180-203 | what a restart needs is fresh exactly if the pointed-to block was delivered or its predecessor depends on none of its dependencies; everything else was accepted |
| CatchainPipeline.NotAccused | catchain/catchain-received-block.cpp:131-160 | a fork proof that names only shown own blocks does not accuse the own source |
| CatchainPipeline.ToldIsProof | catchain/catchain-receiver-source.cpp:145-175 | what an own block tells of a fork that was found is a valid fork proof |
| CatchainPipeline.OneBlockPerHeight | catchain/catchain-receiver.cpp:248-351 | the own blocks ever shown, over all requests, crashes and restarts that need no two blocks of one source and height, are one per height, each the predecessor of the next |
| CatchainPipeline.ShownIsChain | catchain/catchain-receiver.cpp:641-650 | whatever own block can be served is in that chain with the same links |
| CatchainRestart.Load | catchain/catchain-receiver.cpp:510-578 | reading, in any order of completion, loads the pointed-to block and everything it needs; no read fails if all references are signed |
| CatchainRestart.AloneMeans | catchain/catchain-receiver.cpp:187-206 | a block valid when it arrived is valid on restart if and only if each of its references is signed |
| CatchainRestart.ForkIsNeeded | catchain/catchain-receiver-source.cpp:145-175 | after the reads a fork is known exactly if two needed blocks are of one source and height |
| CatchainRestart.ReadIsCalm | catchain/catchain-receiver.cpp:510-578 | in whatever order the reads ended, nothing that was read can be rejected, if it is steady, fresh and signed |
| CatchainRestart.ReplayDelivers | catchain/catchain-receiver.cpp:580-586 | so after the queue has been run everything that was read is delivered |
| CatchainRestart.Restore | catchain/catchain-receiver.cpp:510-596 | reading and running: a fork proof is prepared if and only if two needed blocks make a fork; if the needed blocks are steady and fresh and all references are signed, every one of them is delivered again, so the CHECK on the pointed-to block holds |
| CatchainRestart.UnforkedIsSteady | catchain/catchain-received-block.cpp:180-203 | needed blocks without a fork are steady |
| CatchainReplay.NoticedIffForked | catchain/catchain-receiver-source.cpp:145-175 | during the reads a fork is noticed if and only if there is one |
| CatchainReplay.CalmAccepts | catchain/catchain-received-block.cpp:168-225 | a block is accepted, whatever ran before, if its predecessor reaches none of its dependencies and is the root block or their sources have one fork |
| CatchainReplay.CalmRun | catchain/catchain-received-block.cpp:90-129 | running a block leaves one fork for each source without two names at one height, and nothing that can be rejected |
| CatchainReplay.AcceptableIsFresh | catchain/catchain-received-block.cpp:180-203 | an accepted block depends directly on nothing its predecessor reaches |
| CatchainRuns.Take | catchain/catchain-receiver.cpp:65-94 | one step of a run: a block with delivered links is delivered if no dependency is refused, and ill otherwise |
| CatchainRuns.AcceptedFirst | catchain/catchain-received-block.cpp:180-203 | a run of the receiver in which all blocks are delivered |
| CatchainRuns.RejectedAgain | catchain/catchain-received-block.cpp:109-203 | a run of the receiver with the same blocks and links in another order, in which one of them is ill |
| CatchainRuns.StaleRequest | catchain/catchain-receiver.cpp:248-263 | a run of the receiver in which an own block is ill because its predecessor depends on its dependency |
| CatchainRuns.RestartSplit | catchain/catchain-receiver.cpp:510-596 | a restart from a concrete store that resumes and begins an own block on the root block |
| CatchainRuns.TwoOwnBlocks | catchain/catchain-receiver.cpp:248-351 | after it two own blocks of height 1 have been delivered |
| CatchainDifference.SettledMeans | catchain/catchain-receiver.cpp:746-764 | at most 100 blocks plus one per lagging source are sent, and more than 100 are or every gap closes |
| CatchainDifference.SentMeans | catchain/catchain-receiver.cpp:746-782 | the heights sent, one by one and source by source, in terms of the two height lists alone |
| CatchainDifference.UnblamedAreFound | catchain/catchain-receiver.cpp:765-780 | for unblamed lagging sources no block is missing, and each is the delivered block of its height |
| CatchainDifference.MissingIff | catchain/catchain-receiver.cpp:765-780 | in every state the CHECK fails if and only if a height to be sent of a blamed source is not in its table |
| CatchainDifference.BlamedIsMissing | catchain/catchain-receiver.cpp:765-780 | after the first blame of a source without a fork proof, a query that lacks one of its delivered blocks runs into the failing CHECK |
| CatchainDifference.Total | catchain/catchain-receiver.cpp:752-757 | the number of blocks sent if at most x are sent per source |
| CatchainDifference.Search | catchain/catchain-receiver.cpp:746-764 | the binary search finds the settled count |
| CatchainDifference.SendRun | catchain/catchain-receiver.cpp:768-778 | consecutive heights, stopping at the first that is missing |
| CatchainDifference.SendAll | catchain/catchain-receiver.cpp:765-782 | of each lagging source the next min(r, gap) blocks in order, and the reported heights raised by as many; no block exactly if one of those heights is missing |
| CatchainDifference.GetDifference | catchain/catchain-receiver.cpp:709-783 | the answer for every query: bad size, a found fork, or of each source that lags the heights after the given one, min(r, gap) of them and of no other source any, in order, at most 100 plus one per source; all of them if they are at most 100. The CHECK fails exactly if one of these heights is missing |
| AdnlWindow.AcceptedIsReceived | adnl/adnl-peer.hpp:127-136 | an accepted number always counts as received, even where the sum wraps around |
| AdnlWindow.ReceivedMeans | adnl/adnl-peer.hpp:127-136 | the test says "accepted, or more than 63 below the greatest" if and only if the sum does not wrap around to a number up to the greatest, or the mask tells of the number |
| AdnlWindow.WrapDropsNew | adnl/adnl-peer.hpp:127-136 | wherever it does not, a number that is new and within the window counts as received |
| AdnlWindow.WrapHappens | adnl/adnl-peer.hpp:127-136 | such windows exist |
| AdnlWindow.AddKeepsWindow | adnl/adnl-peer.hpp:138-152 | the mask and maximum after accepting a number describe the set with it |
| AdnlWindow.PeerPair.constructor | adnl/adnl-peer.hpp:213-216 | nothing sent, received or accepted |
| AdnlWindow.PeerPair.Reinit | adnl/adnl-peer.cpp:618-645 | the epoch only moves forward; all but the first change clears the window and the counters |
| AdnlWindow.PeerPair.UpdateAddrList | adnl/adnl-peer.cpp:673-688 | an address list starts a newer epoch unless its date is too far in the future |
| AdnlWindow.PeerPair.ReceivedPacket | adnl/adnl-peer.hpp:127-136 | the test, against the set of accepted numbers |
| AdnlWindow.PeerPair.AddReceivedPacket | adnl/adnl-peer.hpp:138-152 | exactly this number is added to the accepted ones; the greatest number and the mask follow |
| AdnlWindow.PeerPair.NextSeqno | adnl/adnl-peer.cpp:269-271 | outgoing numbers increase by one and acknowledged ones stay at most as great |
| AdnlWindow.PeerPair.Receive | adnl/adnl-peer.cpp:115-202 | exactly which packets are delivered, and the epoch, counters and window that each packet leaves; a positive epoch and number is delivered at most once over all runs |
| AdnlWindow.PeerPair.Accept | adnl/adnl-peer.cpp:164-202 | what an accepted packet changes: the window, the acknowledgement, and the epoch its contents announce |
| AdnlWindow.PeerPair.DeliverMessages | adnl/adnl-peer.cpp:199-201 | reinit messages move the epoch forward in their order |
| AdnlWindow.PeerPair.Announced | adnl/adnl-peer.cpp:183-193 | both address lists are taken into account |
| AdnlPacking.Fill | adnl/adnl-peer.cpp:292-306 | the longest run of messages that fits, in order |
| AdnlPacking.NextPacket | adnl/adnl-peer.cpp:263-348 | with its header (128 bytes, 272 with keys), control message (40 or 72) and address lists (128 each) a packet fits into 1440 bytes, takes messages as long as the next one fits, and every packet but the first takes at least one |
| AdnlPacking.Pack | adnl/adnl-peer.cpp:234-355 | every message exactly once and in order, consecutive packet numbers, at most one packet more than messages; each packet is full or the last, the control message is in the first packet and in no other |
| AdnlHuge.Split | adnl/adnl-peer.cpp:357-385 | the parts partition the message, with the right offsets and total |
| AdnlHuge.Assembler.constructor | adnl/adnl-peer.hpp:223-225 | no message under way |
| AdnlHuge.Assembler.Append | adnl/adnl-peer.cpp:585-589 | the part is copied to the current offset and all writes stay within the buffer |
| AdnlHuge.Assembler.ProcessPart | adnl/adnl-peer.cpp:555-608 | any part: the next state as specified, and whatever is delivered has the announced hash |
| AdnlHuge.NextMeans | adnl/adnl-peer.cpp:555-608 | what each part does: ignored without hash or above 8320 bytes, a part of another message drops the one under way and starts its own only if it is the first, a part of the message under way counts only where it continues it; full and with the right hash, it is delivered |
| AdnlHuge.DeliveredMatches | adnl/adnl-peer.cpp:591-607 | over any sequence of parts, everything delivered has the hash some part announced |
| AdnlHuge.GenuineStep | adnl/adnl-peer.cpp:555-608 | a genuine part continues its message or is ignored |
| AdnlHuge.Reassembles | adnl/adnl-peer.cpp:555-608 | genuine parts in any order and number deliver only their message, and do deliver it if they contain the missing parts in order |
| AdnlHuge.RoundTrip | adnl/adnl-peer.cpp:357-385 | the parts of a split message, in order, deliver it exactly once |
| DhtKeys.LessTransitive | dht/dht-types.h:45-47 | the order of keys is transitive |
| DhtKeys.LessTotal | dht/dht-types.h:45-47 | two different keys are ordered one way |
| DhtKeys.XorInjective | dht/dht-types.h:54-56 | different keys have different distances from a key |
| DhtKeys.BucketOf | dht/dht.cpp:341-357 | the number of leading zeroes of the distance is the one bucket a key belongs to; only one's own key has none |
| DhtKeys.CloserThanSelf | dht/dht.cpp:165-176 | the buckets at one bits of the distance hold exactly the keys closer than the node itself |
| DhtKeys.BucketOrder | dht/dht.cpp:160-189 | among one bits an earlier bucket is closer, among zero bits a later one |
| DhtKeys.OneBeforeZero | dht/dht.cpp:160-189 | keys at one bits are closer than keys at zero bits |
| DhtNearest.NearestIsUnique | dht/dht.cpp:160-189 | there is only one list of the k nearest keys in increasing distance, so the walk agrees with sorting |
| DhtNearest.SizeOfNearest | dht/dht.cpp:160-189 | it has min(k, number of keys) elements |
| DhtNearest.Emplace | dht/dht-bucket.cpp:44-51 | the ordered map with one more key |
| DhtNearest.BucketNearest | dht/dht-bucket.cpp:40-56 | the nearest nodes of one bucket are appended as far as there is room |
| DhtNearest.WalkOnes | dht/dht.cpp:165-172 | the nearest among the buckets at one bits |
| DhtNearest.CheckedCloser | dht/dht.cpp:174-176 | the CHECK after the first walk holds |
| DhtNearest.GetNearestNodes | dht/dht.cpp:160-189 | the walk returns the k nearest of all active nodes in increasing distance |
| DhtNearest.ActiveCount | dht/dht-bucket.cpp:58-66 | the number of active nodes |
| DhtNearest.CloserIsOnes | dht/dht.cpp:191-207 | the nodes closer than the node itself are those in the buckets at one bits |
| DhtNearest.Distance | dht/dht.cpp:191-207 | min(cap, number of active nodes strictly closer to the key than the node itself) |
| DhtQuery.FartherIsIgnored | dht/dht-query.cpp:75-81 | a node not nearer than a full list leaves the k nearest unchanged |
| DhtQuery.NearerIsAdded | dht/dht-query.cpp:75-93 | inserting a nearer node and dropping the last gives the k nearest of one node more |
| DhtQuery.NotSeenBefore | dht/dht-query.cpp:75-82 | a node that is admitted was never seen, so an evicted one never comes back |
| DhtQuery.Erase | dht/dht-query.cpp:88-89 | an ordered set without one key |
| DhtQuery.Query.constructor | dht/dht-query.hpp:46-60 | the search starts with the nearest of the nodes it is given |
| DhtQuery.Query.AddNode | dht/dht-query.cpp:68-94 | the list stays the k nearest of all nodes ever seen, each of them asked or waiting to be asked |
| DhtQuery.Query.AddNodes | dht/dht-query.cpp:66-95 | the same for a whole reply |
| DhtQuery.Query.SendQueries | dht/dht-query.cpp:39-64 | the waiting nodes are asked from the nearest on until a questions are open or none waits; the open questions are those asked and not answered, no node is asked twice, the CHECKs hold, and without open questions the search is over |
| DhtQuery.Query.OnResult | dht/dht-query.hpp:66-70 | any reply brings the search nearer to its end; at the end the k nearest of all nodes seen have all been asked |
| DhtBucket.FindPlace | dht/dht-bucket.cpp:83-98 | an empty slot, else one whose node failed more than a minute ago, else none |
| DhtBucket.Bucket.constructor | dht/dht-bucket.hpp:48-51 | k empty slots of each kind |
| DhtBucket.Bucket.AddFullNode | dht/dht-bucket.cpp:68-99 | a known node is updated in place, a new one takes an empty backup slot or one of a node that failed more than a minute ago; no other node is lost |
| DhtBucket.Bucket.Promote | dht/dht-bucket.cpp:137-146 | a ready backup node moves to the first empty active slot, and the CHECK on the others holds |
| DhtBucket.Bucket.Demote | dht/dht-bucket.cpp:121-135 | a failed node moves to a backup slot that is empty or whose node failed more than a minute ago, and is dropped only if there is none |
| DhtBucket.Bucket.ReceivedPing | dht/dht-bucket.cpp:101-119 | exactly when the CHECK on an answer fails; an answer changes nothing if the pinged node is gone; a good one resets the missed count to 0 and makes the node ready, and active if there is room; all other nodes stay the same |
| DhtBucket.Bucket.Check | dht/dht-bucket.cpp:148-173 | every node whose last ping is more than a minute ago is pinged once: one more missed, and at more than 3 it is no longer ready and fails now; other nodes are unchanged; nodes that have not just failed, and failed ones within a minute, stay; an empty active slot leaves no ready backup node |
| DhtBucket.Bucket.CheckActive | dht/dht-bucket.cpp:150-162 | the same for the active nodes, of which failed ones are demoted; the empty slots are counted |
| DhtBucket.Bucket.CheckBackup | dht/dht-bucket.cpp:163-172 | the same for the backup nodes, of which ready ones fill the empty slots |
| DhtBucket.CheckedNode | dht/dht-bucket.cpp:148-173 | what one check does to one node, by the time since its last ping |
| DhtBucket.SilentNode | dht/dht-remote-node.cpp:66-74 | over any run of checks without an answer: every ping adds one to the missed count; up to three the node is as ready as before; from the fourth it is not ready, its failure time is that of this ping, and no active slot has it |
| DhtBucket.BucketsAreTable | dht/dht.cpp:341-357 | buckets with every key in its place are a table for the search for the nearest nodes |
| HttpScan.FeedSplit | http/http.cpp:253-346 | the effect of the bytes does not depend on how they are cut |
| HttpScan.FeedLine | http/http.cpp:29-63 | a line counts without its line feed and one carriage return, wherever it was cut |
| HttpScan.FeedData | http/http.cpp:300-310 | the bytes of a chunk go to the body |
| HttpScan.HexRoundTrip | http/http.cpp:498-502 | a chunk size written in hexadecimal is read back |
| HttpScan.FrameDecodes | http/http.cpp:496-509 | a written chunk adds its data to the body and nothing else |
| HttpScan.LineDecodes | http/http.cpp:75-80 | a written trailer line is read back as the same header |
| HttpScan.ParsedIsClean | http/http.cpp:65-71 | a header made from a line can be written and read back if and only if its name is not empty |
| HttpScan.CodingRoundTrips | http/http.cpp:486-546 | any sequence of non-empty chunks, trailer lines and the end is read as their concatenation and the same headers, and the end is recognized |
| HttpPayload.GetLine | http/http.cpp:29-63 | a line in pieces, with its ending possibly split between two of them; an error exactly if the pieces before the one with its end exceed 16384 bytes |
| HttpPayload.NewBuffer | http/http.cpp:352-365 | a new buffer does not change what is stored |
| HttpPayload.PouredStored | http/http.cpp:352-373 | bytes read into the free end of the last buffer are appended to what is stored |
| HttpPayload.Body.constructor | http/http.h:73-90 | the start state of a chunked payload and of one that lasts until the connection ends |
| HttpPayload.Body.Sized | http/http.h:68-72 | the start state of a payload of known length |
| HttpPayload.Body.NextLine | http/http.cpp:261-265 | the next complete line, with the parser's state as the bytes say; an unfinished line is kept, up to 16384 bytes |
| HttpPayload.Body.HeaderStep | http/http.cpp:260-278 | a chunk header, complete, incomplete or bad |
| HttpPayload.Body.DataStep | http/http.cpp:279-310 | chunk data as far as there is input and room, and what follows the last byte |
| HttpPayload.Body.TrailerStep | http/http.cpp:311-329 | a trailer line or the end |
| HttpPayload.Body.CrlfStep | http/http.cpp:330-341 | the line ending after a chunk, taken only as a whole |
| HttpPayload.Body.Parse | http/http.cpp:253-346 | the parser is in the state that the bytes used so far determine, errors only where the bytes are wrong, and all input is used unless enough is waiting |
| HttpPayload.Body.SliceGc | http/http.cpp:400-417 | dropping used-up buffers does not change what is stored |
| HttpPayload.Body.GetSlice | http/http.cpp:419-454 | bytes leave in the order in which they came, and ready_bytes stays the number stored plus trailers |
| HttpPayload.Body.GetHeader | http/http.cpp:456-469 | trailer lines leave in the order in which they came |
| HttpPayload.Body.StoreData | http/http.cpp:485-512 | min(max, stored) bytes of the body leave as chunks, and whether the buffers are then used up |
| HttpPayload.Body.StoreTrailer | http/http.cpp:525-547 | which trailer lines are written and whether the end is due |
| HttpPayload.EndIsLastIff | http/http.cpp:525-547 | the end follows everything else if and only if room is left, or nothing waits or can come |
| HttpPayload.LinesInOrder | http/http.cpp:525-547 | the lines written are the first ones, and at least one if there is room |
| HttpPayload.UnnamedEndsEarly | http/http.cpp:525-547 | a line without a name is dropped and the end is written before the lines after it |
| HttpPayload.EndsEarly | http/http.cpp:481-547 | while parsing goes on, the end is written if and only if all that was read is written and that is a multiple of the buffer size |
| HttpPayload.Body.StoreHttp | http/http.cpp:481-547 | in every state of the payload: chunks with the next bytes of the body, and exactly when and in what order the zero chunk, the trailer lines and the end are written |
| HttpRoundTrip.Beginning | http/http.cpp:253-346 | no beginning of a written payload is an error or has a long line |
| HttpRoundTrip.DoneAtTheEnd | http/http.cpp:311-329 | the end is recognized after the last byte and not before |
| HttpRoundTrip.WriteAll | http/http.cpp:481-547 | whatever positive sizes are asked for (while trailer lines wait, not just the rest of the body), writing ends and yields the whole body and all trailer lines once |
| HttpRoundTrip.EndsTooSoon | http/http.cpp:481-547 | asked for exactly what is stored, a payload whose last buffer is used up is written as a complete one without trailer lines, whatever waits or may come |
| HttpRoundTrip.EndsMidChunk | http/http.cpp:481-547 | parsing the beginning of a long chunk, a multiple of the buffer size, and writing it gives a complete payload |
| HttpRoundTrip.Pump | http/http-connection.cpp:148-175 | parsing and taking out by turns uses all input that can be used, however much is waiting, and nothing is lost |
| HttpRoundTrip.ReadAll | http/http.cpp:253-346 | a written payload of any size that arrives in pieces of any size, taken out while it is parsed, gives the same body and trailer lines, with all input used |
| HttpRoundTrip.Transfer | http/http.cpp:481-547 | writing, cutting in any way and reading back gives the same body and trailer lines, of any size |

## Left out

- Cryptography, serialization, hashing and signatures: abstract predicates and functions.
- Actors, sockets, timers, logging and the database engine: steps that a caller takes in any order.
- Receiver.ReceiveBlock: a valid block with a direct dependency on the root block is excluded; does not model the early exit for a foreign incarnation, neighbours, broadcasts or synchronization requests.
- Receiver.PreDeliver: does not model blamed heights, which stay empty because they grow only when not empty, nor the two payload types that do nothing.
- Receiver.AddOwnBlock: `debug_add_fork`, which makes a fork on purpose, is not modelled.
- `got_fork_proof`, which takes a fork proof from an answer to `getDifference`: it makes the checks of `ProofOk`, records the proof and blames the source as the delivery of a block with a fork proof does.
- The queries `getBlock`, `getBlocks` and `getBlockHistory`: look-ups of stored blocks by name, which change nothing.
- OwnDepsAlwaysPass: proved for blame-free runs; after a blame the receiver may reject a dependency on purpose.
- Sender.ShowSecond: what the program does once two own blocks of height 1 are shown is not followed.
- Sender.AddBlock: a dependency that is known but not delivered is excluded; the layer above never asks for one.
- Sender.Receive: storage of foreign blocks is one step with their arrival; the identity of signatures is abstracted.
- CatChain.SendProcess: timers, `force_process` and the callbacks to the validator session are not modelled.
- PeerPair.NextSeqno: fewer than 2^64 packets are sent in one epoch.
- PeerPair.Receive: channel keys and the channel handshake are not modelled.
- Pack: direct connections only; postponing messages without a connection, and tunnels, are not modelled.
- Assembler.ProcessPart: the delivered bytes are not parsed into a message.
- DHT values, their storage and republishing, and the search for values.
- DhtRemoteNode addresses: only keys, versions and ping times are modelled.
- Body.StoreHttp: the chunked coding only; `store_tl` and payloads written without a coding are not modelled.
- `complete_parse`, by which the connection ends a payload that lasts until it is closed: one assignment to the state.
- HTTP requests, responses and their headers.
- RLDP, overlays, FEC, the validator session, the block validator, the lite client and the staking contracts.

# Verified model of the cknerv CKB and ckbadger adapters

This project models, in Dafny 4.11, the parts of cknerv that turn untrusted answers into state other components
rely on, and proves what they keep over every run:

- **The canonical-chain follower** (`Chain`, `Node`, `Backfill`, `Cursor`, `Poll`, `Restored`, `Adapter`, `Resume`). A poller asks a
  CKB node for hashes and blocks and emits `BlockMined`, `TxLanded`, `ChainReorganized`, `ChainRebuild` and progress
  markers. The node is a script of reply functions indexed by the number of calls made so far, so it may answer anything
  at any call and change forks between two calls of one poll; `Node.Serves` singles out a node that is stable from some
  call on. The stream is a log with an audit of it: the chain a consumer holds, the block it waits for after a rollback
  that left it nothing, whether every mutation could be applied, the state of the progress envelope, the deepest rollback
  below the highest block announced or restored.
  `Cursor.Coherent` ties the poller's cursor to that chain.
- **Live-output discovery** (`LiveOutputs`). A backward scan with a set of outstanding spends, against a forward replay.
- **Apportionment and the resumable tail** (`Apportion`, `Allocate`, `Index`, `Tail`, `DaoTail`, `StaticTail`, `TypedTail`,
  `TopUp`, `TypedDrain`, `Interleave`). A clamped largest-remainder split; a budgeted, wrapping walk over an index that may
  answer anything, with a set of claims, which leaves nothing behind on an index that does not change; round-robin over
  ranked groups.
- **Hydration** (`LiveCells`, `Identity`, `Hydrator`). Batched node lookups matched by request id, ids probed linearly,
  and the three buckets staged over one admission.
- **Wire layout and dedupe** (`Molecule`, `Peers`, `Dedupe`). The Script table that is hashed, the SporeData field that is
  read (Molecule encoding, RFC 0008 of Nervos CKB), and the change-dedupe of the network poll.

Objects that the program updates in place are classes here (`PollState`, `RpcClient`, `CandidateTail`, `TurnBudget`,
`Admission`, `CkbHydrator`, `NetworkPollDedupe`, the outgoing stream), and its loops are loops. Each method is tied by
its contract to a specification whose properties are proved as lemmas and preserved invariants.

What the code does where a promise of the design fails, or goes further than its documentation says:

- A rollback is bounded by the retention window only from cursors that start within it, and neither start prunes. The
  ring of recent blocks that the server saves (`state.rs:125`) holds fifty, and a resume seeds all of them as anchors
  (`adapter.rs:157-168`), while a consumer can undo forty-eight (`cells.rs:53`, `cells.rs:1057-1075`): a fork while offline
  that leaves only the oldest anchor makes the first poll take back forty-nine (`Resume.FullRingExceedsHorizon`). A resumed
  run stays within the horizon for every node exactly when its saved anchors do (`Adapter.Run`,
  `Resume.SavedWithinHorizonIff`), which for a ring means at most one block more than the horizon.
- Boot seeds a hydrated window without pruning it (`adapter.rs:171-175`), so the bound holds from boot on exactly for
  windows no longer than the horizon (`Adapter.Run`, `Resume.BootWindowIff`).
- A cursor restored as a bare height, as from a saved state whose recent blocks are missing or unreadable
  (`persistence.rs:240-247`), trusts whatever hash the node gives for that height (`poll.rs:404-411`); `adapter.rs:111-113`
  says that it cannot tell a reorganisation. Its stream can be applied to what was restored exactly when that hash is the
  restored top's, and the first poll that announces anything decides it (`Adapter.Run`); over every restored chain there is
  a stable node with which it fails (`Resume.ForeignTopExists`).
- A chunk of candidates that names one outpoint twice can stage it twice under two ids, because admitted outpoints are
  filtered before the chunk is asked about (`Hydrator.RepeatIsStagedTwice`). Staged outpoints are distinct for every node
  exactly when the target is below two or no chunk repeats one that was not admitted before; repeats across chunks and
  buckets are absorbed. Discovery and top-up drop repeats themselves; candidates restored from a saved composition are
  copied as they were read (`composition_store.rs:340-371`).
- The peer key sorts stably by node id alone, so it is blind to enumeration order exactly when rows that share a node id
  are equal (`Peers.BlindToOrderIff`).
- The Script preimage narrows its lengths to 32 bits: it stays injective at any size, and decodes back exactly while the
  table is smaller than 4 GiB (`Molecule.ScriptRoundTrip`).

Verify with `dafny verify dfyconfig.toml`.

## Model

| member | source | states |
|---|---|---|
| `Chain.TruncateIsExact` | crates/cknerv-server/src/state.rs:835-853 | a consumer's rollback keeps exactly the blocks below the announced boundary, and they stay linked |
| `Chain.AcceptedKeepsLinked` | crates/cknerv-core/src/mutation.rs:72-87 | a mutation that skips no height and names the right parent leaves consecutive, parent-linked blocks, through appends, rollbacks and rebuilds; a consumer that a rollback or a rebuild left empty takes only the height announced, and after a rollback only the parent it had there |
| `Chain.LegalLogStaysLinked` | crates/cknerv-core/src/mutation.rs:72-87 | a legal stream leaves a linked chain after every one of its prefixes, not only at its end |
| `Chain.ContinuesWhereCut` | crates/cknerv-adapter-ckb/src/poll.rs:305-352 | in a legal stream a rollback that leaves the consumer nothing is followed, after nothing but markers, by the block right at its boundary, and that block names the parent of the lowest block taken back |
| `Chain.Outbox.SendBlock` | crates/cknerv-adapter-ckb/src/poll.rs:512-514 | announcing a block and landing its transactions appends exactly that block to what the consumer holds |
| `Node.MatchedTopIsCanonical` | crates/cknerv-adapter-ckb/src/poll.rs:413-419 | comparing one hash is enough: if the top of a linked chain is the node's, every block below it is |
| `LiveOutputs.ObserveLiveOutputs` | crates/cknerv-adapter-ckb/src/backfill.rs:291-322 | one block of the scan records all inputs before settling outputs, and the saturating counter is the exact count capped |
| `LiveOutputs.CreatedAndSpent` | crates/cknerv-adapter-ckb/src/backfill.rs:296-319 | a block creates the outputs of its transactions by position, saturating at 32 bits, and spends what its inputs name except the cellbase phantom |
| `LiveOutputs.ReplayAsSets` | crates/cknerv-adapter-ckb/src/backfill.rs:288-322 | replaying a suffix oldest first leaves what it created and did not spend |
| `LiveOutputs.ScanAsSets` | crates/cknerv-adapter-ckb/src/backfill.rs:184-205 | outstanding spends are the suffix's non-cellbase inputs minus its outputs; the count is its unspent outputs |
| `LiveOutputs.ScanAgreesWithReplay` | crates/cknerv-adapter-ckb/src/backfill.rs:288-322 | for every suffix of a sound chain the backward count equals the size of the live set a forward replay from empty leaves |
| `LiveOutputs.ScanGrows` | crates/cknerv-adapter-ckb/src/backfill.rs:203-209 | the live count never falls as the walk goes down, so stopping at the first window that meets the target is sound |
| `Backfill.RebuildWindowIsNeverEmpty` | crates/cknerv-adapter-ckb/src/backfill.rs:77-86 | a normalised policy keeps its target and never scans nothing: what would have is cut to one block; normalising twice changes nothing, and it is the identity exactly for the policies that reach boot hydration |
| `Backfill.WindowCountsLiveOutputs` | crates/cknerv-adapter-ckb/src/backfill.rs:240-250 | the reported count is what replaying the discovered window leaves live |
| `Backfill.AscendingIsLinked` | crates/cknerv-adapter-ckb/src/backfill.rs:349-357 | reversing a discovered window gives a linked chain that ends at the anchored tip |
| `Backfill.FetchHydrationBlock` | crates/cknerv-adapter-ckb/src/backfill.rs:260-286 | at most three attempts; the first visible block is returned, and it fails only if all three were made and none showed one |
| `Backfill.FetchLinkedBlock` | crates/cknerv-adapter-ckb/src/backfill.rs:190-201 | a block is only accepted if it is the parent of the one above; a stable node never fails here |
| `Backfill.WalkDown` | crates/cknerv-adapter-ckb/src/backfill.rs:184-220 | reads the shortest linked suffix that meets a positive target or, if none does, exactly as many blocks as the limit allows and down to genesis without one, publishing only progress; a node that shows a shortest window block by block is read to exactly that window, at one call a block |
| `Backfill.HowFar` | crates/cknerv-adapter-ckb/src/backfill.rs:170-182 | a window that misses its target ends exactly where the limit or the chain does, and none is longer than the limit |
| `Backfill.SameWindow` | crates/cknerv-adapter-ckb/src/backfill.rs:184-220 | one chain of blocks has exactly one shortest window below a tip |
| `Backfill.DiscoverWindow` | crates/cknerv-adapter-ckb/src/backfill.rs:163-251 | success is a linked, shortest window whose tip hash was confirmed by the last call; one that misses a positive target or has none starts at genesis without a limit and is exactly `min(limit, tip + 1)` blocks long with one, and none is longer; a limit of zero, and nothing else, fails as empty without a call; complete exactly when the target or genesis was reached; failure published only progress; a stable node always succeeds; a node that shows some window block by block and confirms its tip yields exactly that window, at one call a block and one for the tip |
| `Backfill.ReplayBlocks` | crates/cknerv-adapter-ckb/src/backfill.rs:359-382 | an empty consumer ends up holding exactly the window, and the anchors returned are its heights and hashes |
| `Backfill.ReplayDiscovered` | crates/cknerv-adapter-ckb/src/backfill.rs:324-410 | the stream stays legal, the envelope is closed under its own phase, the consumer holds exactly the window whatever it held before a reset, and a completion certificate is sent only for a complete window with a real target |
| `Backfill.HydrateAtTip` | crates/cknerv-adapter-ckb/src/backfill.rs:116-161 | either a whole proven window lands or the consumer is untouched (no block, no rebuild); the envelope is closed either way |
| `Cursor.AppendKeepsCoherent` | crates/cknerv-adapter-ckb/src/poll.rs:491-516 | a block whose parent matches the anchor below it can be applied by the consumer, also by one that a rollback left empty, and cursor and consumer stay in agreement |
| `Cursor.PruneKeepsCoherent` | crates/cknerv-adapter-ckb/src/poll.rs:91-104 | pruning keeps the anchors an interval ending at the cursor and leaves nothing deeper than the horizon |
| `Cursor.PrunedIsProvable` | crates/cknerv-adapter-ckb/src/poll.rs:98-103 | pruning at the cursor keeps an anchor at height n exactly if `n + max(reorg window, 2)` reaches the cursor |
| `Cursor.EmittingStaysShallow` | crates/cknerv-adapter-ckb/src/poll.rs:515-517 | announcing the next block, also after a rollback that left the highest block above it, keeps every anchor within the horizon of the highest block |
| `Cursor.LearnedTopKeeps` | crates/cknerv-adapter-ckb/src/poll.rs:404-411 | learning a missing hash at the cursor cannot contradict anything held |
| `Cursor.RollbackKeepsCoherent` | crates/cknerv-adapter-ckb/src/poll.rs:305-310 | rolling back to any retained anchor can be applied by the consumer and leaves the cut anchors in agreement with what it kept, also at the largest height; if it kept nothing, it waits for exactly the height and the parent hash the cursor goes on from |
| `Cursor.RollbackKeepsShallow` | crates/cknerv-adapter-ckb/src/poll.rs:305-310 | from a cursor within the horizon a rollback takes back at most the horizon below the highest block announced or restored, and so does every later one, even with no block in between |
| `Cursor.EmittingRetains` | crates/cknerv-adapter-ckb/src/poll.rs:515-517 | announcing and pruning keeps an anchor for every held block within the horizon of the highest block announced |
| `Cursor.RollbackRetains` | crates/cknerv-adapter-ckb/src/poll.rs:305-308 | so does a rollback, however many follow each other |
| `Cursor.WindowRetains` | crates/cknerv-adapter-ckb/src/poll.rs:82-89 | a hydrated or rebuilt window starts with all of those anchors |
| `Cursor.KeptEndsAtBoundary` | crates/cknerv-adapter-ckb/src/poll.rs:305-308 | what a consumer keeps of a rollback ends right below the boundary, unless the boundary cuts nothing |
| `Cursor.WindowIsCoherent` | crates/cknerv-adapter-ckb/src/backfill.rs:349-372 | a replayed window's anchors, its parent anchor included, agree with the consumer that received it |
| `Poll.PollState.SeedCanonical` | crates/cknerv-adapter-ckb/src/poll.rs:62-67 | of the anchors at one height the last wins, and every other height is left as it was |
| `Poll.PollState.AdoptHydratedWindow` | crates/cknerv-adapter-ckb/src/poll.rs:82-89 | the cursor becomes the window's tip and its anchors within the horizon; both replay flags are cleared |
| `Poll.PollState.PruneCanonicalHistory` | crates/cknerv-adapter-ckb/src/poll.rs:91-104 | an anchor at height n is retained exactly if `n + max(reorg window, 2)` reaches the cursor (or the highest anchor), with the hash it had |
| `Poll.HighestKey` | crates/cknerv-adapter-ckb/src/poll.rs:92-97 | the last key of the ordered anchors is their maximum |
| `Poll.DescendingIsInterval` | crates/cknerv-adapter-ckb/src/poll.rs:425-431 | the anchors searched are an interval, highest first, with no retained height left out |
| `Poll.FindAncestor` | crates/cknerv-adapter-ckb/src/poll.rs:436-448 | the height found is retained, the node confirmed it, and it denied every retained height above it in this very walk |
| `Poll.FindCanonicalChange` | crates/cknerv-adapter-ckb/src/poll.rs:394-449 | the verdict is exactly what the replies of this classification amount to, call by call; a missing top anchor is learned exactly when the node names a hash for it, and nothing else ever is |
| `Poll.ExpectedParent` | crates/cknerv-adapter-ckb/src/poll.rs:491-502 | the parent hash is the retained anchor's, or else the node's answer, which becomes the anchor |
| `Poll.CheckParent` | crates/cknerv-adapter-ckb/src/poll.rs:491-510 | a block passes exactly if it names the anchor below it or, without one, what the node says for that height; what is learned on the way cannot contradict anything held |
| `Poll.Announce` | crates/cknerv-adapter-ckb/src/poll.rs:512-517 | the consumer grows by exactly this block, and the anchors are the old ones and this one, pruned at it |
| `Poll.EmitNext` | crates/cknerv-adapter-ckb/src/poll.rs:478-518 | the block the node just answered with is announced whole right above the cursor, or nothing is |
| `Poll.EmitBlocks` | crates/cknerv-adapter-ckb/src/poll.rs:476-533 | `done` blocks are announced in order with no height skipped, and an early end without error is exactly a block the node does not show yet |
| `Poll.EmitCanonicalRange` | crates/cknerv-adapter-ckb/src/poll.rs:451-550 | the consumer grows by exactly the cursor's advance, and the last marker of a phased range names its phase and is active exactly when the range was cut short without an error |
| `Poll.RetryHydration` | crates/cknerv-adapter-ckb/src/poll.rs:257-289 | an owed boot hydration lands whole, as the shortest window for the target and limit, or spends one attempt and touches nothing the consumer holds |
| `Poll.RebuildCanonicalWindow` | crates/cknerv-adapter-ckb/src/poll.rs:375-390 | everything is replaced by the shortest window for the target and limit below the tip, or cursor and consumer are left as they were |
| `Poll.Invalidate` | crates/cknerv-adapter-ckb/src/poll.rs:305-310 | the consumer is truncated at the proven ancestor; the rollback takes back exactly the heights from the boundary up to the highest block, which is within the horizon from a cursor within it |
| `Poll.RollBack` | crates/cknerv-adapter-ckb/src/poll.rs:305-326 | besides, the envelope is opened as a reorganisation exactly when the tip lies below the boundary, and the replay flag covers it |
| `Poll.SharedSurvives` | crates/cknerv-adapter-ckb/src/poll.rs:422-448 | while a stable node still has a held block at a height n with `n + max(reorg window, 2)` at or above the highest block, the verdict is never a rebuild, and the rollback keeps the chain up to that block as it was |
| `Poll.ForkIsReorganized` | crates/cknerv-adapter-ckb/src/poll.rs:413-448 | a node that confirms exactly one retained anchor below the cursor is answered by a rollback to exactly that one, however deep it is |
| `Poll.AgreeingIsUnchanged` | crates/cknerv-adapter-ckb/src/poll.rs:399-421 | a cursor that knows no hash for its height, or the node's, is never rolled back or rebuilt by a tip at or above it; a bare one above the tip is always rebuilt |
| `Poll.LearningSits` | crates/cknerv-adapter-ckb/src/poll.rs:404-411 | a bare height learns its own hash once, and what was sent above it names that hash |
| `Poll.EmittingSits` | crates/cknerv-adapter-ckb/src/poll.rs:491-517 | the first block above a bare height fixes the parent; announcing keeps everything anchored and sent above that height |
| `Poll.RollbackSits` | crates/cknerv-adapter-ckb/src/poll.rs:305-310 | a rollback never cuts below the bare height, and one down to it comes back to the same parent |
| `Poll.BareGrows` | crates/cknerv-adapter-ckb/src/poll.rs:394-411 | what a synchronisation from a bare height sends starts with exactly one block, fixed by the replies: the one the node shows above the height, if it names what the node said for the height when the cursor was classified or, if it then said nothing, once the block has been fetched; otherwise nothing is sent |
| `Poll.AncestorIsOnWorld` | crates/cknerv-adapter-ckb/src/poll.rs:422-446 | what survives a rollback to an ancestor the node confirmed is the node's own chain |
| `Poll.AdvanceTo` | crates/cknerv-adapter-ckb/src/poll.rs:341-373 | a walk is phased exactly when a replay is pending or the gap exceeds the threshold, as a reorganisation if a reorganisation is being replayed and as a catch-up otherwise; reaching the observed tip closes the envelope and clears both flags, being cut short keeps them; no middle block is skipped however large the gap is |
| `Poll.AnchorBelowTip` | crates/cknerv-adapter-ckb/src/poll.rs:291-301 | a live-only start anchors the node's block below the tip (block 0 at tip 0) without announcing it |
| `Poll.Reconcile` | crates/cknerv-adapter-ckb/src/poll.rs:303-339 | the cursor is left alone, rolled back to the highest confirmed anchor, or rebuilt, as the replies say, and rolled back by exactly the heights above that anchor; an error changes nothing the consumer holds |
| `Poll.SyncCanonicalBlocks` | crates/cknerv-adapter-ckb/src/poll.rs:248-373 | whatever the node answers, the stream stays legal, cursor and consumer agree, an open envelope means a pending replay, and rollbacks from a cursor within the horizon are at most `max(reorg window, 2)` deep; a cursor the node confirms is reported as catching up exactly when it is more than the threshold behind, and a reorganisation is reported as one until it is replayed; a rebuilt window is the shortest for its policy; once the node is stable one synchronisation reaches its tip with every held block and the cursor's own hash the node's, through every branch, and keeps the held chain up to any block within the horizon that the node still has |
| `Adapter.BootPolicyIsNormal` | crates/cknerv-adapter-ckb/src/adapter.rs:169-170 | a configuration that hydrates at boot already has a policy normalised for rebuilds, and does not limit its window to nothing |
| `Adapter.BootWindowWithinHorizonIff` | crates/cknerv-adapter-ckb/src/adapter.rs:172-175 | an unpruned boot window leaves the cursor within the horizon exactly when the window is no longer than it |
| `Adapter.Boot` | crates/cknerv-adapter-ckb/src/adapter.rs:153-188 | resume, hydrate or start live-only; it calls the node exactly if it hydrates; a hydration that fails announces no block and arms exactly three retries, one that lands is the cursor and the shortest window that holds the configured number of live outputs, or all the configured blocks or the whole chain if none does; a resumed start emits nothing, and is within the horizon exactly if its saved anchors are; a node that shows a window and confirms its tip is booted to exactly that window |
| `Adapter.PollOnce` | crates/cknerv-adapter-ckb/src/poll.rs:182-201 | one poll keeps the invariant against any node, ends on the chain of a node that is stable from its start, never lowers the deepest rollback so far, and rolls back to any anchor the node forked right above; a rebuild lands the shortest window for the configured target and limit, cut to one block where they would scan none; how the poll is reported follows the configured threshold; from a bare height it sends what the replies fix |
| `Adapter.SeatedJoins` | crates/cknerv-adapter-ckb/src/adapter.rs:103-116 | a stream sent from a bare height over nothing, brought to any consumer restored up to that height, is legal exactly if it names the restored top |
| `Adapter.Run` | crates/cknerv-adapter-ckb/src/adapter.rs:132-232 | over any number of polls: linked after every prefix of the stream, with no height skipped even across a rollback that empties the consumer; no rollback below the highest block announced or restored is deeper than the horizon if the saved anchors and the boot window are within it, and one is as deep as any fork that the first poll meets above a saved or hydrated anchor; over every chain restored up to a bare saved height the stream is legal exactly when the hash it names there is the restored top's, which the first poll's replies decide if it announces anything, and over a stable node that is ahead exactly when the node still has that top; every held block within the horizon still provable if the restored anchors made it so; on the node's chain once it is stable |
| `Restored.StreamOverRestored` | crates/cknerv-adapter-ckb/src/adapter.rs:103-116 | a stream that stands on one height is legal over any chain restored up to it exactly when the first parent it names is the restored top; it then continues that chain until a rebuild replaces it, with equally deep rollbacks |
| `Resume.SavedWithinHorizonIff` | crates/cknerv-adapter-ckb/src/adapter.rs:157-168 | the saved anchors are within the horizon exactly when no fork of the restored chain right above one of them is deeper than it; both halves are about `Adapter.Run`, which stays within the horizon in the one case and rolls back that far in the other |
| `Resume.ResumeExceedsHorizon` | crates/cknerv-adapter-ckb/src/adapter.rs:157-168 | for every saved state whose anchors reach deeper than the horizon there is a node, stable on a chain that shares the restored one up to the deepest anchor and no hash above, over which the first poll of every resume meets a fork deeper than the horizon |
| `Resume.ForkIsMet` | crates/cknerv-adapter-ckb/src/poll.rs:413-448 | a node that stands on a fork of the chain the cursor lies on denies exactly the anchors above the split, whenever the poll starts |
| `Resume.RingWithinHorizonIff` | crates/cknerv-server/src/state.rs:933-939 | the saved ring of recent blocks is within the horizon exactly when it holds at most one block more than the horizon |
| `Resume.FullRingExceedsHorizon` | crates/cknerv-server/src/state.rs:119-125 | over the full ring of fifty blocks there is such a node, and the fork is deeper than the forty-eight blocks that a consumer can undo |
| `Resume.BootWindowIff` | crates/cknerv-adapter-ckb/src/adapter.rs:169-175 | a window hydrated off a chain is no longer than the horizon exactly when no fork of that chain above one of its anchors is deeper; a node that stands on the chain until boot has read and confirmed the window, and on such a fork from then on, boots exactly that window and has its first poll meet the fork |
| `Resume.ForeignTopExists` | crates/cknerv-adapter-ckb/src/poll.rs:491-502 | over every restored chain there is a stable node that shares it up to below its top, has another block there and is ahead, over which, by `Adapter.Run`, every height-only resume sends a stream the restored consumer cannot hold |
| `Apportion.SortSorts` | crates/cknerv-adapter-ckbadger/src/galaxy_composition.rs:1363-1363 | the remainders are sorted, largest first and ties to the lower index, and none is lost |
| `Apportion.LargestRemainder` | crates/cknerv-adapter-ckbadger/src/galaxy_composition.rs:1351-1373 | all of the total is shared, each target is its quota rounded down or up, and whoever is rounded up dropped at least as much as anyone who is not, ties to the higher rank |
| `Apportion.LeftoverFits` | crates/cknerv-adapter-ckbadger/src/galaxy_composition.rs:1364-1371 | the leftover is a whole number of slots, fewer than there are positive remainders, so the subtraction cannot go under |
| `Apportion.SplitIsMonotone` | crates/cknerv-adapter-ckbadger/src/galaxy_composition.rs:1281-1285 | within one round a higher rank never gets fewer slots than a lower one |
| `Apportion.OvershootIsShort` | crates/cknerv-adapter-ckbadger/src/galaxy_composition.rs:1326-1331 | an entry that overshoots holds strictly less than its exact quota of what is undivided |
| `Allocate.ClampGrowsRatio` | crates/cknerv-adapter-ckbadger/src/galaxy_composition.rs:1326-1332 | clamping an overshooting entry never lowers what is undivided per open weight |
| `Allocate.ClampAll` | crates/cknerv-adapter-ckbadger/src/galaxy_composition.rs:1326-1332 | a clamping round keeps the totals, the ratio and the clamped entries' claims, never subtracts below zero, and clamps at least one entry |
| `Allocate.Commit` | crates/cknerv-adapter-ckbadger/src/galaxy_composition.rs:1320-1325 | every open entry takes its target and no other entry changes |
| `Allocate.CommittedIsSound` | crates/cknerv-adapter-ckbadger/src/galaxy_composition.rs:1320-1325 | ending by commitment is exact, robs nobody and follows the ranking, also against entries clamped in earlier rounds |
| `Allocate.CommittedIsDivided` | crates/cknerv-adapter-ckbadger/src/galaxy_composition.rs:1312-1332 | what is committed after any number of clamping rounds is a largest-remainder split, over the entries still open, of what the clamped ones leave |
| `Allocate.ExhaustedIsSound` | crates/cknerv-adapter-ckbadger/src/galaxy_composition.rs:1300-1311 | so does ending because nothing is left to hand out or nobody has a claim |
| `Allocate.Allocate` | crates/cknerv-adapter-ckbadger/src/galaxy_composition.rs:1293-1335 | each entry at most its supply, nothing for no weight, the total or all claimable supply handed out; everyone gets its rounded-down proportional share or all it holds; the entries not held to their supply split what the others leave by largest remainders of their own weights; a higher rank gets at least what a lower one gets or all it holds; where every supply covers the total, exactly one largest-remainder rounding; `count + 1` rounds always settle it |
| `Allocate.Proportional` | crates/cknerv-adapter-ckbadger/src/galaxy_composition.rs:1340-1342 | with nothing to clamp against, all of the total is handed out if anyone has weight, everyone gets the exact quota rounded down or up, and rank order holds outright |
| `Tail.CursorFor` | crates/cknerv-adapter-ckbadger/src/galaxy_composition.rs:204-215 | a fresh cursor addresses the standard it was made for |
| `Tail.AssetTail.Rewind` | crates/cknerv-adapter-ckbadger/src/galaxy_composition.rs:242-253 | a rewound asset starts from its head with nothing pending, and keeps its delivered count, its settled version and its cursor's kind |
| `Tail.CandidateTail.NoteEmitted` | crates/cknerv-adapter-ckbadger/src/galaxy_composition.rs:259-271 | everything a full discovery handed out becomes claimed, and the roster is marked stale without rewinding |
| `DaoTail.TakeDeposits` | crates/cknerv-adapter-ckbadger/src/galaxy_composition.rs:444-471 | one page claims exactly what it delivers, in order, nothing young and nothing past the ask, also when a row does not validate |
| `DaoTail.WalkDaoTail` | crates/cknerv-adapter-ckbadger/src/galaxy_composition.rs:411-480 | claims equal deliveries on every outcome; a turn that rewinds makes no call and finds nothing, and any other falls short of the ask only at the end of the index or after eight pages; on a static index, young rows included, it passes over no owed deposit without delivering it |
| `DaoTail.EmptyTurnShortens` | crates/cknerv-adapter-ckbadger/src/galaxy_composition.rs:423-430 | a turn that finds nothing while a deposit is owed comes closer to it, through the end of the index and the rewinding turn |
| `DaoTail.FindingPaysOff` | crates/cknerv-adapter-ckbadger/src/galaxy_composition.rs:468-470 | a turn that finds something owes strictly less, and by exactly what it handed out |
| `DaoTail.DrainDeposits` | crates/cknerv-adapter-ckbadger/src/galaxy_composition.rs:411-480 | liveness: on a static index finitely many turns of any positive ask deliver every unclaimed deposit that is old enough exactly once and nothing else, young rows in between or not |
| `TypedTail.TakeCandidate` | crates/cknerv-adapter-ckbadger/src/galaxy_composition.rs:968-978 | the claim, the delivery and the asset's count are one act |
| `TypedTail.TakeRows` | crates/cknerv-adapter-ckbadger/src/galaxy_composition.rs:748-767 | rows are claimed only while the ask is open and never when born past the anchor; unless the ask is met every matching row is claimed |
| `TypedTail.TurnPage` | crates/cknerv-adapter-ckbadger/src/galaxy_composition.rs:743-777 | a page read to its end moves the cursor or exhausts the asset, one that fails midway leaves both where they were |
| `TypedTail.StepPages` | crates/cknerv-adapter-ckbadger/src/galaxy_composition.rs:718-780 | pages are asked for where the last one left off, the cursor stands behind the pages read, everything on them is claimed unless the ask was met, and no other asset is touched (a family steps the same way) |
| `TypedTail.ResolveOneItem` | crates/cknerv-adapter-ckbadger/src/galaxy_composition.rs:936-963 | a settled version is the only one asked; otherwise the versions are asked in order, at one lookup each, up to the first that has the cell or all of them; on an unchanging index the answer is the cell of the first version that has one |
| `TypedTail.ListItems` | crates/cknerv-adapter-ckbadger/src/galaxy_composition.rs:885-905 | a page of the list becomes the queue, costs one page, and moves the list cursor or ends the list |
| `TypedTail.TryItem` | crates/cknerv-adapter-ckbadger/src/galaxy_composition.rs:907-929 | the next item leaves the queue, the index is asked about it, and a cell found in time is claimed |
| `TypedTail.StepCollection` | crates/cknerv-adapter-ckbadger/src/galaxy_composition.rs:861-932 | conservation of items: whatever was pending or listed was tried in order or is still pending, and every cell found in time is claimed; lookups stay within one page's cost of the limit |
| `TypedTail.StepAsset` | crates/cknerv-adapter-ckbadger/src/galaxy_composition.rs:650-714 | every cursor keeps addressing its asset's standard; a family the census cannot name is exhausted |
| `TypedTail.TakenKeepsUp` | crates/cknerv-adapter-ckbadger/src/galaxy_composition.rs:614-633 | a cursor survives a refresh once, by id, for the first row of the id and only if it is of the row's kind; counts start again at zero |
| `TypedTail.RefreshRoster` | crates/cknerv-adapter-ckbadger/src/galaxy_composition.rs:608-636 | the first row of an id goes on from the cursor the last asset of that id had, if that cursor is of the row's kind; every other row starts at its head; nothing counts as delivered yet and the roster is no longer stale; a failed refresh leaves the old roster |
| `TypedTail.ServePass` | crates/cknerv-adapter-ckbadger/src/galaxy_composition.rs:551-584 | a pass over the ranking ends with the ask met, the budget spent, or every asset at its share or exhausted; it touches an asset only once every higher rank is at its share or exhausted, and a deficit pass takes no asset past its share |
| `StaticTail.PageAdvances` | crates/cknerv-adapter-ckbadger/src/galaxy_composition.rs:718-780 | on an unchanging index a page read to its end claims something, or everything it passed was claimed and less is left |
| `StaticTail.ListingAdvances` | crates/cknerv-adapter-ckbadger/src/galaxy_composition.rs:885-905 | a page of items that becomes the queue puts nothing out of reach, and less is left |
| `StaticTail.TryingAdvances` | crates/cknerv-adapter-ckbadger/src/galaxy_composition.rs:907-929 | an item that leaves the queue settles a version, claims its cell, or leaves nothing unclaimed behind |
| `StaticTail.OneMoves` | crates/cknerv-adapter-ckbadger/src/galaxy_composition.rs:551-584 | progress of one asset is progress of the ranking, whatever the other assets do |
| `TopUp.TailShares` | crates/cknerv-adapter-ckbadger/src/galaxy_composition.rs:640-647 | the shares add up to what was delivered plus what is asked for, each its exact quota rounded down or up, higher ranks first |
| `TopUp.ServeTwice` | crates/cknerv-adapter-ckbadger/src/galaxy_composition.rs:551-584 | two passes under one budget: an asset goes past its share only once every asset is at its share or exhausted, and they end with the ask met, the budget spent or every asset exhausted |
| `TopUp.ServeRanking` | crates/cknerv-adapter-ckbadger/src/galaxy_composition.rs:549-588 | a turn that walks splits what the class would hold and serves deficits first; it falls short of the ask only if its budget is spent or every asset is exhausted |
| `TopUp.WalkTypedTail` | crates/cknerv-adapter-ckbadger/src/galaxy_composition.rs:521-589 | a turn over an exhausted ranking only rewinds; one that walks serves deficits first with at most eight pages and `100p + l < 900`; delivered counts sum to the candidates handed out since the last refresh; a turn falls short only if its budget is spent or every asset is exhausted |
| `TopUp.TopUp` | crates/cknerv-adapter-ckbadger/src/galaxy_composition.rs:323-392 | claims grow by exactly the returned outpoints, by nothing on an error, and no returned candidate is born past the anchor; each class is asked for what was wanted of it: on an unchanging index the deposits fall short only at the end of the index or after eight pages, and the typed candidates only if every asset is exhausted or the budget is spent, split by the shares of what is held and wanted; delivered counts grow by exactly the typed candidates returned, and start over exactly when the turn took a new roster |
| `TopUp.Serve` | crates/cknerv-adapter-ckbadger/src/galaxy_composition.rs:157-162 | over any interleaving of top-ups and discoveries no outpoint is offered twice, nor after a discovery handed it out; the delivered counts sum to the typed candidates handed out since the last new roster; after a discovery no typed candidate is handed out before a new roster is taken |
| `TypedDrain.AdvancingIsCloser` | crates/cknerv-adapter-ckbadger/src/galaxy_composition.rs:547-584 | a turn that walks leaves fewer collections unsettled, owes less, or comes closer to the end of the walk, and owes exactly what it owed less what it claimed |
| `TypedDrain.RewindingIsCloser` | crates/cknerv-adapter-ckbadger/src/galaxy_composition.rs:535-546 | a turn that rewinds while something is owed brings the whole debt ahead of the walk again |
| `TypedDrain.EndOwesNothing` | crates/cknerv-adapter-ckbadger/src/galaxy_composition.rs:535-546 | a walk that reaches the end of every asset without having passed anything unclaimed owes nothing |
| `TypedDrain.AllDrained` | crates/cknerv-adapter-ckbadger/src/galaxy_composition.rs:650-714 | once everything reachable is claimed, every token row, every family row and the cell of every item on its settled or first deployed version is |
| `TypedDrain.DrainTyped` | crates/cknerv-adapter-ckbadger/src/galaxy_composition.rs:521-589 | liveness: on an unchanging index and roster finitely many typed turns of any positive ask, through mid-page asks, budgets, deficit and remainder passes, queues and rewinds, leave claimed every row of every token's contract and of every known identity family, and of every collection item the cell on the settled version or else the first deployed version that has one; each outpoint once and only what the index names; exactly what was owed unless a collection's version becomes known on the way, so for every roster of tokens, identity families and collections whose version was known |
| `TopUp.NeverTwice` | crates/cknerv-adapter-ckbadger/src/galaxy_composition.rs:157-162 | offers that each avoid and then join the claims never repeat |
| `Interleave.PopUnseen` | crates/cknerv-adapter-ckbadger/src/galaxy_composition.rs:2445-2471 | a group's turn drops only seen candidates and takes the first unseen one, if any |
| `Interleave.HowMany` | crates/cknerv-adapter-ckbadger/src/galaxy_composition.rs:2445-2471 | picking stops at the ask or when the groups name nothing unseen, and a group falls behind only by running out |
| `Interleave.InterleaveGroups` | crates/cknerv-adapter-ckbadger/src/galaxy_composition.rs:2445-2471 | duplicate-free picks, as many as asked for or as there are distinct unseen outpoints, each group's in the group's order, in rounds in which an earlier group picks first and no group that has anything unseen is passed over; the seen set grown by exactly the picks, and pick counts differing by more than one only where the smaller group is exhausted |
| `Molecule.LeRoundTrip` | crates/cknerv-adapter-ckbadger/src/galaxy_composition.rs:1473-1475 | a length written as four bytes, the low one first, reads back reduced to 32 bits |
| `Molecule.BuildScriptPreimage` | crates/cknerv-adapter-ckbadger/src/galaxy_composition.rs:1462-1481 | the appended pieces are the Molecule table of the three fields, of the announced size |
| `Molecule.ScriptRoundTrip` | crates/cknerv-adapter-ckbadger/src/galaxy_composition.rs:1462-1481 | the preimage decodes back to code hash, hash type and args exactly when its size fits the 32-bit header |
| `Molecule.ScriptPreimageIsInjective` | crates/cknerv-adapter-ckbadger/src/galaxy_composition.rs:1462-1481 | different scripts have different preimages, of whatever size |
| `Molecule.SporeRoundTrip` | crates/cknerv-adapter-ckb/src/shape_seed.rs:97-116 | for every three-field SporeData the reader returns exactly the 32-byte cluster id, and nothing for an absent one, one of another length, or an encoding too large for its size word |
| `Molecule.ClusterIdIff` | crates/cknerv-adapter-ckb/src/shape_seed.rs:97-121 | on any bytes: an id is read exactly from those whose first word is their length, second is 16, fourth an offset inside with a word of 32 and 32 bytes behind it, and it is those bytes |
| `Molecule.ReadU32` | crates/cknerv-adapter-ckb/src/shape_seed.rs:118-121 | a word is read exactly when all four bytes are there |
| `LiveCells.Match` | crates/cknerv-adapter-ckb/src/rpc.rs:233-266 | verdict `k` is what the response with request `k`'s id says; it fails exactly when no such verdicts exist, because an id is missing, repeated or omitted or a response says nothing |
| `LiveCells.BatchClient.GetLiveCells` | crates/cknerv-adapter-ckb/src/rpc.rs:193-267 | request order is preserved, errors and dead cells read as no cell, an empty batch makes no call |
| `LiveCells.AnswersAreUnique` | crates/cknerv-adapter-ckb/src/rpc.rs:243-266 | a batch pins down at most one list of verdicts |
| `LiveCells.ReorderedAnswersAgree` | crates/cknerv-adapter-ckb/src/rpc.rs:189-192 | any rearrangement of the responses says the same (section 6 of the JSON-RPC 2.0 specification) |
| `Identity.CompositionIdForOutpoint` | crates/cknerv-core/src/identity.rs:19-30 | the id is 2^52 plus the FNV-1a hash of hash bytes and little-endian index, reduced below 2^51, so it depends on the outpoint alone; the same number is where probing starts |
| `Identity.FnvRuns` | crates/cknerv-core/src/identity.rs:19-30 | the hash starts at 0xcbf29ce484222325 and for every byte is XORed with it, then multiplied by 0x100000001b3 modulo 2^64 |
| `Identity.BitByBit` | crates/cknerv-core/src/identity.rs:19-30 | AND, OR and XOR are computed bit by bit on numbers of any size |
| `Identity.TagIsBitwise` | crates/cknerv-core/src/identity.rs:12-17 | tagging by OR over an AND mask, computed bit by bit, is adding the tag to a remainder, for every word |
| `Identity.ProbeAdvances` | crates/cknerv-adapter-ckb/src/galaxy_composition.rs:251-253 | the wrapping increment under OR and AND walks the band cyclically from the home slot |
| `Identity.BandHasRoom` | crates/cknerv-adapter-ckb/src/galaxy_composition.rs:246-255 | fewer than 2^51 admitted ids leave a slot free |
| `Identity.Admission.AllocateId` | crates/cknerv-adapter-ckb/src/galaxy_composition.rs:249-255 | probing ends whenever any slot is free, at the first free slot from the outpoint's own id, and admits exactly that id |
| `Hydrator.CkbHydrator.StageLive` | crates/cknerv-adapter-ckb/src/galaxy_composition.rs:61-111 | the confirmed candidates are staged in order until the target, each with a fresh id |
| `Hydrator.CkbHydrator.HydrateBatch` | crates/cknerv-adapter-ckb/src/galaxy_composition.rs:43-111 | only outpoints admitted before the chunk go unasked, and leaving them out of the request loses nothing |
| `Hydrator.CkbHydrator.HydrateBucket` | crates/cknerv-adapter-ckb/src/galaxy_composition.rs:33-114 | the first `target` candidates that were confirmed, capacity-matching and of the class's kinds (DAO deposits, plain cells, and for the typed class every other kind), where a candidate goes unasked exactly if its outpoint was admitted before or staged from an earlier chunk, and requests are numbered in candidate order; ids tagged, fresh and distinct; outpoints distinct and not admitted before if the target is below two or no chunk repeats one that was not; for an honest node exactly the first `target` candidates it confirms, whatever the batching |
| `Hydrator.HonestBucket` | crates/cknerv-adapter-ckb/src/galaxy_composition.rs:42-60 | over duplicate-free candidates chunks and admitted sets leave no trace in what is staged |
| `Hydrator.EligibleIsLive` | crates/cknerv-adapter-ckb/src/galaxy_composition.rs:61-95 | against one fixed set of live cells, what a class confirms is, in candidate order, exactly the candidates whose cell is live with the stated capacity and a deposit, plain, or neither |
| `Hydrator.CkbHydrator.HydrateGalaxyComposition` | crates/cknerv-adapter-ckb/src/galaxy_composition.rs:162-212 | across the three buckets all ids lie in [2^52, 2^53) and are distinct, so are outpoints if no chunk repeats one, and on an honest node the DAO bucket is the first `target` candidates whose live cell is a deposit of the stated capacity, the plain bucket those whose cell is plain, and the typed bucket those of any other kind |
| `Hydrator.CkbHydrator.HydrateGalaxyTopUp` | crates/cknerv-adapter-ckb/src/galaxy_composition.rs:119-160 | the same over the two classes that are topped up |
| `Hydrator.ClassesAreDisjoint` | crates/cknerv-adapter-ckb/src/galaxy_composition.rs:221-229 | no live cell belongs to two classes, so an earlier bucket never takes a cell a later one could stage |
| `Hydrator.OneClassEach` | crates/cknerv-adapter-ckb/src/galaxy_composition.rs:221-229 | every kind of cell belongs to exactly one class: DAO deposits, plain cells, everything else |
| `Hydrator.RepeatIsStagedTwice` | crates/cknerv-adapter-ckb/src/galaxy_composition.rs:42-60 | for every admission, candidate list, class and target of at least two in which some chunk repeats an outpoint that is not admitted there is a node, answering by request number, over which every bucket that `HydrateBucket` can return stages that outpoint twice; so staged outpoints are distinct for every node exactly when the target is below two or no chunk repeats such an outpoint |
| `Peers.KeyMeaning` | crates/cknerv-adapter-ckb/src/network.rs:149-163 | two peer lists share a key exactly when every node has the same rows in both: nothing structural is lost or added |
| `Peers.StructuralKeyMeaning` | crates/cknerv-adapter-ckb/src/network.rs:149-163 | two peer lists share a key exactly when they tell the same of every node: addresses, directions and versions, row by row, and never telemetry |
| `Peers.LeqIsLexicographic` | crates/cknerv-adapter-ckb/src/network.rs:161-162 | node ids are ordered by their first difference, a prefix before what it starts |
| `Peers.BlindToOrderIff` | crates/cknerv-adapter-ckb/src/network.rs:161-162 | the key is blind to enumeration order exactly when rows sharing a node id agree |
| `Peers.SortIsStable` | crates/cknerv-adapter-ckb/src/network.rs:161-162 | sorting by node id keeps each node's rows, in their order |
| `Dedupe.NetworkPollDedupe.Filter` | crates/cknerv-adapter-ckb/src/network.rs:192-246 | a poll extends the run by exactly what it lets pass |
| `Dedupe.KeysSeparate` | crates/cknerv-adapter-ckb/src/network.rs:198-240 | peers, sync state and node info are kinds of their own; two mutations of a kind share a key exactly when they agree on the peers' structure, on both sync fields, or on version, connections and peer id |
| `Dedupe.RefinesEmittingEveryTick` | crates/cknerv-adapter-ckb/src/network.rs:189-246 | after every poll of every run a client shows the same structure as one that is sent everything, and other mutations all pass in order |
| `Dedupe.TelemetryIsRecent` | crates/cknerv-adapter-ckb/src/network.rs:136-143 | what a client shows of a kind was read less than eight ticks before the latest poll that carried the kind |
| `Dedupe.SteadySegment` | crates/cknerv-adapter-ckb/src/network.rs:171-173 | after any run at all, a key that is new and then unchanged over N ticks passes exactly 1 + floor((N - 1) / 8) times more |
| `Dedupe.SteadyCount` | crates/cknerv-adapter-ckb/src/network.rs:171-173 | from the first poll of the process on, an unchanged key over N ticks passes exactly 1 + floor((N - 1) / 8) times |
| `Dedupe.ReorderingAdmitsNothingExtra` | crates/cknerv-adapter-ckb/src/network.rs:161-162 | nor, after any run, does listing the same peers in another order at every tick add anything |
| `Dedupe.OrderLeavesNoTrace` | crates/cknerv-adapter-ckb/src/network.rs:161-162 | two runs of any polls that differ only in the order in which peers are listed, where rows that share a node id agree, let the same mutations pass, up to that order |
| `Dedupe.ChangePassesAtOnce` | crates/cknerv-adapter-ckb/src/network.rs:190-191 | a changed key passes with the poll that first carries it |

## Left out

- HTTP, asynchronous scheduling, timeouts, backoff sleeps, logging and error messages: node and index are functions of
  the number of calls made so far, and a closed receiver of the stream is ignored.
- The prefetch of the discovery walk (`buffered`): blocks are asked for one at a time, so the requests of blocks below the
  stopping point, and the interleaving of retries among eight requests in flight, are not modelled.
- `Chain.Mutation`: `BlockMined` carries the parent hash the block was fetched with, which the program checks but does not
  send; timestamps, sizes and producers are not carried.
- Chain info, mempool and network fetching; `translate_block` and the decoding of JSON and hex.
- The chain and galaxy reducers, stores and server beyond the consumer fold of the stream; everything rendered.
- BLAKE2b: digests are opaque values. FNV-1a is computed bit by bit, but nothing is claimed about how well it mixes; how a
  transaction hash is written out as text is an arbitrary function.
- `LiveOutputs.ScanAgreesWithReplay`: assumes distinct outputs and no spend of a later output, as consensus guarantees;
  transactions with more than 2^32 outputs share a saturated position and fall outside it.
- `Poll.SyncCanonicalBlocks`: the convergence clause speaks of the cursor and of the blocks the consumer holds, because a
  live-only start anchors the block below the tip (block 0 at tip 0) without announcing it; it assumes that a block hash
  commits to the block.
- The counts that progress markers carry, and how often they are sent in between, are as in the program but part of no
  claim; the phase and state of the last one are.
- A chain of 2^64 blocks is scanned to all but its lowest block, and a retention window of 2^64 - 1 keeps one height less, as
  the saturating counters do; the claims say so where they bound a window or a horizon.
- `Adapter.Run`: that held blocks stay provable assumes that the persisted anchors cover the restored blocks within the
  horizon, which is for the store to guarantee; a height-only resume at the largest 64-bit height, where the boundary of a
  rollback saturates, is not covered.
- `DaoTail.DrainDeposits`: positions stand for the index's opaque cursors, and the index does not change while it is
  drained; against an index that changes only the claim properties of `TopUp.Serve` are stated.
- `TypedDrain.DrainTyped`: the same, and the roster is not re-taken meanwhile. A collection whose version becomes known
  during the walk is owed its cells on that version from then on, so the exact debt is only stated if none does.
- `Identity.Admission.AllocateId`: with all 2^51 slots taken the program would probe forever; a free slot is required.
- `LiveCells.BatchClient.GetLiveCells`: request ids are unbounded and do not wrap at 2^64; concurrent callers sharing the
  counter are not modelled.
- `Dedupe.NetworkPollDedupe.Filter`: the tick counter is unbounded; the adapter's own node id and host label are not
  part of any key, as in the program.
- The first discovery of a composition (`discover_dao`, `discover_typed`, `discover_plain`, overfetch and group budgets), the
  script and asset taxonomies and the pinned version tables: their kinds enter as values.
- Hydrated Cell fields other than id, outpoint, birth block, capacity and asset kind are copied from the node's answer and
  not modelled.

# Codex Provider Switcher: a verified model

The switcher is a proxy between Codex Desktop and a Codex app-server. It moves a
thread from one model provider to another while several Desktop connections may have
it open, cleans the thread's rollout file of records
that the new provider would refuse, and keeps both safe across lost replies and
crashes. This project models four parts of it and proves what they are for.

**Provider handoff and recovery.** Every live connection is a session with its own
cached route, its marks and its suppression of notifications (`Handlers`). The
sessions of a thread share a lock, a dirty marker, a recovery journal and one
app-server (`ThreadState`). The protocol of `internal/transport/session.go` runs over
that state one observable step at a time (`Handoff`, `Jobs`). Between any two steps
sessions may die, join or be notified. A peer may be gone, not reached, or have acted
although its answer was lost. The app-server has the thread loaded under some route or
not at all, which no session can see: a resume or a listing of a loaded thread reports
that route, a resume of an unloaded one loads it, and it is unloaded when it is archived
or closed, or while nobody is subscribed. Beyond that it does what it likes. A
session that dies in the middle of a job releases its lock, and the rest of the job
has no effect, so the invariant that every step keeps is a statement about every
crash point. `Subtree`, `JournalRecord` and `JournalStore` are the enumeration a recovery starts from,
the journal as it is written, and the store it relies on. `Multiplex` is the routing of responses between Desktop
and the proxy's own calls on one connection.

**The rollout sanitizer.** A JSON text is a syntax tree that keeps every byte
(`JsonText`, the grammar of RFC 8259), so duplicate keys, case aliases, escapes and
whitespace are all there. `KeyScan` is the hand-written key scanner, `GoJson` the map
decoding and the encoder, `Sanitize` the struct decoding, the fast path and the
rewriter, `SanitizedRecord` what a rewritten record looks like, `ContextPatch` the
textual context edit and `ContextEffect` what it does to the decoded record, `ScanJsonl`
and `RewriteLoops` the line stream, `RolloutProofs` and `SecondRewrite` what whole scans
promise, and `PatchMisses` two records where the context edit hits the wrong place. `Certificate` is the cache that skips
scans, as a machine over append-only inodes. `Lineage` is the cleaning of the
histories that forks share.

**The writer lock.** `WriterLock` takes the unlink-on-release lock apart into system
calls of any number of processes over inodes.

**The plain and the compressed history.** `HistorySwap` keeps, for each directory
entry, everything a crash may leave of it.

Functions specify; methods with loops and classes with updated fields are proved
against them where the program is written that way. The machines (`Certificate`,
`WriterLock`, `Multiplex`) are step functions over events, because their point is the
interleaving; their theorems are about `Run` over every event sequence.

Assumptions, stated in the models: bytes are characters; hashes are injective; a
rename or a link is one step; inodes are append-only, their numbers are not reused
while a certificate names them, and their stamps never recur; the app-server answers
each request at most once; the ids a session gives its own calls are fresh; nothing is
delivered after the sockets are closed; archiving a thread takes only listed threads
with it; a write that fails has not reached the app-server; a `thread/closed`
notification reaches a session before it subscribes again.

Where the code does less than a first reading suggests:

- A context change that would lengthen a record is undone but still counted
  (`ScanJsonl.CleanRecord`), so a certificate says that a scan changes nothing, not
  that no foreign model remains.
- `SanitizeAncestors` succeeds and cleans nothing when an ancestor cannot be located.
- A listener is lost when the answer to an unsubscribe is lost on a session that does
  not know it is subscribed (`Handlers.ListenerLostOnlyIf` gives the exact condition).
  A handoff therefore promises its listeners back when it succeeds, and to sessions
  that the app-server did not close the thread on meanwhile.
- What a turn is checked against is the route the session observed since it took the
  lock, and that may be a remembered one. A subscribed session's memory is true, so its
  turns reach the target's provider. A session that is not subscribed may remember what
  was listed of an unloaded thread while another client loads it under another provider
  (`ThreadState.StaleTurn` is such a turn); being subscribed is exactly what makes the
  memory certain (`ThreadState.CacheIsSure`).
- A turn whose connection died stays with the app-server, and the lock is free: the next
  turn may go out while it is unanswered (`ThreadState.TwoTurns`). Of the live sessions
  never more than one awaits an answer.
- A peer call that takes effect after its sender died or gave up can detach a session
  after the marker is gone; `ThreadState.LateCall` says exactly when.
- A recovery whose journal would be longer than 16 KiB is refused, which 64 ids of 130
  bytes already cause; a journal exactly at the limit is accepted and then refused when
  the recovery starts restoring (`JournalRecord.RestoringFits`).
- The context edit replaces the value behind the first text of the key. Where that text
  is a value itself, the value of the next key is replaced: the rewrite may count an item
  the input did not have, or lose an ordinal (`PatchMisses`).
- A second Desktop request under an id that is still in use gets an error reply of its
  own; the replies are counted per request, not per id.

## Model

| member | source | states |
|---|---|---|
| Jobs.Live | internal/transport/session.go:288-424 | over any sequence of turns, answers, resumes, unsubscriptions, deaths, joins, notifications and unasked moves of the app-server by any number of sessions, every turn ever written and every switch ever saved was safe at that moment (lock held, no dirty marker, no journal, every live peer ready or newer than the lock, the provider or for a switch the whole route observed under the lock, no other live session's turn unanswered), the thread of a subscribed session was then really loaded with the target's provider, and the shared invariant holds |
| Jobs.TurnStart | internal/transport/session.go:288-424 | a turn goes out only after peers, journal, marker and route were settled under the lock; if it is written the lock stays with it, otherwise it is given back |
| Jobs.PlanRoute | internal/transport/session.go:327-355 | a switch wants its own target; a user turn keeps the selected provider, or the provider that was observed, whatever model it asks for |
| Jobs.ThreadResume | internal/transport/session.go:515-600 | a resume is forwarded only under the lock with the journal repaired first; if sanitation met an active writer on a thread the session knows loaded, and only then, the thread was handed off in between, with all that a handoff promises; the shared invariant holds whatever fails |
| Jobs.ThreadUnsubscribe | internal/transport/session.go:250-286 | Desktop's own unsubscription under the lock leaves the shared invariant intact whatever fails |
| Jobs.ReadyToWrite | internal/transport/session.go:388-424 | readiness and the lock, once established, survive every later step of the job up to the write |
| Handoff.HandOff | internal/transport/session.go:609-673 | success means: marker and journal gone, nobody detached, every cached route absent or matching the target, the target's route observed, the thread loaded with its provider as long as the session stays attached, and every session that was subscribed is subscribed again or had the thread closed on it |
| Handoff.UnsubscribeAll | internal/handoff/coordinator.go:362-366 | success leaves no cached route, and marks every session that was subscribed, with the marker on disk throughout |
| Handoff.ResumeUnderTarget | internal/transport/session.go:627-658 | a verified resume under the target, through sanitation or the journaled recovery, with no listener's mark lost |
| Handoff.ResubscribeAll | internal/transport/session.go:659-672 | from marked listeners to subscribed ones; the marker is removed only when nobody is detached |
| Handoff.Settle | internal/transport/session.go:356-387 | the decision between nothing, the same-provider repair and a full handoff always ends with no marker and a route that was observed and fits: the provider for a turn, the whole route for a switch |
| Handoff.RepairSameProvider | internal/transport/session.go:426-441 | success means nobody is detached and the marker is gone; the journal is untouched |
| Handoff.RecoverProviderMismatch | internal/transport/session.go:714-787 | at every step what is archived is in the durable journal; success means everything is back, the journal is gone, no listener's mark is lost and the target's route was verified |
| Handoff.UnarchiveRemaining | internal/transport/session.go:756-764 | the loop ends with nothing archived and nothing remaining, the journal saved after each thread; a repair also accepts a verified "not archived"; with a responsive app-server it succeeds, since the journals only get shorter |
| Handoff.RepairRecoveryJournal | internal/transport/session.go:789-881 | from any crash point success means no journal and nothing archived; with responsive peers and app-server and no running turn nothing stays archived, and it succeeds if and only if the thread is not loaded under another route and the fingerprint to be recorded fits the journal |
| Handoff.BeginRecoveryAll | internal/handoff/coordinator.go:389-408 | suppression starts only under a journal; a failed start is rolled back; marks and caches are untouched |
| Handoff.PrepareTurnPeers | internal/transport/session.go:443-462 | success means every live session answered ready since the lock was taken, or joined later |
| ThreadState.Thread.VisitPeers | internal/handoff/coordinator.go:534-565 | a successful visit establishes its effect at every live session, newcomers included; a failed one never loses a listener unless it is an unsubscription; owed listeners, marks, matching caches and the route the caller is on are kept; if every peer would accept, the visit succeeds |
| ThreadState.Thread.CallPeer | internal/handoff/coordinator.go:579-612 | one call is skipped as stale only if the peer is gone, and otherwise applied with or without an answer, or not applied |
| ThreadState.Thread.Meanwhile | internal/transport/session.go:1455-1470 | deaths, joins, notifications and unasked moves of the app-server between two steps keep the invariant and only weaken what is remembered |
| ThreadState.Thread.WriteTurn | internal/transport/session.go:410-424 | a turn may be written only when safe and, by a subscribed session, to the loaded provider; the lock stays with it while it is unanswered; it is the only unanswered turn if and only if no session died with one that is still out; a failed write gives the lock back |
| ThreadState.Thread.AnswerTurn | internal/transport/session.go:1407-1449 | the answer to the outstanding turn, and only that, releases its lock; neither the loaded provider nor any remembered one changes |
| ThreadState.Thread.SaveSwitch | internal/transport/session.go:388-399 | a switch may be saved only when safe and the whole route was observed |
| ThreadState.Thread.SetDirtyStage | internal/handoff/coordinator.go:210-256 | a failed write leaves the old stage or the new one, never nothing |
| ThreadState.Thread.ClearDirty | internal/handoff/coordinator.go:350-359 | the marker may be removed only when nobody is detached |
| ThreadState.Thread.ClearJournal | internal/recovery/store.go:144-160 | the journal may be removed only when nothing is archived and nobody's notifications are suppressed |
| ThreadState.Thread.InternalResume | internal/transport/session.go:980-1022 | success means the session is subscribed and the thread is loaded with the reported route, which matches; a mismatch keeps the mark and remembers nothing; owed listeners and matching caches are kept |
| ThreadState.Thread.EffectiveRoute | internal/transport/session.go:1541-1568 | the route a turn works with was remembered or listed while the lock was held, and is the provider the thread is loaded with if the session is attached to it |
| ThreadState.CacheIsSure | internal/transport/session.go:1541-1545 | an attached session's remembered provider is the loaded one in every state that looks the same to it if and only if it is subscribed |
| ThreadState.StaleTurn | internal/transport/session.go:1547-1568 | a concrete state: a session that is not subscribed remembers a listed route, another client loads the thread under another provider, and the turn is written all the same |
| ThreadState.TwoTurns | internal/transport/session.go:410-424 | a concrete state: a dead session's turn is unanswered and a second turn is safe to write |
| ThreadState.LateCall | internal/handoff/coordinator.go:579-612 | a call that takes effect late leaves a detached session without a marker if and only if it is an unsubscription of a resting session that remembers a route or is told it was subscribed, and no marker is left |
| ThreadState.MovedKeeps | internal/transport/session.go:1455-1470 | every death, join, notification, unloading, foreign load, close, model change and late answer keeps the invariant |
| ThreadState.DriftTransitive | internal/transport/session.go:1455-1470 | what may change while a job takes no step composes over any number of events |
| ThreadState.VisitStep | internal/handoff/coordinator.go:548-561 | one call of a visit, with whatever happened before it, makes progress and loses no owed listener unless an unsubscription went unanswered |
| Handlers.Session.Unsubscribe | internal/transport/session.go:1250-1276 | the handler as a function of its session, the subscription and the answer; every other thread of the session is untouched |
| Handlers.Session.Resubscribe | internal/transport/session.go:1280-1291 | reattaches only a detached session and only under a matching route |
| Handlers.Session.Restore | internal/transport/session.go:1295-1316 | reattaches a detached session under whatever route is loaded |
| Handlers.Session.BeginRecovery | internal/transport/session.go:1647-1665 | suppresses exactly if the session rests and the ids are valid and distinct and hold the thread |
| Handlers.Session.Suppressed | internal/transport/session.go:1675-1692 | a notification is dropped exactly if some recovery lists its thread |
| Handlers.UnsubscribedIsRemembered | internal/transport/session.go:1250-1276 | after an answered unsubscription the session is marked exactly if it was subscribed, marked or had a cached route |
| Handlers.ResubscribedIsAttached | internal/transport/session.go:1280-1291 | an accepted resubscription leaves the session attached, and a formerly detached one subscribed under the expected route |
| Handlers.ListenerLostOnlyIf | internal/transport/session.go:1250-1276 | a handler leaves a listener neither subscribed nor marked if and only if the answer to an applied unsubscription is lost on a session that does not know it is subscribed |
| Multiplex.ResponsesFindTheirAsker | internal/transport/session.go:1211-1247 | over all runs no internal response reaches Desktop even after its caller gave up, no id in use is given to a second request, no response goes astray, each Desktop request gets at most one reply |
| Multiplex.LocksAreReleasedOnce | internal/transport/session.go:1694-1711 | over all runs a lock taken for a request is held while it is written and unanswered and released exactly once when it is over |
| Multiplex.AnswersReachTheCall | internal/transport/session.go:1386-1408 | a waiting call's request is with the app-server, and its answer will reach it |
| Multiplex.Router.TrackDesktopRequest | internal/transport/session.go:1334-1348 | an id is tracked exactly if neither table uses it |
| Multiplex.Router.HandleResponse | internal/transport/session.go:1396-1409 | the answer goes to whoever waits under its id: an internal id, abandoned or not, never reaches Desktop, a tracked id reaches its own request, an unknown one is passed on; the id is free afterwards and no other changes |
| Multiplex.Router.AbandonInternalRequest | internal/transport/session.go:1362-1368 | an abandoned id stays in use, cannot be tracked, and its answer will be dropped; no other id changes |
| Multiplex.Router.RemoveDesktopRequest | internal/transport/session.go:1350-1354 | afterwards no Desktop request waits under this id, and every other id is as it was |
| Multiplex.Router.AwaitResponse | internal/transport/session.go:1211-1220 | the call's own id is in use from then on and its answer will go to the call |
| Multiplex.Router.CloseState | internal/transport/session.go:1694-1703 | empties both tables and hands back the tracked requests, whose locks are then released |
| Subtree.InspectRecoverableSubtree | internal/transport/recovery_client.go:110-207 | succeeds exactly if the root rests and the listing is complete: cursors fresh, ids valid and distinct, at most 64 with the root, every parent chain reaching the root; then returns all of them without repeats, deepest first and by id among equals, so each before its parent, root last |
| Subtree.DepthWalk.Depth | internal/transport/recovery_client.go:166-192 | the memoised recursion terminates and yields a depth exactly if the thread reaches the root |
| Subtree.ListDescendants | internal/transport/recovery_client.go:121-164 | the paging loop succeeds exactly on a well-formed listing and then holds exactly its parents |
| Subtree.CycleNeverReaches | internal/transport/recovery_client.go:172-174 | a thread on a parent cycle reaches no root |
| Subtree.OrderedIsDeepestFirst | internal/transport/recovery_client.go:200-206 | sorting by depth puts every thread before its parent |
| Subtree.ListIsJournalReady | internal/recovery/store.go:180-188 | the enumerated ids are distinct, few enough and end with the root |
| JournalStore.ValidateJournal | internal/recovery/store.go:167-195 | accepts exactly the valid journals: limits, distinct ids, root last, remaining a suffix |
| JournalStore.Store.Save | internal/recovery/store.go:95-141 | only valid journals whose encoding fits 16 KiB are stored, each under its root, replaced as a whole or not at all |
| JournalStore.Store.Load | internal/recovery/store.go:63-92 | what is loaded is what was saved, valid and within the limit |
| JournalStore.Store.Clear | internal/recovery/store.go:144-160 | removes this root's journal and no other |
| JournalRecord.NextFits | internal/transport/session.go:756-763 | taking the first remaining thread off a stored journal leaves a valid journal that is no longer than before, whatever its phase was |
| JournalRecord.RestoringFits | internal/transport/session.go:752-755 | saying that restoring has begun is accepted if and only if the encoding was below the limit, not at it |
| JournalRecord.LongIdsDoNotFit | internal/recovery/store.go:99-102 | 64 threads with ids of 130 bytes are refused, though every id is within its own limit |
| JournalStore.EnumerationIsStorable | internal/transport/session.go:731-739 | the first journal of a recovery is accepted if and only if no id is too long and the front of the encoding and twice the encoded list fit 16 KiB |
| JournalStore.RecordsAreJournals | internal/recovery/store.go:167-195 | what the store accepts is what the protocol assumes of a journal, and the protocol's journal is written back as the same record |
| KeyScan.ScannerExact | internal/rollout/sanitize.go:359-424 | on the text of any JSON value, with any whitespace and escapes, the scanner's verdict is the tree's: every key at every depth unescaped ASCII without capitals, no object with a repeated routing key |
| KeyScan.CanonIsCanonical | internal/rollout/sanitize.go:356-358 | the recursive verdict is the statement about all objects of the value |
| KeyScan.CanonicalJsonKeys | internal/rollout/sanitize.go:359-424 | the index-driven scanner with its stack computes the specified scan on every byte string |
| Sanitize.FastRefinesSlow | internal/rollout/sanitize.go:466-575 | for every line and mode the fast path and the conservative rewriter agree on bytes, flags, counts and error |
| Sanitize.CleanObjectSame | internal/rollout/sanitize.go:429-464 | on canonical keys a record the struct decoder finds clean is one the map-based rewriter leaves alone |
| Sanitize.CleanItemsKept | internal/rollout/sanitize.go:454-462 | the same for every item of a compaction |
| Sanitize.RoutingLookup | internal/rollout/sanitize.go:356-358 | with canonical keys an exact last-wins lookup finds the only occurrence of a routing key |
| SanitizedRecord.RewrittenRecord | internal/rollout/sanitize.go:478-616 | an accepted record has no stale id left; its counters count exactly the stale items; survivors keep order and every other field; other envelope fields, the newline and, if numbered, the length are kept |
| SanitizedRecord.SecondPass | internal/rollout/sanitize.go:466-575 | a rewritten record is left alone by a second pass in either mode |
| GoJson.QuoteReadsBack | internal/rollout/sanitize.go:577-585 | a key that was decoded and written again is legal JSON and reads back as itself |
| GoJson.MapReadsBack | internal/rollout/sanitize.go:577-585 | a written map reads back as the same map |
| JsonText.DocParses | internal/rollout/sanitize.go:480-483 | the parser reads every legal text back as the tree it was written from |
| ContextPatch.ReplaceStringOneLine | internal/rollout/context.go:86-119 | the string patch keeps a record on one line with its newline |
| ContextPatch.ReplaceRawOneLine | internal/rollout/context.go:121-155 | the raw patch keeps a record on one line with its newline whenever the result is still JSON |
| ContextEffect.PatchSetsTheModel | internal/rollout/context.go:44-84 | where the first text of the model's key is the payload's own string, and the first text of the hash's key, if there is one, the payload's own string, number or word: the patched record still reads, its context names the target's model, its compatibility hash is null, every other field of the context and of the record (type, ordinal) is as it was, and a second patch leaves it alone |
| ContextEffect.StringReplaced | internal/rollout/context.go:86-119 | there the string patch yields the text of the same tree with that one value replaced |
| ContextEffect.RawReplaced | internal/rollout/context.go:121-155 | likewise for the raw patch of a string by null |
| ContextEffect.LiteralReplaced | internal/rollout/context.go:121-155 | likewise for the raw patch of a number or a word, which also takes the blanks behind it up to a newline |
| ContextEffect.EscapedQuote | internal/rollout/context.go:113 | the model as the patch writes it, HTML characters escaped, reads back as itself |
| RolloutProofs.OffsetsKept | internal/rollout/sanitize.go:250-340 | a successful rewrite of a paginated rollout, or with offsets preserved, keeps the number of records, each length and each newline, through stripping, replacing, compaction cleaning and context patching, and the ordinal of every record but those a patch hits in the wrong place |
| RolloutProofs.OrdinalsKept | internal/rollout/sanitize.go:250-340 | the same for the ordinals of any successful rewrite |
| PatchMisses.OrdinalIsLost | internal/rollout/context.go:121-155 | a concrete numbered record, patched in the wrong place, is accepted in either mode and written with the ordinal null |
| ScanJsonl.PatchKeepsLine | internal/rollout/context.go:67-83 | a patched context that is accepted is one record where there was one |
| RolloutProofs.ShapeKeepsBoundaries | internal/rollout/sanitize.go:304-316 | equal shapes have the same record boundaries at the same byte offsets |
| RolloutProofs.IncrementalIsFull | internal/rollout/cache.go:91-120 | after a clean prefix that ends in a newline the suffix scan gives the full scan's error, verdict and mode |
| RolloutProofs.RewriteIsClean | internal/rollout/sanitize.go:250-340 | a rewrite under any policy leaves no stale item anywhere, reports a change exactly if some record has a stale item or a patch that does not lengthen it, counts the patches, and its two counters sum to the stale items of the input and of the patched texts |
| RolloutProofs.CountersAreExact | internal/rollout/sanitize.go:250-340 | the counters sum to the stale items of the input if and only if no patched text has a stale item, so in particular if every patched text is still a turn context |
| PatchMisses.CountersCountMore | internal/rollout/context.go:86-119 | a concrete record without items that a patch turns into a response item: the rewrite succeeds and counts one |
| SecondRewrite.RewriteIsIdempotent | internal/rollout/sanitize.go:250-340 | a second rewrite succeeds, is byte-identical and counts nothing |
| SecondRewrite.HeaderStays | internal/rollout/sanitize.go:268-280 | a rewritten first record still decodes as a header |
| RewriteLoops.LineReader.ReadLine | internal/rollout/sanitize.go:252-265 | a line of any length comes whole out of a fixed buffer with a reused spill |
| RewriteLoops.ScanJsonlFrom | internal/rollout/sanitize.go:250-340 | the loop over the reader computes the specified scan, early exit and error verdict included |
| RewriteLoops.SanitizeItems | internal/rollout/sanitize.go:507-521 | the item loop computes the specified cleaning |
| RewriteLoops.ReplaceJsonStringField | internal/rollout/context.go:86-119 | the index loops compute the specified string replacement |
| RewriteLoops.ReplaceField | internal/rollout/context.go:121-155 | the index loops compute the specified raw replacement |
| Certificate.CertificatesAreSound | internal/rollout/sanitize.go:108-153 | over all runs of appends, replacements, removals and scans under any policies, "cached" is answered only for a version whose full scan raises no error and changes nothing and whose rewrite would be byte-identical, and every stored certificate is true of the version it names |
| Certificate.StepKeeps | internal/rollout/cache.go:44-120 | every single system call of every scan keeps the certificates sound |
| Certificate.InspectFromExact | internal/rollout/cache.go:91-120 | a scan that skips what a sound certificate vouches for decides as the full scan does |
| Certificate.NextIsSound | internal/rollout/cache.go:118-119 | the certificate made from a scan that changed nothing is sound for every policy with its key |
| Certificate.SameKeySameScan | internal/rollout/context.go:29-42 | policies with the same key scan alike, whatever the order of their models |
| Certificate.CleanRewrite | internal/rollout/sanitize.go:139-152 | an inspection without a change means a rewrite of the same text succeeds and changes no byte |
| Certificate.InspectSanitation | internal/rollout/cache.go:91-120 | seeking, scanning and certifying compute the specified inspection |
| Lineage.Histories.SanitizeAncestors | internal/rollout/lineage.go:16-76 | a walk that succeeds has fewer than 32 distinct ancestors, none the start; they are cleaned oldest first, all of them on success, and are then settled; every file keeps its length and record boundaries; no other file changes; a missing ancestor means success without any change |
| Lineage.WalkAncestors | internal/rollout/lineage.go:18-65 | the walk terminates, follows recorded bases with cutoffs inside their files, and ends at an original or a self-continuing rollout |
| Lineage.Histories.SanitizeFile | internal/rollout/sanitize.go:108-240 | a shared history is left alone or replaced in one step by its specified rewrite |
| Lineage.CleaningKeepsOffsets | internal/rollout/lineage.go:66-75 | cleaning a shared history keeps its length and every record boundary |
| Lineage.CleaningKeepsOrdinals | internal/rollout/lineage.go:66-75 | cleaning a shared history keeps the ordinal of every record |
| Lineage.CutoffStays | internal/rollout/lineage.go:59-62 | a recorded cutoff stays on its boundary and inside the file |
| Lineage.CleanedOnce | internal/rollout/lineage.go:66-75 | a cleaned history is one that cleaning leaves alone |
| Lineage.PathsDistinct | internal/rollout/lineage.go:84-113 | distinct ancestors have distinct files, because a rollout says whose it is |
| WriterLock.MutualExclusion | internal/rollout/sanitize.go:618-671 | under every interleaving of open, flock, unlock, unlink and death by any number of processes at most one holds the lock, and its inode is the one the path names |
| WriterLock.StepKeeps | scripts/history-maintenance.py:50-59 | every system call of either implementation keeps the lock's invariant |
| WriterLock.NothingIsWedged | internal/rollout/sanitize.go:618-671 | after any run, once every process is idle or gone, the lock can be taken |
| WriterLock.UncoordinatedIsUnsafe | internal/rollout/sanitize.go:623-634 | a concrete run of the same calls without the coordination lock ends with two holders |
| HistorySwap.HistoryStore.PreparePlain | internal/rollout/compression.go:43-134 | at every step and crash point the history resolves; success leaves the plain copy durable and the compressed one gone; an existing plain copy is never touched |
| HistorySwap.HistoryStore.CompressOne | scripts/history-maintenance.py:127-153 | at every step and crash point the history resolves; success leaves a durable compressed copy that decodes to it; nothing happens beside an existing compressed copy |
| HistorySwap.HistoryStore.Append | internal/rollout/compression.go:126-128 | after an append readers find the longer history even beside a compressed copy left by a crash |
| HistorySwap.HistoryStore.Crash | internal/rollout/compression.go:121-132 | any combination of what a crash leaves of the two entries resolves to an acceptable history |
| HistorySwap.Live | internal/rollout/compression.go:18-37 | over any sequence of restorations, compressions, writes, syncs and power losses, each failing anywhere, readers find everything written, and a power loss costs at most what was written since the last sync |
| HistorySwap.SyncBeforeUnlinkMatters | internal/rollout/compression.go:121-128 | without the first directory sync a crash could lose both copies |

## Left out

- Sockets, WebSocket framing, timeouts and polling: a call has only its abstract outcomes. A call that takes effect only after its sender stopped waiting for it, or died, is one lemma about any state (ThreadState.LateCall) and no event of the runs.
- Retrying and naming fresh threads that have no rollout yet: bounded by time, not by logic.
- A session configured without a selection store or a recovery store.
- Other roots' recoveries: the shared state is that of one thread, so a notification suppressed by another root's recovery appears only in `Handlers.Session.Suppressed`.
- thread/settings/update: takes the same lock, forwards and saves a model; it writes no turn and moves no provider.
- File modes, symbolic links, path validation and the contents of audit files.
- Replacement of invalid UTF-8 by the JSON decoder, its nesting limit, and number formats beyond integers: scalars are kept as raw text.
- ContextEffect.PatchSetsTheModel: says nothing of a record where the first text of either key is elsewhere, since the patch then edits that place; PatchMisses has two such records, and lines, lengths and cleanness are proved for every record all the same.
- RolloutProofs.OffsetsKept: ordinals of records patched in the wrong place are not promised; whether such a patch touches the ordinal depends on the bytes between the text it finds and the next value.
- Rewrite under a context policy: idempotence is not stated, since an undone patch is counted again.
- Certificate: an inode number that is reused for another file of the same path and thread is excluded by assumption; the certificate file's own format and limits are not modelled.
- HistorySwap: the age, access and metadata checks of compress_one are arbitrary verdicts, and the codec is any decoder.
- The provider command grammar, the model catalog, the selection store, request rewriting, fork previews, and command-line and shell glue.

# A peer-to-peer gateway, verified

A Dafny model of the state machines, tables and text formats of a peer-to-peer
capability gateway, with proofs of what they keep. Tables are maps, the network
and the clock are oracles and parameters, hashing and signatures are abstract
functions, strings are sequences of characters with a UTF-8 width.
`dafny verify dfyconfig.toml` checks the project.

## Components

| files | what they model |
|---|---|
| `Conversations`, `Journal`, `Context` | the append-only turn log, out-of-order journalling of tool pairs, the window the planner sees |
| `Runtime`, `RuntimeCoherence`, `RuntimeSafety`, `RuntimeAccess`, `RuntimeDrift`, `NodeRuntime` | the concurrent runtime: conversation mutexes, planner semaphore, LRU cache over the log, eviction on failure; any planner that writes what it pushes |
| `AntiReplay`, `AntiReplayBound` | skew check, nonce table and pruning shared by `/messages` and `/blobs`, in nanoseconds |
| `Text`, `Mentions`, `MentionGrammar`, `MentionRoundTrip`, `MentionScopes` | the mention grammar: parser, printer, stripper, scope |
| `PeerDirectory`, `Bootstrap`, `BootstrapReach` | the peers table, descriptor refresh, reverse-announce, and the bounded breadth-first bootstrap walk |
| `BlobPath`, `BlobIndex`, `BlobServer`, `BlobTickets`, `BlobServerRuns` | path sanitising, the four blob classes, the blob endpoint with quotas, retention and garbage collection |
| `Lobes`, `Pulse`, `Embeddings` | lobe membership and hot reload, the dashboard's buckets, re-ordering of embedding answers |
| `Options`, `Access`, `Collections` | what several of them share |

Each object the source updates in place is a class; its methods are proved equal
to a function of the old state, and the properties over runs are lemmas about
those functions.

## Where the code falls short of a promise

Each case is proved by the lemmas it names, beside the condition under which the
promise holds.

- A conversation that a crash left with a call but no result is repaired in
  memory only. After the next written turn the cached turns and the log differ
  (`RepairIsNotWritten`), and a later dispatch starts from the cached ones
  (`NextDispatchStartsDrifted`). They differ exactly when the view holds a result
  invented for a call the log has gone past (`DispatchStartsFromTheLog`). The last
  seq always agrees, so no append collides; a cache miss always starts afresh
  (`MissStartsFresh`); planners that write whole pairs never meet the case
  (`WholePairsNeverDrift`).
- A mention value that needs quotes and itself holds a double quote cannot be
  printed so that it parses back (`UnspellableIsLost`); every other can
  (`RoundTrip`). Only a peer or lobe mention written with a trailing `/`, which the
  parser drops, can have such a value (`UnspellableIsDroppedSlash`), for instance
  the one in `@peer:a"b./` (`UnspellableOccurs`).
- Cutting a path at 255 bytes can leave `.` or `..` as its last segment
  (`CutCanLeaveParent`), contrary to the comment at crates/core/src/blob.rs:277:
  exactly when the limit falls just behind such a prefix (`SanitizedIsSound`,
  `SanitizeAgain`).
- A row keeps its first uploader. Two peers that upload the same bytes around an
  expiry can push the first one past its quota (`SharedHashEscapesQuota`): exactly
  when an upload writes more over a row of its than its own quota allows
  (`PutKeepsQuota`, `QuotaHoldsExactly`).
- A row keeps its first whitelist. A reader can tell whether the collector ran
  before a re-upload (`ReadersSeeTheCollector`): exactly when the old row and the
  new ticket do not list it alike (`ReuploadTells`), so never when the uploads of
  each hash list it always or never (`GcIsInvisibleToReaders`).
- An output whose bytes had been lost and are downloaded again keeps the class its
  row had, because an upsert never rewrites it; an output whose bytes are held
  moves to class B, as promised (`FetchOutput`, `ClassIsHistory`).
- The extension of a MIME type outside the table loses its dashes, contrary to the
  example at crates/core/src/blob.rs:323 (`DashesGo`); `OtherTypes` says what it is.
- Stamps of two years before 0 need not sort by time (`StampsSortByTime`), and a
  window that ends before time zero can lose rows (`LastRowIsLost`), each with its
  exact condition.
- The anti-replay window tolerates a verify-to-insert delay of exactly
  `(ttl - 2 skew - 2)` seconds and 2 nanoseconds, not more
  (`LongerDelayAdmitsReplay`); with the shipped policy that is just under 50 minutes.

## Model

| member | source | states |
|---|---|---|
| `RuntimeSafety.DispatchStartsFromTheLog` | crates/node/src/runtime.rs:108-194 | From any tables and in every interleaving of requests and API calls, a dispatch that has not written yet starts from the conversation, owner and last seq a fresh load would give, and from its turns (timestamps aside) with results invented for some calls the log has gone past: from exactly its turns if and only if there are none of these |
| `RuntimeSafety.UnscarredStartsExactly` | crates/node/src/runtime.rs:108-194 | On a log without a call that was gone past unanswered, the dispatch starts from exactly the turns of a fresh load, whatever the LRU dropped |
| `RuntimeSafety.MissStartsFresh` | crates/node/src/runtime.rs:122-127 | On any log, a dispatch that missed the cache starts from exactly what a load gives at that moment |
| `RuntimeCoherence.DriftIsRepair` | crates/node/src/conversation.rs:301-319 | A view equals a fresh load exactly when it holds no invented result for a call the log has gone past |
| `RuntimeDrift.NextDispatchStartsDrifted` | crates/node/src/conversation.rs:301-319 | A whole run, from tables left by a crash between a call and its result, on which a dispatch served from the cache starts from five turns where the log holds four |
| `RuntimeSafety.WholePairsNeverDrift` | crates/node/src/runtime.rs:108-194 | With planners that write tool turns only as whole pairs the agreement is unconditional: the dispatch starts from exactly the turns and last seq of a fresh load, and the load repairs nothing |
| `RuntimeSafety.PushesNeverCollide` | crates/node/src/runtime.rs:179-193 | In every run, whenever a planner may push, the `(conversation, seq)` its turn takes is free |
| `RuntimeSafety.PairsNeverCollide` | crates/node/src/conversation.rs:514-560 | In every run a tool pair finds both of its seqs free if and only if that plan index was not written before |
| `RuntimeSafety.DispatchesAreBounded` | crates/node/src/runtime.rs:67-106 | In every reachable state two running dispatches are on different conversations, at most `max(1, max_concurrent_planners)` run, and the cache holds at most `max(1, max_active_conversations)` entries |
| `RuntimeSafety.NeverDeadlocks` | crates/node/src/runtime.rs:170-175 | While any request is pending, some pending request can take its next step: taking the conversation mutex before the planner slot never deadlocks |
| `RuntimeSafety.RepairIsNotWritten` | crates/node/src/conversation.rs:301-319 | The exact condition for a loaded view to keep reading like its log after the next written turn: it does if and only if the load found no dangling tool call to repair |
| `RuntimeSafety.RepairedViewDrifts` | crates/node/src/conversation.rs:301-319 | A concrete conversation, left by a crash between a call and its result, on which the cached turns and the log drift apart |
| `RuntimeSafety.StepKeeps` | crates/node/src/runtime.rs:101-194 | Every atomic section keeps the invariant that ties mutexes, semaphore permits, cache entries, dispatch views and the log together |
| `RuntimeSafety.WholeNeedsNoRepair` | crates/node/src/conversation.rs:301-319 | A log in which every call has its result slot taken has no overtaken repair and does not end in a call |
| `RuntimeSafety.FindPut` | crates/node/src/runtime.rs:129-132 | A put makes its key the first entry and may only drop other keys, never change them |
| `RuntimeAccess.OnlyTheOwnerIsServed` | crates/node/src/runtime.rs:108-127 | In every run, whatever is cached, a dispatch runs only for the client that owns its conversation |
| `RuntimeAccess.OwnersAreNotRefused` | crates/node/src/runtime.rs:108-127 | A cached conversation, and one read from the log, is served if and only if the client owns it, and refused if and only if not |
| `RuntimeAccess.OutcomeIsThePlanners` | crates/node/src/runtime.rs:176-194 | A finished request reports success if and only if its planner succeeded |
| `RuntimeAccess.TouchIsMostRecent` | crates/node/src/runtime.rs:110-121 | A hit makes its conversation the most recent and leaves the others in their order |
| `RuntimeAccess.PutKeepsTheOthers` | crates/node/src/runtime.rs:129-132 | Filling the cache with a conversation it holds moves that to the front and drops nothing |
| `RuntimeAccess.PutDropsTheOldest` | crates/node/src/runtime.rs:129-132 | Filling it with a new one drops the least recently used entry when the cache is full, and no other |
| `RuntimeAccess.CacheListsOnce` | crates/node/src/runtime.rs:108-132 | In every run the cache lists a conversation once and stays within its capacity |
| `RuntimeAccess.ApiIs` | crates/storage/src/conversations.rs:29-45 | A created conversation is empty and its creator's; a rename keeps owner, creation time and log |
| `RuntimeCoherence.PushStep` | crates/node/src/conversation.rs:186-190 | Pushing and persisting keeps the running view a mirror of the log, and the pushed seq was free |
| `RuntimeCoherence.MirrorStep` | crates/node/src/conversation.rs:514-560 | Mirroring the next journalled pair into the in-memory state keeps the view a mirror of the log up to its last seq |
| `RuntimeCoherence.JournalStep` | crates/node/src/conversation.rs:514-560 | Journalling a pair ahead of the in-memory state keeps the relation between plan, log and view |
| `RuntimeCoherence.FinishAgrees` | crates/node/src/runtime.rs:188-194 | A view that mirrors its log when a dispatch succeeds is a view a fresh load would give, so it may be cached |
| `NodeRuntimes.NodeRuntime.LockFor` | crates/node/src/runtime.rs:101-106 | `lock_for`: get or insert the conversation mutex and queue on it; the cells move exactly as the machine step and stay valid |
| `NodeRuntimes.NodeRuntime.TakeConversation` | crates/node/src/runtime.rs:170-172 | Taking the mutex: exactly the machine step, invariant kept |
| `NodeRuntimes.NodeRuntime.AcquirePlannerSlot` | crates/node/src/runtime.rs:136-141 | Taking a semaphore permit: exactly the machine step, invariant kept |
| `NodeRuntimes.NodeRuntime.ConsultCache` | crates/node/src/runtime.rs:108-121 | The cache section of `load_state`: hit, miss or owner mismatch, with the entry made most recent on a hit |
| `NodeRuntimes.NodeRuntime.LoadFromLog` | crates/node/src/runtime.rs:122-123 | The log section of `load_state`: not found and owner mismatch end the request, otherwise the fresh load |
| `NodeRuntimes.NodeRuntime.CacheLoaded` | crates/node/src/runtime.rs:124-127 | The fill section of `load_state`: the entry goes in first and the LRU drops the oldest |
| `NodeRuntimes.NodeRuntime.PushAndPersist` | crates/node/src/runtime.rs:176-193 | A planner write: both view and log move, or the storage error ends the dispatch in eviction |
| `NodeRuntimes.NodeRuntime.JournalToolPair` | crates/node/src/runtime.rs:176-193 | The durability hook during a plan: the pair is written whole or the log stays |
| `NodeRuntimes.NodeRuntime.StoreInCache` | crates/node/src/runtime.rs:192-193 | Success puts the state in the cache under its conversation: exactly the machine step |
| `NodeRuntimes.NodeRuntime.EvictFailed` | crates/node/src/runtime.rs:180-190 | Failure pops the conversation: exactly the machine step |
| `NodeRuntimes.NodeRuntime.DropSlot` | crates/node/src/runtime.rs:170-194 | The permit comes back; exactly the machine step |
| `NodeRuntimes.NodeRuntime.DropLock` | crates/node/src/runtime.rs:170-194 | The mutex is free again; exactly the machine step |
| `NodeRuntimes.NodeRuntime.Evict` | crates/node/src/runtime.rs:249-252 | Eviction from outside, at any moment: exactly the machine step, invariant kept |
| `Conversations.BatchIsAllOrNothing` | crates/storage/src/conversations.rs:129-154 | A batch commits if and only if every row finds its conversation and no two rows, old or new, share a `(conversation, seq)`; then exactly those rows are in and owner, title and creation time are untouched |
| `Conversations.ConversationDb.AppendTurns` | crates/storage/src/conversations.rs:129-154 | The insert loop inside one transaction: success exactly when the rows fit, the tables untouched on failure, every log exactly the old one plus its rows on success |
| `Conversations.ConversationDb.PersistLast` | crates/node/src/conversation.rs:481-502 | Writes the last turn at the seq its push took; fails, changing nothing, on an empty state, an unknown conversation or a taken seq |
| `Conversations.ConversationDb.Load` | crates/node/src/conversation.rs:451-478 | Unknown conversation and wrong owner are refused; otherwise the turns in seq order, the highest seq, and the crash repair |
| `Conversations.ConversationState.Push` | crates/node/src/conversation.rs:186-190 | Appends the turn, takes the next seq and the turn's timestamp |
| `Conversations.ConversationState.Validate` | crates/node/src/conversation.rs:301-319 | Appends a synthetic error result if and only if the last turn is a tool call |
| `Conversations.AppendReadsLast` | crates/storage/src/conversations.rs:157-175 | A row above every stored seq reads back as the last turn, and becomes the highest seq |
| `Conversations.AscendingIsUnique` | crates/storage/src/conversations.rs:157-175 | Reading in seq order is determined by the set of seqs |
| `Journal.JournalSurvivesACrash` | crates/node/src/conversation.rs:514-560 | For any plan and any order, subset or repetition of journalled steps, the reloaded conversation is its old turns, then whole adjacent call/result pairs in plan order, and `validate` adds nothing |
| `Journal.CompleteJournalEqualsReplay` | crates/node/src/conversation.rs:504-560 | When every step was journalled, in any order, reloading equals the in-memory replay turn for turn and seq for seq, timestamps aside |
| `Journal.CompleteJournalReads` | crates/node/src/conversation.rs:504-560 | The complete journal reads back in plan order at consecutive seqs after the user turn |
| `Journal.JournalHoldsPairs` | crates/node/src/conversation.rs:514-560 | The log holds exactly the rows of the steps that were journalled, each at its reserved seqs, and nothing else new |
| `Journal.PairsReadInPlanOrder` | crates/node/src/conversation.rs:514-560 | Out-of-order rows read back in plan order |
| `Journal.PersistPairStep` | crates/node/src/conversation.rs:547-559 | One more pair adds exactly its index; a repeated one changes nothing at all |
| `Journal.PersistToolPairAt` | crates/node/src/conversation.rs:514-560 | One transaction for call and result: in if and only if both reserved seqs are free, otherwise the store is as before |
| `Journal.RepairAnswersTheCall` | crates/node/src/conversation.rs:301-319 | The invented result carries the dangling call's id, peer and capability, no value and an error; nothing else is ever invented |
| `Journal.RepairPairs` | crates/node/src/conversation.rs:301-319 | The repaired turns are whole pairs if and only if only the last call was missing its result |
| `Journal.LoadPairs` | crates/node/src/conversation.rs:451-478 | A load gives whole pairs if and only if the log held pairs but for its last call |
| `Context.FilterShape` | crates/node/src/conversation.rs:406-423 | The filter is the closed dispatches without their tool turns, followed by the current dispatch verbatim |
| `Context.FilterKeepsPairs` | crates/node/src/conversation.rs:406-423 | Filtering keeps every call next to its own result |
| `Context.PruneKeepsPairs` | crates/node/src/conversation.rs:382-404 | Pruning, with its one adjusted start index, never splits a pair |
| `Context.ContextWindow` | crates/node/src/conversation.rs:284-288 | Filter then prune yields a suffix of the visible turns with pairs whole, at least `max_turns` of them when there are that many, at most `max_turns + 1`, and the extra one only to keep a pair whole |
| `Context.WindowAfterACrash` | crates/node/src/conversation.rs:284-319 | The window of a conversation reloaded after a crash never splits a pair |
| `AntiReplay.NeverAcceptedTwice` | crates/node/src/handler.rs:29-52 | In every interleaving of requests on both routes, prunes and clock ticks, no envelope is accepted twice, under whatever signatures, as long as the verify-to-insert delay is at most `(ttl - 2 skew - 2)` seconds plus 2 ns |
| `AntiReplayBound.LongerDelayAdmitsReplay` | crates/node/src/handler.rs:36-52 | The bound is exact: for every longer delay a run is constructed in which the same message is accepted twice |
| `AntiReplay.DefaultsAreSafe` | crates/node/src/handler.rs:22-23 | With 300 s of skew and a 3600 s table any delay up to 2998 s is safe |
| `AntiReplay.StepKeeps` | crates/storage/src/nonces.rs:4-23 | Every step keeps each accepted message guarded by its nonce row or out of its window for good |
| `AntiReplay.OnlyAuthenticIsAccepted` | crates/core/src/verify.rs:67-98 | In every run only messages signed for this instance are accepted, and a message is on its way only if it was checked inside its window and, on `/blobs`, is a ticket |
| `AntiReplay.ReceiveAdmits` | crates/server/src/blobs.rs:67-86 | A received message goes on if and only if it is authentic and its route takes its verb |
| `AntiReplay.InsertAccepts` | crates/storage/src/nonces.rs:4-17 | An insert accepts if and only if sender and nonce are new, and remembers them under the second of the stamp |
| `AntiReplay.WindowIs` | crates/core/src/verify.rs:80-85 | Whole-second rounding of the distance admits exactly the readings less than `skew + 1` seconds away |
| `AntiReplay.PruneKeepsGuard` | crates/storage/src/nonces.rs:19-23 | A prune never drops the row of a message that could still be inserted |
| `AntiReplay.NonceTable.InsertIfAbsent` | crates/storage/src/nonces.rs:4-17 | Inserts if and only if the `(sender, nonce)` is new |
| `AntiReplay.NonceTable.Prune` | crates/storage/src/nonces.rs:19-23 | Keeps exactly the rows at or after the cutoff and counts the rest |
| `AntiReplay.Admit` | crates/node/src/handler.rs:29-52 | One request: admitted, or refused for each single reason, exactly when recipient, window, signature, verb and nonce say so, with the exact table it leaves |
| `MentionGrammar.ParseIsExact` | crates/node/src/mention.rs:132-210 | A list is the leftmost, non-overlapping, gap-free sequence of matches of the declared grammar if and only if it is what the parser returns |
| `MentionGrammar.MatcherIsGrammar` | crates/node/src/mention.rs:141-205 | At an `@` the matcher returns a token if and only if the grammar derives it (kind, quoted or bare value, entity, capability, length) |
| `MentionGrammar.MatchAtIsMention` | crates/node/src/mention.rs:132-210 | A mention is found at a position exactly when the `@` opens a token there and the grammar derives it |
| `MentionGrammar.GreedyIsUnique` | crates/node/src/mention.rs:132-210 | At most one list can be the leftmost non-overlapping matches, so the specification determines the result |
| `MentionGrammar.ScanIsLeftmost` | crates/node/src/mention.rs:132-210 | From every index on, the scan returns the leftmost matches, in order, disjoint and in bounds |
| `MentionGrammar.SplitIsDenotes` | crates/node/src/mention.rs:170-200 | Splitting a value at its first `/` is exactly what the value denotes for its kind |
| `MentionGrammar.ValueIs` | crates/node/src/mention.rs:150-170 | The value scanner accepts exactly the quoted and the bare values of the grammar |
| `Mentions.ParseMentions` | crates/node/src/mention.rs:132-210 | The loop over `@` positions returns the specified scan |
| `MentionRoundTrip.RoundTrip` | crates/node/src/mention.rs:99-122 | For every mention the parser returns whose value needs no quotes or holds none, its token parses back to exactly that mention, spanning exactly the token, alone or between an @-free prefix ending in whitespace and any suffix starting with whitespace, which parses as on its own |
| `MentionRoundTrip.UnspellableIsLost` | crates/node/src/mention.rs:113-122 | Otherwise the printed token never parses back to that mention: the condition above is exact |
| `MentionRoundTrip.UnspellableIsDroppedSlash` | crates/node/src/mention.rs:173-196 | A parsed mention has such a value if and only if it was written bare with a trailing slash, which the parser drops, after a value that holds a double quote and ends in punctuation; so it is a peer or a lobe |
| `MentionRoundTrip.UnspellableOccurs` | crates/node/src/mention.rs:173-196 | A concrete message whose one mention is of that kind |
| `MentionRoundTrip.PrintedMention` | crates/node/src/mention.rs:99-122 | The printed token is a mention of the grammar wherever it is dropped in |
| `MentionRoundTrip.QuotesOnlyWhenNeeded` | crates/node/src/mention.rs:108-122 | A value is printed bare if and only if it is not empty, holds no whitespace and does not end in sentence punctuation; otherwise in quotes |
| `MentionRoundTrip.FlatForms` | crates/node/src/mention.rs:10-21 | The documented file and capability forms parse to what they denote |
| `MentionRoundTrip.DescendingForms` | crates/node/src/mention.rs:10-21 | The documented peer and lobe forms that descend to a capability parse to what they denote |
| `MentionRoundTrip.ScanShift` | crates/node/src/mention.rs:132-210 | A suffix parses the same behind any text, shifted |
| `MentionRoundTrip.ParseInOrder` | crates/node/src/mention.rs:132-210 | Spans are ordered, disjoint and in bounds |
| `MentionRoundTrip.StripMentions` | crates/node/src/mention.rs:219-228 | The cursor loop returns the trimmed concatenation of exactly the characters outside every span |
| `MentionRoundTrip.GapsAreOutside` | crates/node/src/mention.rs:219-228 | The pieces between the spans are exactly the characters no span covers |
| `MentionScopes.FromText` | crates/node/src/mention.rs:264-281 | Each list of the scope holds what the text mentions for it, once each, in order of first mention |
| `MentionScopes.EntitiesInScope` | crates/node/src/mention.rs:264-281 | Peers, lobes and files in scope are exactly the entities of the mentions of that kind |
| `MentionScopes.CapabilitiesInScope` | crates/node/src/mention.rs:264-281 | Capabilities in scope are exactly those mentioned by name or behind a peer or a lobe |
| `MentionScopes.NothingTwice` | crates/node/src/mention.rs:283-287 | No list of the scope repeats itself |
| `PeerDirectory.PeerTable.Upsert` | crates/storage/src/peers.rs:25-52 | Endpoint replaced, unknown fields keep their stored value, other rows untouched |
| `PeerDirectory.PeerTable.SetAlias` | crates/storage/src/peers.rs:58-65 | Writes the alias as given, absent rows stay absent |
| `PeerDirectory.PeerTable.Delete` | crates/storage/src/peers.rs:159-163 | Removes exactly that row and says whether it was there |
| `PeerDirectory.PeerTable.Refresh` | crates/node/src/discovery.rs:215-257 | A failed call and this instance's own descriptor change nothing; otherwise the row is upserted and the alias set from the descriptor |
| `PeerDirectory.PeerTable.ReverseAnnounce` | crates/node/src/handler.rs:83-107 | Only a claimed, non-empty endpoint of another instance is recorded, and nothing else about it |
| `PeerDirectory.SelfIsNeverAPeer` | crates/node/src/discovery.rs:227-235 | After every run of refreshes, announces and deletions this instance is not in its own directory |
| `PeerDirectory.FetchedIsLatest` | crates/storage/src/peers.rs:13-65 | A row's alias, cached descriptor and fetch time are those of the latest descriptor fetched since the row was created, however many announces intervene |
| `PeerDirectory.NothingWithoutFetch` | crates/storage/src/peers.rs:13-65 | A row for which nothing was fetched since its creation has no alias and no descriptor, even if an earlier, deleted row had them |
| `PeerDirectory.ListedIsContacted` | crates/storage/src/peers.rs:25-52 | A peer is listed if and only if some call contacted it after its last deletion, under the endpoint and time of the latest such contact |
| `Bootstrap.BootstrapInitialPeers` | crates/node/src/discovery.rs:57-87 | Contacts the seeds in order: the directory after each refresh, and one outcome per seed |
| `Bootstrap.BootstrapTransitive` | crates/node/src/discovery.rs:99-211 | The three nested loops, with their early exits, leave exactly the specified directory and count |
| `BootstrapReach.WalkIsBounded` | crates/node/src/discovery.rs:116-204 | For arbitrary answers and failures, changing from call to call: each mentioned id is tried at most once, never this instance or a seed that answered; the count is between the good seeds and max(100, good seeds); the directory grows by no more than the count |
| `BootstrapReach.WalkIsExact` | crates/node/src/discovery.rs:99-211 | In a steady network with one endpoint per id and distinct seeds other than this instance, the walk refreshes only live peers in range, counts each once, caches exactly their descriptors, leaves other rows alone, and finds all of them unless it stopped at 100 |
| `BootstrapReach.WalkFindsExactlyTheRange` | crates/node/src/discovery.rs:99-211 | From an empty directory and with at most 100 peers in range, an id is listed afterwards if and only if a chain of at most `max_depth` mentions through live peers other than this instance leads to it from a seed |
| `BootstrapReach.BallIsPaths` | crates/node/src/discovery.rs:89-98 | Being in range is the existence of such a chain |
| `BootstrapReach.LevelSound` | crates/node/src/discovery.rs:137-204 | One level finds the whole next hop unless the cap stops it |
| `BootstrapReach.VisitSound` | crates/node/src/discovery.rs:166-200 | One summary is refreshed at most once, counted once and queued exactly when it answered |
| `BlobPath.SanitizeBlobPath` | crates/core/src/blob.rs:285-318 | The segment loop and the walk back from byte 255 compute the specified path |
| `BlobPath.SanitizedIsSound` | crates/core/src/blob.rs:267-318 | A result fits 255 bytes and holds no backslash, control character, empty or untrimmed segment; it holds no dot segment if and only if the limit did not fall just behind a `.` or `..`, and never one before its last; nothing comes back if and only if no segment was usable |
| `BlobPath.SanitizeAgain` | crates/core/src/blob.rs:285-318 | Sanitising a result again changes nothing if and only if the cut did not fall just behind a `.` or `..`; always when nothing was cut |
| `BlobPath.CutCanLeaveParent` | crates/core/src/blob.rs:267-318 | A concrete family of names whose sanitised form is `..`, although dot segments are promised to be dropped |
| `BlobPath.BackslashesFold` | crates/core/src/blob.rs:286-290 | A backslash anywhere counts as a separator |
| `BlobPath.ControlsGo` | crates/core/src/blob.rs:286-290 | A control character anywhere makes no difference |
| `BlobPath.IdleSegmentsGo` | crates/core/src/blob.rs:292-299 | Empty, blank and dot segments make no difference, in the middle, in front or at the end |
| `BlobPath.SegmentsConcat` | crates/core/src/blob.rs:292-299 | Around a separator the segments of both sides count separately, in order |
| `BlobPath.SegmentsOfPiece` | crates/core/src/blob.rs:292-299 | A plain piece is one segment, trimmed, unless that leaves nothing or a dot segment |
| `BlobPath.TruncatedIs` | crates/core/src/blob.rs:303-315 | Cutting and tidying the joined path is cutting its segments, and never loses everything |
| `BlobPath.SplitJoin` | crates/core/src/blob.rs:292-302 | Splitting undoes joining |
| `BlobPath.DerivedIsFixedPoint` | crates/core/src/blob.rs:373-410 | Every derived output path, for any capability, MIME type, timestamp and lower-casing, is a fixed point of sanitising with two segments: the directory, then stamp and extension |
| `BlobPath.StampsSortByTime` | crates/core/src/blob.rs:364-410 | Two stamps sort as strings in the order of the moments they name if and only if their years are not both before 0, or are equal, or have four and fewer digits with the first three of the one below the other |
| `BlobPath.ExtensionIs` | crates/core/src/blob.rs:325-361 | An extension is always one to eight safe characters |
| `BlobPath.KnownTypes` | crates/core/src/blob.rs:325-346 | A MIME type of the table has its extension, with or without parameters |
| `BlobPath.OtherTypes` | crates/core/src/blob.rs:347-361 | Any other has the first eight letters and digits between its last slash and the next plus, or `bin` |
| `BlobPath.DashesGo` | crates/core/src/blob.rs:320-361 | The extension of `application/x-foo` is `xfoo` |
| `BlobPath.SafeNamesAreKept` | crates/core/src/blob.rs:374-390 | A safe capability name gives its directory that very name |
| `BlobPath.DirectoryIs` | crates/core/src/blob.rs:374-390 | Any other gives its first 64 characters, unsafe ones dashed, without the marks at the ends |
| `BlobPath.OutputDirectory` | crates/core/src/blob.rs:385-390 | A name of nothing but marks gives `output` |
| `BlobPath.DigitsOrder` | crates/core/src/blob.rs:393-407 | Zero-padded numbers have their width and sort as the numbers do |
| `BlobIndex.BlobTable.Upsert` | crates/storage/src/blobs.rs:104-156 | A new row is inserted as given, created now; an existing one keeps its first path, its classification, its owner and its creation time, and is accessed now |
| `BlobIndex.BlobTable.MarkOutbound` | crates/storage/src/blobs.rs:171-188 | Promotes, and reports it, if and only if the row is of class A or D |
| `BlobIndex.BlobTable.MarkInboundOutput` | crates/storage/src/blobs.rs:206-229 | Moves, and reports it, if and only if the row exists and is not of class C |
| `BlobIndex.BlobTable.Touch` | crates/storage/src/blobs.rs:328-335 | Sets the last access of that row and nothing else |
| `BlobIndex.BlobTable.Delete` | crates/storage/src/blobs.rs:243-247 | Removes exactly that row and says whether it was there |
| `BlobIndex.BlobTable.DeleteExpired` | crates/storage/src/blobs.rs:314-325 | Removes and returns exactly the rows at or past their expiry |
| `BlobIndex.EveryRowHasAClass` | crates/storage/src/blobs.rs:104-229 | Over every run each row is in exactly one of the classes A to D, is visible and deletable unless C, names its uploader if C, and has a sanitised path if any |
| `BlobIndex.StepGrows` | crates/storage/src/blobs.rs:104-229 | Until deletion, every operation moves a class only up D to A to B, never in or out of C, keeps owner, uploader, capability and whitelist, and never loses a path |
| `BlobIndex.LifeGrows` | crates/storage/src/blobs.rs:104-229 | The same between the two ends of any run during which the row lives |
| `BlobIndex.ClassIsHistory` | crates/storage/src/blobs.rs:158-229 | A row's class is exactly what its history since creation says: put by a peer (C), otherwise created or come back as an output (B), otherwise ever sent (A), otherwise staged (D) |
| `BlobIndex.OwnerIsTheCreator` | crates/node/src/blob_resolve.rs:84-202 | As long as it lives a row's user, client, conversation, capability, uploader, nonce, whitelist and creation time are those of the request that created it |
| `BlobIndex.CreatedBy` | crates/node/src/blob_resolve.rs:84-202 | Whose a new row is, for each insert site |
| `BlobIndex.OutputsAreShownToTheirClient` | crates/node/src/blob_resolve.rs:139-151 | A downloaded output is shown in the Files panel of the client that asked for it, and of no other, as long as it lives |
| `BlobIndex.ExpiryIs` | crates/node/src/blob_resolve.rs:84-202 | An hour after staging or sending, a day after either kind of output, what was granted for a peer's upload; nothing else moves an expiry |
| `BlobIndex.PathIs` | crates/storage/src/blobs.rs:121-130 | The first usable name stays, except that a held output takes the name its capability chose |
| `BlobIndex.StatusIs` | crates/storage/src/blobs.rs:104-229 | The processing status after each event |
| `BlobIndex.ContentIs` | crates/storage/src/blobs.rs:104-156 | Size, type and place are what the last write said, and nothing but an insert site changes them |
| `BlobIndex.RowsLeave` | crates/storage/src/blobs.rs:243-325 | A row disappears if and only if it is collected after expiry, deleted by its uploader or, unless of class C, deleted by the user or client that owns it |
| `BlobIndex.ProducersName` | crates/node/src/blob_resolve.rs:161-176 | A producer that names its output usably is taken at its word |
| `BlobIndex.StepKeepsClasses` | crates/node/src/blob_resolve.rs:84-202 | Every insert site and every transition keeps rows well classified |
| `BlobIndex.OutputsAreNamed` | crates/node/src/blob_resolve.rs:161-176 | A downloaded output always gets a sanitised path: its producer's name when usable, the derived one otherwise |
| `BlobIndex.StagedBlobsAreApart` | crates/storage/src/blobs.rs:250-273 | A class C row is shown to nobody and disappears if and only if it is collected after expiry or deleted by its uploader |
| `BlobIndex.StoreLocalCache` | crates/node/src/blob_resolve.rs:320-363 | The class D insert site: a new row is of class D, one that is there keeps its class, both live an hour from now |
| `BlobIndex.RecordOutboundUpload` | crates/node/src/blob_resolve.rs:84-137 | The class A insert site: a new, staged or sent row is of class A afterwards and lives an hour; results and cap staging blobs are not touched |
| `BlobIndex.FetchOutput` | crates/node/src/blob_resolve.rs:262-294 | The class B site: held bytes move their row to class B under the chosen name unless it is of class C, downloaded bytes create a class B row, and a row whose bytes were downloaded again keeps its class |
| `BlobServer.EffectiveExpires` | crates/server/src/blobs.rs:164-175 | The request when it lies between the purpose's default and a week, the default when it is below or absent, a week when it is above |
| `BlobServer.SumBytesForUploader` | crates/storage/src/blobs.rs:290-299 | The sum of the uploader's unexpired sizes |
| `BlobServer.TotalTakes` | crates/storage/src/blobs.rs:290-299 | The sum does not depend on the order of summation |
| `BlobServer.BlobHandler.CheckPeerQuota` | crates/server/src/blobs.rs:137-150 | Admits if and only if the new bytes stay within 100 MiB and the peer holds fewer than 50 unexpired blobs |
| `BlobServer.BlobHandler.PutBlob` | crates/server/src/blobs.rs:223-323 | Every check in order with its status, the idempotent answer for an unexpired blob, and the exact rows and files a stored blob leaves |
| `BlobServer.BlobHandler.GetBlob` | crates/server/src/blobs.rs:341-385 | Every check in order with its status, and the stored bytes; a served download touches its row, nothing else changes |
| `BlobServer.BlobHandler.HeadBlob` | crates/server/src/blobs.rs:387-407 | Found exactly while unexpired |
| `BlobServer.BlobHandler.DeleteBlob` | crates/server/src/blobs.rs:409-440 | Only the uploader removes the row and the file |
| `BlobServer.BlobHandler.Sweep` | crates/server/src/blob_gc.rs:16-33 | Expired rows go, and their files with them |
| `BlobTickets.OtherTicketsAreRefused` | crates/server/src/blobs.rs:101-113 | A ticket for another operation or hash is refused with 400, an expired one with 401, and nothing changes |
| `BlobTickets.BadHashesAreRefused` | crates/server/src/blobs.rs:235-237 | A malformed hash is refused with 400 whatever comes with it |
| `BlobTickets.GetServes` | crates/server/src/blobs.rs:341-385 | A download is served if and only if the ticket was issued for it and is valid, the blob lives, its bytes are there, and the sender uploaded it or is listed; otherwise 403 for a living blob, 404 else |
| `BlobTickets.GetOnlyTouches` | crates/server/src/blobs.rs:341-385 | A served download notes the access and changes nothing else |
| `BlobTickets.HeadServes` | crates/server/src/blobs.rs:387-407 | Found if and only if the blob lives, with its type and size |
| `BlobTickets.DeleteServes` | crates/server/src/blobs.rs:409-440 | Deleted if and only if the ticket was issued for it and is valid and the sender uploaded it; afterwards nobody finds it, and no other blob changed |
| `BlobTickets.PutServes` | crates/server/src/blobs.rs:223-323 | An upload of a living blob is answered with what is stored; any other is stored if and only if ticket, capability, body and quota are right |
| `BlobTickets.PutRefusals` | crates/server/src/blobs.rs:118-150 | Unknown capability 404, private 403, wrong body 400, quota 429 |
| `BlobTickets.PutThenGet` | crates/server/src/blobs.rs:223-385 | Until it expires, the uploader gets back the bytes, size and type it sent, and everyone sees the header |
| `BlobServerRuns.GcIsInvisible` | crates/server/src/blob_gc.rs:13-35 | When each hash is PUT by one peer, two runs that differ only in when the collector ran answer every HEAD and every GET and PUT of the uploader alike: same status, same bytes, same expiry |
| `BlobServerRuns.GcIsInvisibleToReaders` | crates/server/src/blobs.rs:325-385 | So they do every GET of any other peer whom the uploads of each hash list always or never |
| `BlobServerRuns.ReuploadTells` | crates/server/src/blobs.rs:261-310 | At a re-upload over an expired row the states with and without a collection in between answer a reader alike if and only if the old row and the new ticket list it alike, or it is the uploader; what each answers |
| `BlobServerRuns.PutKeepsQuota` | crates/server/src/blobs.rs:261-310 | After a granted upload a peer within its quota still is if and only if, in case a row of its own was written over, the new bytes fit its own quota, whoever sent them |
| `BlobServerRuns.QuotaHoldsExactly` | crates/server/src/blobs.rs:137-150 | Over any run a peer never holds more than 100 MiB or 50 unexpired blobs if and only if no upload writes more over one of its rows than its own quota allows |
| `BlobServerRuns.QuotasHold` | crates/server/src/blobs.rs:137-150 | In particular, when each hash is PUT by one peer, no peer ever exceeds its quota, at any time of any run |
| `BlobServerRuns.DownloadsAreAuthentic` | crates/server/src/blobs.rs:341-385 | In every reachable state a download returns all bytes of the hash asked for, and the uploader can download whatever HEAD finds |
| `BlobServerRuns.FilesMatchRows` | crates/server/src/blobs.rs:223-440 | In every reachable state each file belongs to a row and each row has its file |
| `BlobServerRuns.SweepIsExact` | crates/server/src/blob_gc.rs:16-33 | A collection removes exactly the expired blobs, rows and files, and touches no other |
| `BlobServerRuns.GcAgrees` | crates/server/src/blob_gc.rs:16-33 | A run and the same run without collections agree on every unexpired blob |
| `BlobServerRuns.StepAgrees` | crates/server/src/blobs.rs:223-440 | Every request keeps two such states in agreement, a deletion of an expired blob included |
| `BlobServerRuns.SharedHashEscapesQuota` | crates/server/src/blobs.rs:261-310 | A run in which the upload of one peer counts against another, past its quota once the sizes add up to more, and the uploader may not download it |
| `BlobServerRuns.ReadersSeeTheCollector` | crates/server/src/blobs.rs:325-339 | For a whitelisted reader collection timing does show: the same uploads with and without a sweep, one readable, one refused |
| `Lobes.RegistryIs` | crates/node/src/node.rs:105-277 | After any run of lobe changes and reloads each capability claims exactly the lobes of its last loaded declaration that were declared ever since, and the live set is the last one declared |
| `Lobes.RuleHolds` | crates/node/src/registry.rs:106-133 | After any run no registered capability claims a lobe its instance does not declare |
| `Lobes.ReloadForgetsHistory` | crates/node/src/node.rs:208-277 | After a lobe change and a reload that loads capabilities the registry is the manifests' declarations cut to the current set, whatever came before |
| `Lobes.FilterIs` | crates/core/src/lobe.rs:91-97 | Kept and unclaimable lobes are exactly those in and outside the instance's set; nothing dropped means nothing changed |
| `Lobes.FilterPartitions` | crates/core/src/lobe.rs:91-97 | Every claimed lobe is either kept or reported, as often as it was claimed |
| `Lobes.FilterTwice` | crates/node/src/registry.rs:114-133 | Filtering by two sets in turn keeps what both declare |
| `Lobes.LastWins` | crates/node/src/registry.rs:61-75 | The last declaration of a name is the one registered |
| `Lobes.OnlyEntries` | crates/node/src/registry.rs:61-75 | Nothing else is registered |
| `Lobes.LastFileWins` | crates/node/src/node.rs:219-270 | For each name a reload registers the last file that loads it, under its own binding |
| `Lobes.OnlyLoadedFiles` | crates/node/src/node.rs:219-270 | Nothing else is registered by a reload |
| `Lobes.ReloadOutcomes` | crates/node/src/node.rs:208-277 | An error without manifests or when there are files and none loads, no change when there are none, otherwise the number of names loaded: each if and only if |
| `Lobes.CutOnlyLobes` | crates/node/src/registry.rs:114-133 | Cutting a registry keeps every capability and everything about it but the lobes the instance is not in |
| `Lobes.TidiedIs` | crates/server/src/settings.rs:194-199 | The requested ids trimmed, the blank ones left out |
| `Lobes.TidyStays` | crates/server/src/settings.rs:194-199 | Ids that need no trimming stay as they are, in order |
| `Lobes.ValidateInstanceLobes` | crates/core/src/lobe.rs:67-83 | Accepts exactly the sets of at most five distinct well-formed ids |
| `Lobes.CapabilityRegistry.constructor` | crates/node/src/registry.rs:61-75 | Registers the entries in order |
| `Lobes.CapabilityRegistry.EnforceInstanceLobes` | crates/node/src/registry.rs:114-133 | The in-place loop cuts every declaration to the instance's set, keeps every capability, and reports exactly what each lost, sorted by name |
| `Lobes.Sort` | crates/node/src/registry.rs:131-132 | Sorting the report keeps its lines and puts them in strict order of names |
| `Lobes.CapabilityRegistry.PublicDecls` | crates/node/src/registry.rs:97-104 | Exactly the declarations that are not private |
| `Lobes.Node.constructor` | crates/node/src/node.rs:105-126 | Construction applies the rule to the registry it is given |
| `Lobes.Node.SetLobes` | crates/node/src/node.rs:195-200 | Stores the set and swaps in a cut copy of the registry |
| `Lobes.Node.ReloadCaps` | crates/node/src/node.rs:208-277 | Error without manifests or when none loads, no change for an empty directory, otherwise the new registry cut to the live set, with its size |
| `Lobes.Node.PutLobes` | crates/server/src/settings.rs:190-229 | Refused sets and failed writes of the instance file change nothing; accepted sets are trimmed, stored and reloaded |
| `Pulse.Buckets` | crates/storage/src/audit.rs:283-325 | Consecutive buckets from the one holding `since` on, for any window, each counting exactly the window's rows of its instants by direction and error |
| `Pulse.SeriesAddUp` | crates/storage/src/audit.rs:283-325 | In a window that ends after time zero, is empty or ends just behind a start, every row is counted in exactly one bucket and one series: the series sum to the row counts |
| `Pulse.LastRowIsLost` | crates/storage/src/audit.rs:283-325 | The condition is exact: in any other window a row of the last instant is counted nowhere |
| `Pulse.DirectionsPartition` | crates/storage/src/audit.rs:268-272 | The three directions partition the rows of the window |
| `Pulse.GroupedIs` | crates/storage/src/audit.rs:286-306 | What the grouping query finds for a start is what an interval count finds |
| `Pulse.TallyCounts` | crates/storage/src/audit.rs:286-294 | A bucket's series are the numbers of its rows in each direction, its errors the number of its rows that failed |
| `Pulse.TotalsCount` | crates/storage/src/audit.rs:286-294 | So are the totals of the window |
| `Pulse.WindowIs` | crates/server/src/activity_api.rs:34-59 | Requested windows are clamped to between a minute and a week and cut into thirtieths |
| `Pulse.BucketIsInterval` | crates/storage/src/audit.rs:286-288 | Rounding towards zero to a start is lying in that start's interval, which around time zero reaches to both sides |
| `Pulse.PulseOf` | crates/server/src/activity_api.rs:86-129 | For every requested window, clamped, and every clock the chart gets at most 46 points, at least 31 unless the window reaches back before time zero, then 30; from time zero on they add up to the window's rows |
| `Pulse.PulseHasFewPoints` | crates/server/src/activity_api.rs:34-59 | The number of points stays between 31 and 46, or 30 when the window reaches back before time zero |
| `Pulse.PulseRangeIsTight` | crates/server/src/activity_api.rs:34-59 | Both ends of that range occur |
| `Embeddings.Embed` | crates/adapters/src/embeddings.rs:110-168 | Succeeds if and only if the tags are a permutation of the input positions and no vector is empty; then slot i holds the vector tagged i; each failure names its cause |
| `Embeddings.SlotsTell` | crates/adapters/src/embeddings.rs:150-166 | All slots non-empty after n writes in range means every datum filled its own slot, and conversely |
| `Embeddings.Pigeonhole` | crates/adapters/src/embeddings.rs:150-166 | n tags that cover 0..n are distinct |
| `Embeddings.Covers` | crates/adapters/src/embeddings.rs:150-166 | n distinct tags below n cover 0..n |

## Left out

- Deleting a conversation while a dispatch runs on it, cancelled futures, panics and swapping the runtime itself: outside the contract that a dispatch ends in success or error.
- The planner's compile, execute and reflect steps, the retriever and the bindings: the runtime model takes any planner that pushes and persists its turns.
- Title and update time of a conversation are not part of the agreement between cache and log: a rename goes to the table and evicts separately.
- Spans of mentions count characters; the source's byte offsets are the UTF-8 lengths of the same prefixes (`Text.PrefixBytesGrow`). Unicode classification of alphanumerics (`is_scope_only`) is not part of this model.
- Files, clock and table are read in one step by each blob, peer and lobe operation; races inside one operation are not modelled, only the runtime and the nonce table are interleaved.
- Storage failures of the blob and peer tables, a missing blob directory, and JSON decoding errors of tickets: a request that meets them is answered with an error before anything the model tracks.
- BlobServer.BlobHandler.PutBlob: the registry's answer for the ticket's capability is a parameter of the request.
- BlobIndex.BlobTable.Upsert: the database's clock and the node's are one clock here.
- BlobPath.StampsSortByTime: the calendar conversion itself is an oracle bounded to the years the library accepts.
- BlobPath.DerivedIsFixedPoint: Unicode lower-casing is a parameter, so the result holds for any.
- Lobes.Node.PutLobes: the alias kept in the instance file is not modelled; whether writing the file worked is a parameter.
- Embeddings.Embed: vectors are sequences of reals; cosine similarity is left out because its rounding is the point.
- BootstrapReach.WalkIsExact: assumes answers that do not change during the walk; `WalkIsBounded` covers changing ones. The page size asked of a peer is not modelled: its answer may be any list.
- The capability cascade, prefix lookup of peers, roles and sessions, TOML rendering, ticket and key encodings, Ed25519, SHA-256 and canonical JSON, HTTP and UI shells: thin or library code.

# Verified models of the multi-agent daemon's cores

A Dafny 4.11 project that models the self-contained cores of the daemon, its federation hub and
its runner, and proves what they promise. `dafny verify dfyconfig.toml` checks everything.

Each module models one component. Code that changes state in place is a class (or a loop over
arrays) whose methods are proved equal to functions on a value of that state; protocols run by
several goroutines are step systems over the same values; the promises are lemmas about every
input, every run or every interleaving.

| module | component |
|---|---|
| `Tunnel`, `TunnelProtocol` | the hub's reverse-proxy tunnel, and its protocol with the runner |
| `Broker`, `BrokerGap` | the SSE stream broker: two indexes, bounded queues, reaping on `done`; and with the lock released inside a `done` |
| `KeyStore` | signing-key rotation with an overlap window |
| `JtiCache` | the runner's bearer-token checks and its replay cache |
| `Mailbox` | the hub's signaling mailbox over real backing arrays |
| `Federation` | discovery fan-in, deduplication and shutdown |
| `RunnerLifecycle` | child runners: tracker, cancel, auth timeout sweep, shutdown |
| `Routing` | peer-prefixed routing over HTTP and the hub |
| `Canon` | the versioned operator canon |
| `CanonicalJson`, `Rfc8785`, `Recipe` | canonical JSON, the standard's form beside it, and recipe signatures |
| `Catalog`, `CatalogLayout`, `CatalogBlocks` | the hand-written TeamProfile parser, the layout it inverts, and where its blocks end |
| `Detector` | the PTY completion detector |
| `LogTail` | reading the last log lines backwards in chunks |
| `Base64` | the hand-written base64 |
| `Common` | options, results, a few sequence functions, and sets listed in an order |

Results that say where the code departs from its own documentation or from what one would expect,
each with its exact condition and a failing input:

- A `dispatch` that has looked its channel up can find it closed when it sends: the code unlocks
  in between, and `close` can run there. `TunnelProtocol.PanicsExactly` gives the states in which
  that happens, `TunnelProtocol.SplitDispatchCanPanic` a run, and `TunnelProtocol.AtomicDispatch`
  shows that it cannot happen when the two halves run back to back.
- `StreamBroker.Publish` releases its lock before it reaps after a `done`. Over all runs the
  indexes agree throughout if and only if no `done` finishes after its task's map was re-created
  inside its gap (`BrokerGap.AgreesExactly`, `BrokerGap.RecreatedInside`). Otherwise the streams
  of the new map become orphans that no event reaches any more (`BrokerGap.OrphanIsSilent`,
  `BrokerGap.OrphanRun`) and that a later `done` leaves open (`BrokerGap.LiveAtDone`), and an
  overlapping `done` can close a channel twice (`BrokerGap.PanicsExactly`,
  `BrokerGap.DoubleCloseRun`).
- `JWKS` publishes retired keys until the next prune, also those past their window, although its
  comment says otherwise: `KeyStore.PublishedIsAccepted`, `KeyStore.RetiredStillPublished`.
- A `|` block is trimmed if and only if a later line is not blank and no deeper than the key of
  the block (`CatalogBlocks.TrimmedExactly`), so a block that is the end of a text never is:
  `CatalogBlocks.DescriptionAtEndOfText`, `CatalogBlocks.BriefAtEndOfText`,
  `CatalogLayout.PromptBlockAtEndOfText`. `CatalogLayout.RoundTripExact` says for which profiles
  printing and parsing is the identity.
- `readLastLines` counts blank lines when it decides to stop, but does not return them, so on a
  file with blank lines it can return fewer lines than the file has, or cut one:
  `LogTail.ChunkedEqualsNaive`, `LogTail.BlankLinesWitness`.
- An instance that is named by the segment it handles strips its own prefix and nobody restores
  it: `Routing.RoundTrip`, `Routing.OwnPrefixWitness`.
- A token is good for one use exactly when its expiry second ends before its first acceptance
  leaves the replay window: `JtiCache.AcceptedOnce`; `JtiCache.TwiceOtherwise` gives the second use.
- The canonical text is that of RFC 8785 if and only if no string or key has a character that
  only `json.Marshal` escapes, no number is negative zero, and code points and UTF-16 code units
  list the keys of every object alike: `Rfc8785.JcsExactly`, `Rfc8785.HtmlWitness`,
  `Rfc8785.KeyOrderWitness`, `Rfc8785.NegativeZeroWitness`.

## Model

| member | source | states |
|---|---|---|
| Tunnel.Tunnel.constructor | cmd/chepherd-hub/tunnel.go:205-211 | A new tunnel is open, with nothing pending. |
| Tunnel.Tunnel.BeginRoundTrip | cmd/chepherd-hub/tunnel.go:117-125 | Under the lock a closed tunnel refuses and registers nothing; else the fresh channel is the one pending under the request id. |
| Tunnel.Tunnel.EndRoundTrip | cmd/chepherd-hub/tunnel.go:126-130 | The deferred delete forgets this request id and nothing else, also on a closed tunnel. |
| Tunnel.Tunnel.DispatchFrame | cmd/chepherd-hub/tunnel.go:154-165 | A frame goes to the waiter registered under its id if its one slot is free; an unsolicited frame changes nothing. |
| Tunnel.Tunnel.CloseTunnel | cmd/chepherd-hub/tunnel.go:168-184 | Closes exactly the channels registered at that moment, leaves a nil map, and does nothing the second time. |
| Tunnel.TunnelManager.RegisterOrg | cmd/chepherd-hub/tunnel.go:205-220 | The new tunnel is the organisation's only one; the one it evicts is closed. |
| Tunnel.TunnelManager.ReadPumpExit | cmd/chepherd-hub/tunnel.go:222-228 | A pump that ends removes its own tunnel only, not one that replaced it. |
| Tunnel.TunnelManager.LookupOrg | cmd/chepherd-hub/tunnel.go:230-234 | The organisation's current tunnel, or none. |
| Tunnel.TunnelManager.CloseAll | cmd/chepherd-hub/tunnel.go:242-250 | Afterwards no tunnel is registered and each that was is closed. |
| TunnelProtocol.StepKeeps | cmd/chepherd-hub/tunnel.go:117-184 | Every step of hub, wire and runner keeps the invariant that ties each call's place to the channels and the pending map. |
| TunnelProtocol.Correlation | cmd/chepherd-hub/tunnel.go:117-165 | In every run, a frame roundTrip returns carries the caller's own id and exactly the status, headers and body the runner's handler made of that caller's request. |
| TunnelProtocol.NoneStranded | cmd/chepherd-hub/tunnel.go:108-149 | While the tunnel is open, a call that waits on an empty open channel is registered under it and its reply never passed dispatch unseen; while the connection is up its exchange is still under way. |
| TunnelProtocol.CloseReleases | cmd/chepherd-hub/tunnel.go:168-184 | Once close has finished, every waiting call can return at once. |
| TunnelProtocol.ClosedRefuses | cmd/chepherd-hub/tunnel.go:117-123 | A call on a closed tunnel fails at once, and the nil map is never written. |
| TunnelProtocol.PanicsExactly | cmd/chepherd-hub/tunnel.go:154-184 | A step panics if and only if it is the send half of a dispatch whose channel was closed since its lookup. |
| TunnelProtocol.AtomicDispatch | cmd/chepherd-hub/tunnel.go:154-165 | With both halves of dispatch back to back the channel found is open, and the result is the one-step dispatch. |
| TunnelProtocol.SplitDispatchCanPanic | cmd/chepherd-hub/tunnel.go:154-184 | A concrete run in which close falls between the lookup and the send. |
| TunnelProtocol.CountersAhead | cmd/runner/relay_tunnel.go:300-312 | The 2xx replies callers have seen are at most totalHandlerOK, which is at most totalFrames. |
| TunnelProtocol.CloseStepsAreClose | cmd/chepherd-hub/tunnel.go:168-184 | The critical section of close and one step for each channel, in any order, make the one-step close. |
| TunnelProtocol.CloseStepsFinish | cmd/chepherd-hub/tunnel.go:181-183 | After those steps no channel is left to close. |
| Broker.StreamBroker.constructor | internal/a2a/sse.go:73-79 | An empty broker. |
| Broker.StreamBroker.Subscribe | internal/a2a/sse.go:84-105 | An empty task is refused; else the new subscription is in both indexes with an open empty queue, and the indexes agree. |
| Broker.StreamBroker.TrySend | internal/a2a/sse.go:130-138 | A queue with a free slot takes the event at its end, a full one is left alone; the channel is open. |
| Broker.StreamBroker.Publish | internal/a2a/sse.go:116-155 | Exactly the task's subscribers with room take the event, their number is returned, a `done` closes and unindexes all of them, and the indexes agree. |
| Broker.StreamBroker.FanOut | internal/a2a/sse.go:128-138 | In whatever order the map is walked, each queue is offered the event once and the count is that of the queues that grew. |
| Broker.StreamBroker.Reap | internal/a2a/sse.go:142-153 | In whatever order, every subscription of the task is closed once and leaves both indexes. |
| Broker.StreamBroker.Lookup | internal/a2a/streaming.go:322-327 | A subscription is found exactly while its channel is open, and it is the one its task lists. |
| Broker.StreamBroker.Cleanup | internal/a2a/streaming.go:334-352 | An indexed subscription leaves both indexes and its channel, still open, is closed; any other id changes nothing. |
| Broker.StreamBroker.TailTurn | internal/a2a/streaming.go:250-278 | One turn of the consumer loop: it ends on a client gone, a failed write, a received `done` or a closed drained channel, and then cleans up. |
| Broker.RefinesSubscribers | internal/a2a/sse.go:84-155 | After any run the indexes hold the same live subscriptions with no empty inner map, a channel is open exactly when indexed and closed at most once, and each queue is what it would be with no other subscribers. |
| Broker.Delivery | internal/a2a/sse.go:111-138 | What a subscriber was sent is an order-preserving subsequence of what was published to its task while it was live, and all of it if and only if its queue was never full at a publish. |
| BrokerGap.StepKeeps | internal/a2a/sse.go:116-155 | With inner maps by identity and the lock released inside a `done`, every operation keeps the invariant: a channel is open exactly when indexed by stream, and a task's map lists live streams only. |
| BrokerGap.OrphanedExactly | internal/a2a/sse.go:139-153 | A stream becomes an orphan exactly when a `done` that read an older map unindexes the map that lists it. |
| BrokerGap.AgreesExactly | internal/a2a/sse.go:139-153 | Over all runs the indexes agree throughout if and only if no `done` finishes after its task's map was re-created; such a run never panics. |
| BrokerGap.RecreatedInside | internal/a2a/sse.go:97-101 | At the finish the map is another one if and only if the task has a map and some operation inside the gap made one for it. |
| BrokerGap.OrphanIsSilent | internal/a2a/sse.go:122-138 | An orphan is listed by stream and by no task, and whatever happens later it is never sent another event. |
| BrokerGap.SentExactly | internal/a2a/sse.go:116-138 | Over all runs a stream has been sent exactly the events of its task that were published while it was live, no orphan and had room, in that order. |
| BrokerGap.FinishCloses | internal/a2a/sse.go:142-150 | A `done` that finishes has closed every stream its map lists by then, once, and unindexed it. |
| BrokerGap.LiveAtDone | internal/a2a/sse.go:116-155 | A stream live at a `done` of its task is open after the finish if and only if it was an orphan at the `done` and stayed live, and if and only if it is an orphan afterwards. |
| BrokerGap.PanicsExactly | internal/a2a/sse.go:142-147 | An operation panics if and only if it finishes a `done` on a map that lists a stream whose channel is closed already. |
| BrokerGap.BackToBack | internal/a2a/sse.go:116-155 | Back to back the two halves are the one operation, in every reachable state, and nothing panics. |
| BrokerGap.OrphanRun | internal/a2a/sse.go:139-153 | A run of five operations that leaves an orphan. |
| BrokerGap.DoubleCloseRun | internal/a2a/sse.go:142-147 | A run of eight operations, with two `done`s at once, that closes a channel twice. |
| Broker.DoneEndsEverySubscriber | internal/a2a/streaming.go:250-278 | A `done` ends every subscriber, also one whose queue had no room for it: within as many receives as events are queued, plus one, its loop has returned. |
| KeyStore.KeyStore.PruneExpired | internal/auth/keystore.go:250-259 | Exactly the entries not past their window stay, in order. |
| KeyStore.KeyStore.Rotate | internal/auth/keystore.go:211-247 | Retires the unretired entries, prunes, appends the new key and persists the result. |
| KeyStore.KeyStore.Active | internal/auth/keystore.go:166-189 | The newest unretired entry. |
| KeyStore.KeyStore.ByKID | internal/auth/keystore.go:191-206 | The entry of that id if it is within its window; else the error says whether it is unknown or past. |
| KeyStore.KeyStore.JWKS | internal/auth/keystore.go:273-296 | Every retained entry's id and key, in order. |
| KeyStore.KeyStore.Sign | internal/auth/keystore.go:299-316 | A token of the active key that names it and carries the claims, with an issue time added when there is none. |
| KeyStore.KeyStore.Verify | internal/auth/keystore.go:318-345 | Accepts exactly a token signed by the key its id names, within the window, and returns its claims. |
| KeyStore.LoadOrCreate | internal/auth/keystore.go:109-156 | The pruned archive if any of it is left, else the migrated legacy key, else a fresh key; what is persisted, and the errors; without an archive, the daemon a first load gives. |
| KeyStore.EventKeepsInv | internal/auth/keystore.go:217-259 | Every rotation and reload keeps exactly one unretired key, last, with distinct ids, and the archive in step with memory. |
| KeyStore.TokenLifetime | internal/auth/keystore.go:191-259 | Across any rotations and reloads, a token signed earlier verifies if and only if its key has not been retired, or was at most the overlap ago; so it verifies for at least the overlap after signing, and its claims come back. |
| KeyStore.LifetimeFromFirstLoad | internal/auth/keystore.go:109-259 | The same for a daemon's whole life: from a first load, with or without a legacy key, through any rotations and restarts before and after the signing. |
| KeyStore.AcceptedIsPublished | internal/auth/keystore.go:273-296 | Every id that ByKID accepts is in the JWKS, with its key. |
| KeyStore.PublishedIsAccepted | internal/auth/keystore.go:268-296 | Everything published is accepted if and only if no entry has aged out since the last prune. |
| KeyStore.RetiredStillPublished | internal/auth/keystore.go:268-296 | After a first load, one rotation and the overlap, the first key is published and not accepted. |
| KeyStore.FreshTokenNeedsFreshKid | internal/auth/keystore.go:217-247 | After a rotation a fresh token verifies if and only if no retained entry has the new id under another key. |
| JtiCache.JtiCache.constructor | internal/auth/jwt_runner_middleware.go:241-243 | An empty cache whose last sweep is Go's zero time. |
| JtiCache.JtiCache.ObserveAndCheck | internal/auth/jwt_runner_middleware.go:248-266 | Sweeps entries older than a TTL when the last sweep is; refuses an id seen less than a TTL ago and leaves its time alone, else stores it. |
| JtiCache.AudienceMatches | internal/auth/jwt_runner_middleware.go:180-196 | Matches exactly the runner's id or its runner:// form, alone or as some string of a list. |
| JtiCache.VerifyRunnerJWT | internal/auth/jwt_runner_middleware.go:96-175 | The first failing check of the code's order decides the refusal; the cache is touched only when all checks before it pass. |
| JtiCache.CacheRefinesHistory | internal/auth/jwt_runner_middleware.go:248-266 | With a clock that does not go back, lazy collection is invisible: the answers are those of a cache that never forgets. |
| JtiCache.MemoryBound | internal/auth/jwt_runner_middleware.go:251-260 | After each call that reaches the cache, every stored entry is at most two TTLs old. |
| JtiCache.NotTwice | internal/auth/jwt_runner_middleware.go:153-172 | A token whose expiry plus one second is no later than its acceptance plus the TTL is refused at every later call of the run. |
| JtiCache.AcceptedOnce | internal/auth/jwt_runner_middleware.go:153-172 | Every continuation of the run refuses an accepted token again if and only if that condition holds. |
| Mailbox.SignalingQueue.Enqueue | cmd/chepherd-hub/signaling.go:99-119 | A valid frame, stamped now, is last in its recipient's box; the five malformed kinds give their errors and change nothing; no handed-out array is written. |
| Mailbox.SignalingQueue.DrainPending | cmd/chepherd-hub/signaling.go:124-130 | Gives out the recipient's slice with all its frames and forgets it; its array is the queue's no longer. |
| Mailbox.SignalingQueue.GcOnce | cmd/chepherd-hub/signaling.go:154-171 | Every box keeps exactly its frames younger than ten minutes, in order, empty boxes go; only arrays the queue owns are written. |
| Mailbox.SweepInPlace | cmd/chepherd-hub/signaling.go:158-164 | The compaction over the slice's own array is the filter of what it held. |
| Mailbox.Conservation | cmd/chepherd-hub/signaling.go:99-171 | After any run each box holds exactly the accepted frames whose fate is undecided and each drain gave out exactly those it decided, in the order queued. |
| Mailbox.DecidedByFirst | cmd/chepherd-hub/signaling.go:124-171 | A frame is dropped if and only if a sweep finds it at least ten minutes old before any drain of its recipient, and delivered if and only if a drain comes first. |
| Federation.Orchestrator.OnAnnouncement | internal/federation/federation.go:128-138 | Fetches a complete announcement not fetched in the last five minutes by the first clock reading and remembers the second; else changes nothing. |
| Federation.Channel.SendPeers | internal/federation/discoverer_registry.go:157-171 | An undisturbed poll sends the first eligible peers that fit in 64 slots, in order, and drops the rest. |
| Federation.StepKeeps | internal/federation/discoverer_registry.go:57-107 | Every step keeps each WaitGroup counter equal to the number of goroutines it tracks. |
| Federation.JoinBeforeClose | internal/federation/federation.go:104-143 | Over every interleaving the channel is closed only when every discoverer has returned and no one-shot goroutine is alive; no send meets a closed channel. |
| Federation.FetchesFarApart | internal/federation/federation.go:121-138 | An announcement starts a fetch if and only if it is complete and every earlier fetch for its id is at least five minutes old. |
| RunnerLifecycle.RunnerInfo.Track | cmd/iogrid/main.go:459-490 | A canceled runner keeps its state and has no exit code; else state and exit code follow the child's end; the time is set and done closed once. |
| RunnerLifecycle.Server.SpawnRunner | cmd/iogrid/main.go:440-454 | A new running record under a fresh id; the others are untouched. |
| RunnerLifecycle.Server.BeginCancel | cmd/iogrid/main.go:494-503 | Marks a running runner canceled, and nothing else. |
| RunnerLifecycle.Server.AuthTimeoutSweep | cmd/iogrid/main.go:518-535 | Exactly the auth-required runners completed at least ten minutes ago become failed. |
| RunnerLifecycle.Server.SnapshotRunning | cmd/iogrid/main.go:586-593 | The ids of exactly the running runners, each once. |
| RunnerLifecycle.StepKeeps | cmd/iogrid/main.go:459-535 | Every step of tracker, cancel, sweep and shutdown keeps the invariant. |
| RunnerLifecycle.RecordOverRun | cmd/iogrid/main.go:139-145 | Over any run a record moves only running to one of four ends and auth-required to failed; once done, its time and exit code are final. |
| RunnerLifecycle.RecordsInOrder | cmd/iogrid/main.go:459-490 | In every reachable state done is closed once and exactly when the completion time is set, and an exit code is set exactly when done and not canceled. |
| RunnerLifecycle.CancelJoins | cmd/iogrid/main.go:494-511 | A cancel that found its runner running returns only after done; each runner is canceled by one call, and until it is done that call waits. |
| RunnerLifecycle.ShutdownLeavesNoneRunning | cmd/iogrid/main.go:585-597 | When killAll is over, no runner of its snapshot is running, and each is done or waited for by another cancel. |
| Routing.ParseInvertsPrefix | internal/federation/federated_deliverer.go:58-72 | Stripping recovers the peer and the rest that restoring joined. |
| Routing.SplitInvertsJoin | internal/federation/federated_deliverer.go:58-72 | Every context id is a path of peers before a bare session, in one way only. |
| Routing.DeliverOverHub | internal/federation/hub_deliverer.go:132-159 | At most three attempts, none without a store: the first definitive answer ends it, as does a cancellation while waiting; after each transport failure, and only then, the cached connection is closed. |
| Routing.RoutingFollowsPath | internal/federation/federated_deliverer.go:94-127 | On any network a message goes along the walk of its path; the local deliverer at the end sees the rest; one that does not get there comes back failed under its own context id. |
| Routing.ReceiveStep | internal/federation/hub_deliverer.go:68-91 | Both deliverers route one hop alike: local when named, failed without a way on, else forwarded with the prefix stripped and restored. |
| Routing.HopsBounded | internal/federation/federated_deliverer.go:91-127 | Routing ends on any network, cycles included, after at most one forward for each peer prefix. |
| Routing.RoundTrip | internal/federation/federated_deliverer.go:121-126 | With echoing local deliverers the caller gets its own context id back if and only if no instance on the way is named by the segment it handles. |
| Routing.OwnPrefixWitness | internal/federation/federated_deliverer.go:94-103 | On any echoing network, a message that names its own instance comes back without that prefix. |
| Canon.Store.Get | internal/canon/canon.go:67-93 | The current record, or a blank one of version 0. |
| Canon.Store.Put | internal/canon/canon.go:97-134 | Archives the current record, then writes the next version with the title defaulted and the creation time kept. |
| Canon.Store.Rollback | internal/canon/canon.go:175-218 | An archived version's title and body become the next version; any other version is ErrVersionNotFound and changes nothing. |
| Canon.Store.History | internal/canon/canon.go:138-171 | The archived records newest first, each once; all of them, or at a positive limit that many with only older ones left out; the listing order of the directory is an input and makes no difference. |
| Canon.FilesHoldLog | internal/canon/canon.go:97-218 | After any run the files are an append-only log: the version is the number of writes, the archive is exactly the versions before it, each as it was when current. |
| Canon.ArchiveOnlyGrows | internal/canon/canon.go:107-133 | Archived records never change, the log only grows, and the creation time is that of the first write. |
| Canon.HistoryIsReversedLog | internal/canon/canon.go:166-170 | Whatever History returns is the log before its last write, reversed and cut at a positive limit. |
| CanonicalJson.EscapeCharDecodes | internal/iogrid/recipe.go:206-213 | No character's escape is the start of another's text. |
| CanonicalJson.RenderDecodes | internal/iogrid/recipe.go:188-213 | A rendered value followed by anything that ends it can be read in one way only. |
| CanonicalJson.SortStrings | internal/iogrid/recipe.go:222-226 | The keys in ascending byte order, each once. |
| CanonicalJson.SortKeys | internal/iogrid/recipe.go:218-242 | Whatever order the map is walked in, the one sorted form. |
| CanonicalJson.MarshalJSON | internal/iogrid/recipe.go:251-275 | The loop over the pairs writes the object's rendering. |
| CanonicalJson.CanonicalJSON | internal/iogrid/recipe.go:188-213 | The canonical text of the generic value. |
| CanonicalJson.CanonDecidesEquality | internal/iogrid/recipe.go:188-275 | Two values, nested to any depth, have the same canonical text if and only if they are equal. |
| CanonicalJson.UnorderedInvertsSortedForm | internal/iogrid/recipe.go:218-242 | Sorting loses nothing: the value can be read back. |
| CanonicalJson.CanonIdempotent | internal/iogrid/recipe.go:188-213 | A document whose text is canonical denotes the value that was canonicalised and canonicalises to itself. |
| Rfc8785.MinRenderHtml | internal/iogrid/recipe.go:176-187 | The standard's text has a character that only json.Marshal escapes exactly when the tree has; if not, both texts of the tree are the same. |
| Rfc8785.ListedAlike | internal/iogrid/recipe.go:218-226 | The keys of an object are listed alike by code points and by UTF-16 code units exactly when the two orders agree on them. |
| Rfc8785.JcsExactly | internal/iogrid/recipe.go:176-213 | For every value, nested to any depth, the code's text is the standard's if and only if no string or key has such a character, no number is negative zero, and no object's keys are listed differently. |
| Rfc8785.HtmlWitness | internal/iogrid/recipe.go:206-213 | The two texts of the string "<". |
| Rfc8785.KeyOrderWitness | internal/iogrid/recipe.go:222-226 | An object with the keys U+E000 and U+10000 has two different texts. |
| Rfc8785.NegativeZeroWitness | internal/iogrid/recipe.go:176-183 | The two texts of negative zero. |
| Recipe.RecipeJsonInjective | internal/iogrid/recipe.go:44-100 | Two recipe bodies have the same JSON form only when they are equal, omitted fields included. |
| Recipe.SignRecipe | internal/iogrid/recipe.go:115-143 | The errors, and a signature over the canonical form of the body. |
| Recipe.VerifyRecipe | internal/iogrid/recipe.go:149-176 | Accepts exactly a document whose signature is this key's over the canonical form of its own body, and returns that body. |
| Recipe.SignatureBindsBody | internal/iogrid/recipe.go:115-176 | Any body beside a signature verifies if and only if it is the body that was signed, under the signing key. |
| Catalog.Parse | internal/catalog/catalog.go:74-198 | The line loop computes the fold of its turns, and the missing-field error. |
| Catalog.LineLoop.Turn | internal/catalog/catalog.go:96-192 | One turn of the loop, open blocks first; inside a block there is a current member. |
| Catalog.LineLoop.FlushCur | internal/catalog/catalog.go:83-94 | The current member, its prompt backfilled, is appended and the flags reset. |
| Catalog.LineLoop.SetMember | internal/catalog/catalog.go:214-243 | A member field is set, or a bar opens a folded block. |
| Catalog.LineLoop.TopLevelLine | internal/catalog/catalog.go:136-160 | A top-level key ends the member list and sets its field. |
| Catalog.LineLoop.Plain | internal/catalog/catalog.go:132-191 | Outside blocks a line is read by its indent. |
| Catalog.Step | internal/catalog/catalog.go:96-192 | On every text, a turn inside a folded block has a current member, so no nil member is written. |
| CatalogLayout.SplitKVText | internal/catalog/catalog.go:200-212 | A key and value laid out on a line come back trimmed and unquoted. |
| CatalogLayout.MemberComesBack | internal/catalog/catalog.go:162-191 | A member laid out at indents 2, 4 and 6 leaves the parser holding it. |
| CatalogLayout.RoundTrip | internal/catalog/catalog.go:74-258 | Parsing the layout of any printable profile gives each field as it comes back, members in order, or the missing-field error. |
| CatalogLayout.RoundTripExact | internal/catalog/catalog.go:74-258 | The layout parses back to the profile itself if and only if its values are trimmed, unquoted, cleanly blocked and backfilled. |
| CatalogBlocks.BlockRuns | internal/catalog/catalog.go:104-122 | In every state with an open block, lines that are blank or deeper than its key only add to its field. |
| CatalogBlocks.AfterBlock | internal/catalog/catalog.go:104-131 | For every rest of the text, the block is the lines before the first outdented one, and the text goes on there with the block closed. |
| CatalogBlocks.TrimmedExactly | internal/catalog/catalog.go:104-131 | The field of a description, prompt or brief block ends trimmed if and only if some later line is not blank and no deeper than the key; else it is what it held with the whole rest added. |
| CatalogBlocks.BlockAtEndOfText | internal/catalog/catalog.go:83-131 | Any text whose lines end inside a block gives a profile with the block untrimmed, an open brief also backfilled untrimmed into an empty prompt. |
| CatalogBlocks.DescriptionAtEndOfText | internal/catalog/catalog.go:105-113 | A text that ends in its description block: the description keeps its line ends. |
| CatalogBlocks.BriefAtEndOfText | internal/catalog/catalog.go:83-131 | A text that ends in a brief block: brief and backfilled prompt keep their line ends. |
| CatalogLayout.PromptBlockAtEndOfText | internal/catalog/catalog.go:104-128 | Whatever the profile, a prompt block that ends its text keeps its line ends. |
| Detector.Detector.constructor | internal/completion/detector.go:92-134 | The thresholds and markers of the flavour; the session starts working. |
| Detector.Detector.OnChunk | internal/completion/detector.go:140-152 | Output resets the idle clock, renews the window and the prompt flag, and ends the waiting state unless it leaves a marker. |
| Detector.Detector.OnExit | internal/completion/detector.go:157-166 | The terminal state of the exit code. |
| Detector.Detector.Tick | internal/completion/detector.go:171-188 | A working session quiet for its threshold becomes input-required; nothing else changes. |
| Detector.Detector.AppendTail | internal/completion/detector.go:199-209 | In all three cases the window is the last 256 bytes of window and chunk. |
| Detector.Detector.RecomputeTail | internal/completion/detector.go:214-222 | The flag says whether some marker ends the window. |
| Detector.WindowIsOutput | internal/completion/detector.go:199-222 | Until an exit the window is the last 256 bytes of all output and the flag tells whether all of it ends in a marker, however it was chunked. |
| Detector.StateTellsHistory | internal/completion/detector.go:140-188 | After an exit the state is that of the last exit; before, the session waits for input if and only if some tick found it quiet and every later chunk left a marker. |
| LogTail.CountLines | internal/log/tail.go:201-209 | The number of newlines. |
| LogTail.SplitLines | internal/log/tail.go:181-194 | The scanning loop yields the non-blank lines in order. |
| LogTail.ReadChunks | internal/log/tail.go:161-177 | The backward loop ends, with everything from the chunk boundary on where more than n newlines lie behind, or the whole file. |
| LogTail.ReadLastLines | internal/log/tail.go:151-199 | Terminates, and returns the last n non-blank lines after the chunk boundary it stops at. |
| LogTail.LinesAtNewline | internal/log/tail.go:181-194 | Lines on either side of a newline do not touch. |
| LogTail.ChunkedEqualsNaive | internal/log/tail.go:151-199 | For any chunk size the result is the last n non-blank lines of the whole file if and only if the stated condition holds at the boundary. |
| LogTail.BlankLinesWitness | internal/log/tail.go:163-198 | For any chunk size above one, a line followed by a chunk of blank lines is not returned, where the naive reading returns it. |
| LogTail.AgreesWithoutBlankLines | internal/log/tail.go:163-177 | On a file without blank lines it always holds. |
| Base64.BasicAuthEncode | internal/discovery/bitbucket.go:149-177 | Computes the encoding of section 4 of RFC 4648, defined on the bit string. |
| Base64.EncodeGroup | internal/discovery/bitbucket.go:155-174 | The loop body's four characters of up to three bytes. |
| Base64.EncodedInGroups | internal/discovery/bitbucket.go:154-175 | The groups the loop writes spell the bit string six bits at a time, zero-filled and padded. |
| Base64.EncodedLength | internal/discovery/bitbucket.go:154-175 | Four characters for each three bytes begun. |
| Base64.DecodesExactly | internal/discovery/bitbucket.go:149-177 | A strict decoder accepts exactly the encoder's texts and gives back their bytes. |
| Base64.EncodedInjective | internal/discovery/bitbucket.go:149-177 | Two byte strings have the same encoding only when they are equal. |

## Left out

- Channels are values named by an identity, with what was sent on them; goroutine scheduling is the order of steps.
- Tunnel frames in flight are kept with the call they belong to, so a runner that answers with an unknown id is not modelled; request ids are fresh.
- Tunnel.Tunnel.DispatchFrame: lookup and send in one operation; TunnelProtocol takes them apart.
- The runner's reconnect loop, backoff and closeOnce are left out; a lost connection is one step after which frames may be dropped.
- Broker.StreamBroker.Publish: one operation, although the code retakes its lock before reaping; BrokerGap takes the two halves apart.
- BrokerGap.AgreesExactly: gap numbers and stream ids are fresh; a panic ends the run, though the process may survive it with the lock held.
- Broker.RefinesSubscribers: stream ids are fresh; webhook deliveries, idle timers' lengths and `lastSent`, which nothing reads, are not modelled, and the older `/a2a/stream/` handler, which does not clean up, is left out.
- KeyStore entries are values, not shared pointers; signatures are ideal: a token is the key that signed it, the id it names and its claims, and key ids are never empty.
- KeyStore.KeyStore.PruneExpired: a new sequence, not the old backing array.
- KeyStore.KeyStore.Rotate: key generation and persisting succeed.
- KeyStore.KeyStore.Sign: the added issue time does not show in the caller's own claims map.
- KeyStore.KeyStore.Verify: the parts, header and algorithm of a malformed token are one error.
- KeyStore.LoadOrCreate: there is a repository, and persisting succeeds.
- KeyStore.LifetimeFromFirstLoad: the clock assumptions of KeyStore.TokenLifetime.
- KeyStore.TokenLifetime: the clock does not go back and two rotations do not fall on the same nanosecond, because key ids are minted from the time.
- JtiCache.VerifyRunnerJWT: base64, JSON and header parsing, the JWKS fetch and the signature check are inputs of a request.
- JtiCache.CacheRefinesHistory: requires a clock that does not go back; the code reads the wall clock.
- Mailbox.SignalingQueue.Enqueue: how far an array grows is the runtime's choice; frames are values, so a caller that changes a frame after queueing it is not modelled. The GC ticker is left out.
- Federation.Channel.SendPeers: without cancellation or other senders; the step system has both.
- Agent-card fetching and persistence start where a fetch is decided; the announce POST has no effect here.
- RunnerLifecycle.Server.AuthTimeoutSweep: without the rewrite of the result file.
- RunnerLifecycle leaves out process spawning, credentials and signals' effect on the child.
- Routing.RoutingFollowsPath: a transport failure is taken never to have reached the peer. A send that fails after the peer took the message is delivered all the same, and the retry delivers it again; the observed delivery is then not the only one.
- Routing.DeliverOverHub: the pauses between attempts take no time.
- Routing.RoundTrip: transports, card caches and local deliverers are arbitrary but do not change while one message travels; messages carry only their context id.
- Canon.Store.Put: file reads and writes succeed.
- Canon.Store.Rollback: file reads and writes succeed, but for a version that does not exist.
- Canon is file mode only; the repository-backed mode is not modelled.
- CanonicalJson: a number is the token the JSON encoder writes for it, so equality of numbers is equality of tokens; strings are valid Unicode.
- Rfc8785.JcsExactly: both texts write a number by the same shortest token, but for negative zero.
- Recipe.SignRecipe: YAML encoding and decoding of a document are the identity.
- Catalog: numeric stat-sheet fields hold the text given to Sscanf, and carriage returns are ordinary space.
- CatalogLayout.RoundTripExact: about one layout, the documented one; comments, other indents and unknown keys are read by the parser but not printed.
- LogTail.ReadLastLines: file reads succeed; following and rotation are left out.
- HTTP handlers, WebSocket and WebRTC transport, TLS, PTY, the CLI and the dashboard are I/O.
- `runnerDeliverer.completer`, the repository-backed agent store, the bare task transition table, method aliases, URL joining and backoff tables are left out: thin, finite, or without a law that holds.

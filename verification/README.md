# certdx: a verified model of its protocols

certdx obtains TLS certificates from an ACME authority on a server and distributes
them to clients over a gRPC secret-discovery stream or HTTP. Its hard parts are
protocols made of goroutines, mutexes, closed-and-replaced channels and cancelled
contexts. This project models them in Dafny and proves what they promise for every
run and every reachable state.

## What is modelled

Concurrent components are step relations on values: a state, an `Enabled` predicate, a
`Next` function, and `Reachable` for the states of all runs of any length with any
interleaving and any number of goroutines. One step is one access to something another
goroutine can see (a critical section, a channel operation, a context check, an atomic
flag). Code that works in place within one goroutine keeps that form: objects with
`modifies` clauses (`CertEntry`, `CertStore`, `CertCache`, `Files`, `Streamer`) and loops
(`KeyInput`, `IsSubdomain`, `AllAllowed`, `Do`, `RunRenewer`, `Load`, `Seed`, `WatchUpdate`), each
specified by functions about which the lemmas speak.

| part | files |
|---|---|
| gRPC failover machine of the client | `FailoverModel`, `FailoverSafety` (invariant), `FailoverTheorems`, `FailoverShutdown`, `FailoverReturn`, `FailoverBudget`, `FailoverStandby`, `FailoverLoss`, `FailoverStreamer` |
| server cache entry: versioned broadcast, renewal, reference-counted renewer, cache-file writer | `EntryModel`, `EntrySystem`, `EntryBroadcast`, `EntryLifecycle`, `EntryOrders`, `EntryDisk`, `EntrySeeded`, `EntryRuns` (runs of one process), `EntryRenew`, `EntryConsumers`, `EntryWindDown` |
| SDS stream, certdx server and client composed | `SdsModel`, `SdsProof` (invariant), `SdsTheorems`, `SdsProgress`, `SdsConvergence`, `SdsPermitted`, `SdsFirstOffer` |
| persistence and recovery | `Store` (server), `FilePair` (client) |
| names, timing, retries | `Domain`, `Deadline`, `Retry`, `Base` |

### What the model takes for granted

- Cancelling a parent context cancels its children in the same step.
- `Stream` may return at any time, and its receive loop may outlive it, so a message of
  the main server may arrive at any time after the first main stream has begun.
- ACME is an oracle that may fail or succeed with any material after any time.
- The clock never goes back.
- Pack names are unique within a client (`SdsModel.ConfigOk`).
- The 64-bit hash is an arbitrary function; freedom from collisions is a precondition
  only where it is stated (`Store.NoCollision`).
- A write of `cache.json` succeeds or reports an error; after an error the file is either
  unchanged or unreadable.
- One cache entry is followed at a time; the queue items of all other entries are
  `Foreign`.
- A failed or cancelled SDS stream is a run that takes no further step, so the safety
  statements about streams cover it.
- Whether a certificate is valid when a stream's handler starts is decided by an
  arbitrary time, supplied with the step.

### Findings

- The driver of the failover machine can be lost before Stop, and never comes back. This
  happens in some run exactly when a standby server is configured
  (`FailoverLoss.DriverSurvivesIffNoStandby`): main delivers a message on the last stream
  of its budget, and that stream ends before the fallback goroutine reacts; the restart goroutine then belongs to the session
  that the fallback goroutine cancels, and leaves without asking for MAIN.
- `GRPCMain` may return while a failover goroutine still has its store to `standbyActive`
  to do, because `wg.Done` precedes it. This too happens in some run exactly when a standby
  server is configured (`FailoverReturn.AllGoneOnReturnIffNoStandby`).
- A client whose file write fails does not try again when the same material is delivered,
  because the stored value is swapped first: a second delivery writes exactly if it differs
  from the stored value (`FilePair.Deliver`, `FilePair.DeliverTwice`,
  `FilePair.FailedWriteRun`).
- Recovery after a crash has one exception, empty material with no loadable pair on disk
  (`FilePair.RecoversIffNotVacuous`, `FilePair.EmptyMaterialRun`).
- While the first certificate of an entry is still being obtained for a stream or the HTTPS
  server, an HTTP request for it is answered with empty material: the request skips `renew`
  exactly when somebody is subscribed (`EntryRenew.RequestRenewsIffUnsubscribed`,
  `EntryRenew.UnissuedReply`).
- One forbidden name in a client's configuration keeps all its certificates from it, permitted
  ones included (`SdsPermitted.ServedOnlyIfAllPermitted`).
- `normalizeName` is idempotent exactly on names that do not end in two dots
  (`Domain.NormalizeTwice`), while the comment on `AsKey` promises that trailing dots do
  not matter.

## Model

| member | source | states |
|---|---|---|
| `FailoverTheorems.SingleDriverToken` | pkg/client/grpc_streamer.go:74-172 | in every reachable state at most one of channel, dispatcher, GRPCMain and goroutines holds the right to drive; before Stop nobody does exactly when a restart goroutine has left through its session-cancelled exit |
| `FailoverTheorems.TokenGoesToToken` | pkg/client/grpc_streamer.go:114-172 | every step before Stop other than that exit passes the token on |
| `FailoverTheorems.TokenComesFromToken` | pkg/client/grpc_streamer.go:114-172 | no step makes a token out of nothing |
| `FailoverTheorems.NoOverlapNoSelfBlock` | pkg/client/grpc_streamer.go:99-121 | two main goroutines never overlap on the counter or the stream; the dispatcher's sends to its own one-slot channel find it empty before Stop |
| `FailoverTheorems.StandbyOwnership` | pkg/client/grpc_streamer.go:94-247 | one failover goroutine at a time; its reads of the mutable session field denote its own session; before Stop that session is cancelled only after main received a message later than the arming; no fallback kills another session's standby; every session but the current one is cancelled |
| `FailoverTheorems.KillBeforeCancel` | pkg/client/grpc_streamer.go:240-243 | a session cancelled by a fallback goroutine had its standby killed by it first, and a kill issued while a standby stream runs hits that stream |
| `FailoverTheorems.CancelledLeaves` | pkg/client/grpc_streamer.go:184-265 | whoever waits in a cancelled session can leave at once, without a timer or a message |
| `FailoverSafety.InvStep` | pkg/client/grpc_streamer.go:74-265 | the invariant tying dispatcher, channel, sessions and goroutines together survives every step |
| `FailoverShutdown.WaitGroupCountsLive` | pkg/client/grpc_streamer.go:74-112 | the wait group equals dispatcher plus unfinished goroutines, every spawn happens under the dispatcher's unit, and at zero nothing can be spawned any more |
| `FailoverShutdown.EveryStepDecreasesWork` | pkg/client/grpc_streamer.go:74-291 | once the root context is cancelled every step of the streamer strictly decreases a natural number |
| `FailoverShutdown.NotStuck` | pkg/client/grpc_streamer.go:74-291 | after Stop a reachable state in which anything still runs has an enabled step that waits for no timer, no message and no room in the channel |
| `FailoverShutdown.ShutdownTerminates` | pkg/client/grpc_streamer.go:271-291 | under every schedule after Stop the number of steps is bounded, and where none is left everything has finished |
| `FailoverReturn.OnlyTheFlagIsLeft` | pkg/client/grpc_streamer.go:177-182 | once GRPCMain has returned, the dispatcher and every goroutine are gone, save a failover goroutine with only its store to `standbyActive` to do |
| `FailoverReturn.ReturnsBeforeTheFlag` | pkg/client/grpc_streamer.go:177-182 | with a standby, for every retry budget, a run ends with GRPCMain returned and that store outstanding |
| `FailoverReturn.AllGoneOnReturnIffNoStandby` | pkg/client/grpc_streamer.go:271-291 | that every goroutine is gone whenever GRPCMain has returned holds if and only if no standby is configured |
| `FailoverBudget.RetryBudgetExact` | pkg/client/grpc_streamer.go:144-171 | handleMain gives up exactly after max(1, RetryCount) consecutive short streams since the last long one or the last time it gave up; FAILOVER and RESTART_MAIN are sent only then, a backoff follows only a short stream, and MAIN is never sent after giving up; between attempts the counter is that streak and below the budget |
| `FailoverBudget.GivingUpAnswered` | pkg/client/grpc_streamer.go:163-171 | a main goroutine that gave up asks for FAILOVER iff a standby is configured and no failover goroutine exists, and for RESTART_MAIN otherwise |
| `FailoverStandby.StandbyBudgetExact` | pkg/client/grpc_streamer.go:184-227 | a failover goroutine sleeps the reconnect interval exactly after max(1, RetryCount) consecutive short standby streams, and the backoff after any other short one; its counter is that streak |
| `FailoverBudget.StreakIsMaximalSuffix` | pkg/client/grpc_streamer.go:144-150 | the streak is the length of the maximal suffix of short streams |
| `FailoverStreamer.Streamer.MainStreamEnded` | pkg/client/grpc_streamer.go:137-171 | handleMain's code after its stream, in place on the counter: which state it sends or that it backs off, and the new counter, for every combination of Stop, stream length, counter, budget and standby; and that is where the machine's steps end |
| `FailoverStreamer.StepsSettle` | pkg/client/grpc_streamer.go:137-171 | the machine has an execution of that goroutine leading to exactly that point and changing nothing else |
| `FailoverLoss.DriverSurvivesIffNoStandby` | pkg/client/grpc_streamer.go:252-265 | that somebody drives in every reachable state before Stop holds if and only if no standby is configured |
| `FailoverLoss.LossHappens` | pkg/client/grpc_streamer.go:161-265 | with a standby, for every retry budget, a run without Stop ends with neither driver nor standby goroutine |
| `FailoverLoss.LostForGood` | pkg/client/grpc_streamer.go:74-121 | once lost, the driver never returns and no new standby starts |
| `EntryModel.TruncateHour` | pkg/server/server.go:127 | the greatest full hour not after the given time |
| `EntryModel.CertEntry.StartWait` | pkg/server/cert_entry.go:99-107 | returns a different version at once, or parks on an open channel having seen the current version |
| `EntryBroadcast.NoLostWakeup` | pkg/server/cert_entry.go:89-118 | a parked waiter sleeps on the current open channel having seen the current version, or on a closed one while a newer version exists; no channel is closed twice; a return under a live context is strictly newer than `seen` |
| `EntryBroadcast.WakesUp` | pkg/server/cert_entry.go:108-117 | a process parked on a closed channel can go on at once and its own two steps return a version newer than it had seen |
| `EntryBroadcast.CurrentWhenIdle` | pkg/server/sds.go:213-281 | the versions one SDS handler offers strictly increase; a consumer parked on an open channel, serveHttps included, last offered or serves the current certificate |
| `EntryConsumers.HandlerComesToRest` | pkg/server/sds.go:210-281 | in every reachable state a live stream's handler can get by its own steps to having offered the current certificate and waiting for the next; it has offered nothing only if it waited for a first certificate or looked at an invalid one |
| `EntryConsumers.InvalidIsNotOffered` | pkg/server/sds.go:213-220 | from its first look at an invalid certificate nothing a handler does alone makes it offer anything |
| `EntryConsumers.OfferAwaitsAck` | pkg/server/sds.go:247-281 | an offer is followed by the wait for its ack, the ack by the wait for the next version |
| `EntryConsumers.ServerComesToRest` | pkg/server/http.go:149-201 | in every reachable state before Stop the HTTPS server can get by its own steps to serving the current certificate, or to waiting for a first one; once it has served it goes on serving |
| `EntryConsumers.FirstServedIsValid` | pkg/server/http.go:154-163 | serving starts with a certificate iff it is valid at the check |
| `EntryWindDown.WindsDown` | pkg/server/server.go:175-244 | any stream, HTTPS server, request or renewer whose context is done, and which waits for nobody's lock, gets to its end by its own steps, always through the branch that needs nobody else |
| `EntryWindDown.ContextEnds` | pkg/server/sds.go:213-281 | the end of a stream or request puts its process into that state |
| `EntryWindDown.DeadCallerTouchesNothing` | pkg/server/server.go:109-111 | a caller whose context was done when it called `renew` leaves without touching the entry |
| `EntryWindDown.RequestAnswered` | pkg/server/http.go:93-107 | after a call of `renew` that did not fail the request is answered with the current certificate, otherwise not at all |
| `EntryBroadcast.InvStep` | pkg/server/http.go:149-201 | what every waiter, SDS handler and HTTPS server knows about the entry survives every step of everybody |
| `EntryLifecycle.RenewerLifecycle` | pkg/server/server.go:175-244 | `subscribing` counts outstanding subscriptions; `cancelRenew` is set iff it is positive; every context made is current, cancelled or about to be cancelled; with no release under way at most one renewer is live, and none without subscribers; before Stop, with a subscriber and no start pending, exactly one is |
| `EntryOrders.OneOrderPerExpiry` | pkg/server/server.go:108-173 | ACME calls on an entry exclude each other, run only while the stored certificate is expired, and start no earlier than any ValidBefore stored before |
| `EntryRenew.RenewVouches` | pkg/server/server.go:108-173 | a call leaves `renew` without an error only if it found the certificate valid at its check or has itself published a version |
| `EntryRenew.RenewFinds` | pkg/server/server.go:113-125 | from any state, a caller that gets the lock while the certificate is valid leaves without changing anything |
| `EntryRenew.RenewFails` | pkg/server/server.go:127-138 | from any state, if ACME fails only the order remains and the error is returned |
| `EntryRenew.RenewMakes` | pkg/server/server.go:127-172 | from any state, a caller that finds the certificate expired can publish exactly what ACME returns as the next version, valid for the lifetime from the hour of the order, and hand it to the writer |
| `EntryRenew.ExpiredIsReplaced` | pkg/server/server.go:175-197 | in every reachable state with a free lock and an expired certificate, a live renewer's own steps lead to the next version, from its timer and from the end of a failed round too |
| `EntryRenew.RequestRenewsIffUnsubscribed` | pkg/server/http.go:91-97 | a request calls `renew` exactly when no stream and no HTTPS server is subscribed |
| `EntryRenew.ReplyVouched` | pkg/server/http.go:91-103 | a reply carries the certificate of one version, no older than the one its call of `renew` vouched for, and that call did not fail |
| `EntryRenew.UnissuedReply` | pkg/server/http.go:91-103 | a run in which a request is answered with empty material because a subscriber's first certificate is still being obtained |
| `EntrySeeded.SeededOrdersNothing` | pkg/server/server.go:121-125 | whatever renewers, streams and requests do, an entry seeded with a certificate makes no ACME call and keeps it until the clock reaches its ValidBefore |
| `EntryDisk.DiskNeverGoesBackwards` | pkg/server/cert_store.go:84-130 | between any two moments the version in a readable file never decreases, is never ahead of memory, and its content is the certificate minted as that version |
| `EntryDisk.NewestVersionAccounted` | pkg/server/server.go:158-169 | the newest version is saved (on disk unless the last write failed), queued, in the hand of the holder of `renewMu`, or given up |
| `EntryWindDown.AbandonedOnlyWhenDone` | pkg/server/server.go:162-169 | a version is given up only by the caller that made it and only under a done context |
| `EntryDisk.DrainedBeforeExit` | pkg/server/cert_store.go:106-130 | when the writer leaves its drain loop everything the queue ever accepted is saved, and on disk unless the last write failed |
| `EntryDisk.WriteReachesFile` | pkg/server/cert_store.go:71-87 | a write that succeeds leaves the writer's map, with the item just taken, on disk; one that fails leaves the file as it was or torn |
| `EntryDisk.RunReachesDisk` | pkg/server/cert_store.go:106-130 | over every run: after a last write that succeeded the file is the writer's map; if no write of the run fails, the file at exit is readable and at least as new as everything accepted |
| `EntryDisk.QueueReachesDisk` | pkg/server/cert_store.go:106-130 | in every reachable state the writer's own steps can bring everything queued to disk |
| `EntryWindDown.DrainOnlyAfterStop` | pkg/server/cert_store.go:114-126 | the writer drains only after Stop, and then never goes back to waiting |
| `EntryWindDown.WriterLeaves` | pkg/server/cert_store.go:114-126 | after Stop the writer's own steps lead to its end with the queue empty and everything accepted saved |
| `Retry.Do` | pkg/retry/retry.go:41-72 | the attempts made, the reason for stopping, success iff an allowed attempt that is reached succeeds, and the time: exactly the attempts and sleeps made, at most (n+1)A + n*15s |
| `Deadline.RenewRound` | pkg/server/server.go:108-145 | a round of renew with retries fits the stated bound, and renews exactly when the certificate had expired and a reached attempt succeeds |
| `Deadline.RunRenewer` | pkg/server/server.go:175-197 | the renewer's loop, round, pause of floor(R/4), round, produces a timeline whenever ACME would succeed at least once in any k+1 consecutive rounds |
| `Deadline.RenewalMeetsDeadline` | pkg/server/server.go:127-196 | if (k+2)D + (k+1)floor(R/4) <= R and lifetimes are at least an hour, every round that finds a certificate in force, the replacing one included, ends before ValidBefore + R |
| `Deadline.RenewedByDeadline` | pkg/server/server.go:127-196 | under the same condition a timeline that reaches ValidBefore + R contains a round that replaced the certificate and ended before it |
| `Deadline.DefaultsMeetDeadline` | pkg/config/server.go:265-269 | with the default settings and attempts of up to 14 minutes the deadline is met though any two consecutive rounds may fail |
| `Domain.NormalizeTwice` | pkg/domain/domain.go:82-84 | normalising twice equals once exactly unless the name ends in two dots |
| `Domain.NormalizeTwiceDiffers` | pkg/domain/domain.go:82-84 | a name on which normalising twice differs from once |
| `Domain.NormalForm` | pkg/domain/domain.go:82-84 | two names have the same normal form iff they agree up to ASCII case and one final dot; a normal form has no upper-case letter; a lower-case name without a final dot is its own |
| `Domain.SpellingDoesNotMatter` | pkg/domain/domain.go:25-63 | name lists equal up to case and one final dot have the same hash input, and allow the same names however those are spelt |
| `Domain.MatchesIffLabelSuffix` | pkg/domain/domain.go:55-60 | the string test is the label-wise suffix relation |
| `Domain.IsSubdomain` | pkg/domain/domain.go:51-63 | true iff some allowed name's label list is a suffix of the domain's, after normalisation |
| `Domain.AllAllowed` | pkg/domain/domain.go:67-74 | true iff every name is allowed; the empty list is |
| `Domain.AllowedPreorder` | pkg/domain/domain.go:51-63 | the relation is reflexive and transitive |
| `Domain.PermittedThroughCache` | pkg/server/http.go:83-97 | after a permitted request hits an entry of the same canonical set, every non-empty name of that entry is permitted, and exactly when the empty ones are too |
| `Domain.KeyInput` | pkg/domain/domain.go:28-45 | the loop, sort and join compute the hash input that the canonical set determines |
| `Domain.SameKeyIffSameSet` | pkg/domain/domain.go:28-45 | equal canonical sets hash the same input; for NUL-free names only they do |
| `Domain.AscendingUnique` | pkg/domain/domain.go:42 | a set has one sorted duplicate-free listing |
| `Domain.SortSorts` | pkg/domain/domain.go:42 | sorting a duplicate-free list keeps its elements and is ascending |
| `Domain.LexIsByteOrder` | pkg/domain/domain.go:42 | the sort order is the lexical order of bytes |
| `Domain.JoinSplit` | pkg/domain/domain.go:45 | joining the fields of a split gives the string back |
| `Domain.SplitJoin` | pkg/domain/domain.go:45 | splitting a join of separator-free fields gives the fields back |
| `Store.KeyIsCanonSet` | pkg/domain/domain.go:28-47 | without collisions two bundles share a key iff they have the same canonical set |
| `Store.CertStore.Load` | pkg/server/cert_store.go:45-69 | missing and unreadable files change nothing; otherwise every valid record is filed under the key of its own domains, expired ones are dropped, and properly keyed files are taken over exactly |
| `Store.CertStore.SaveEntry` | pkg/server/cert_store.go:84-87 | one record is replaced under the key of its domains, all records stay properly keyed, and the file follows |
| `Store.SaveThenLoad` | pkg/server/cert_store.go:45-82 | a fresh store loading what another saved holds exactly its still-valid records |
| `Store.CertCache.Get` | pkg/server/cert_entry.go:56-72 | the entry of the bundle's key, created once and then kept |
| `Store.CertCache.Seed` | pkg/server/server.go:76-97 | seeding makes one entry per record, holding its domains and certificate at version 0 |
| `Store.LookupTwice` | pkg/server/cert_entry.go:56-72 | two lookups give the same entry iff the canonical sets are equal |
| `Store.Restart` | pkg/server/server.go:76-97 | after load and seeding, whatever keys the file used, a lookup of any list with the canonical set of a persisted valid record returns an entry at version 0 with the certificate of a valid record of that key, and that record's own if they agree |
| `FilePair.Files.PrepareTempFile` | pkg/client/handler.go:48-69 | only temporary files change, whichever call fails; the file is there with its content iff none of the four calls fails |
| `FilePair.Files.WritePair` | pkg/client/handler.go:76-98 | after every single call the target files are old/old, new/old or new/new, switching at the ninth and tenth call; how far it gets is decided exactly by which of its first ten calls fail, and it succeeds iff none does; no temporary file is left by a success, nor by a write in which one call fails |
| `FilePair.Files.SaveAndReload` | pkg/client/handler.go:108-146 | how far the write gets, from the paths and the failing calls; the reload command runs exactly when the pair was saved, both files existed before and the command is not blank |
| `FilePair.Deliver` | pkg/client/daemon.go:86-104 | handlers run iff content differs from the stored value, which is swapped before the write; with a working file system the files match the delivery afterwards iff it differed from the stored value or they matched before |
| `FilePair.CrashThenDeliver` | pkg/client/handler.go:76-98 | what a crash after any number of calls leaves; after restart and one more delivery of the same non-empty pair both files hold it if no call fails, and in general exactly under a stated condition on the failing calls |
| `FilePair.RecoversIffNotVacuous` | pkg/client/daemon.go:124-168 | from any disk, restart and one delivery with a successful write end with matching files, iff the material is not empty or a pair was loadable or the files were already empty |
| `FilePair.DeliverTwice` | pkg/client/daemon.go:94-101 | two deliveries of new material leave the disk where the first write's failing calls left it, however well the file system works the second time; when the files match is stated exactly |
| `FilePair.FailedWriteRun` | pkg/client/daemon.go:94-101 | a run of the file methods whose first call alone fails ends, after two deliveries, with no file |
| `FilePair.EmptyMaterialRun` | pkg/client/daemon.go:94-168 | a run without failures in which empty material is never written |
| `FilePair.WatchUpdate` | pkg/client/daemon.go:86-104 | the loop calls the handlers with exactly the changes and ends storing the last delivery |
| `FilePair.OncePerChange` | pkg/client/daemon.go:94-101 | a delivery reaches the handlers iff it differs from the one stored before, each once and in order |
| `SdsTheorems.OneMessagePerPack` | pkg/server/sds.go:98-186 | in every reachable state at most one message about a pack exists on the wire or in anybody's hands |
| `SdsTheorems.AcksFit` | pkg/server/sds.go:138-146 | an ack about to be handed over meets a handler waiting for it and carries the version last offered |
| `SdsTheorems.ErrorBranchesUnreachable` | pkg/client/sds.go:146-150 | no ack is ever rejected, the client never sees an unknown name, and the server's only reachable error is the allow-list's |
| `SdsPermitted.ServedOnlyIfAllPermitted` | pkg/server/sds.go:148-184 | a pack has a handler, an offer or a delivery only if every name of the stream is permitted, and a stream is refused only if one is not |
| `SdsPermitted.SettlesByPermission` | pkg/server/sds.go:98-186 | under every schedule the steps are bounded, and where the stream stops it is refused iff some name is forbidden, with nothing ever offered, and otherwise every pack is at rest on the current certificate |
| `SdsTheorems.AckAcceptedIffOffered` | pkg/server/sds.go:260-270 | in any state, reachable or not, an ack is accepted iff it carries the version offered |
| `SdsTheorems.BadRequestsRefused` | pkg/server/sds.go:118-152 | in any state the stream ends for missing metadata or an undescribed name exactly when they are missing |
| `SdsTheorems.WireFollowsTime` | pkg/server/sds.go:245 | versions on the wire follow the time of issue, strictly from one second to the next |
| `SdsFirstOffer.StartsWithValid` | pkg/server/sds.go:213-220 | a handler starts with an offer iff the certificate is valid then, and otherwise waits |
| `SdsFirstOffer.NothingBeforeRenewal` | pkg/server/sds.go:213-220 | such a handler offers nothing in any run without a renewal of its pack |
| `SdsTheorems.EndToEndOrder` | pkg/client/sds.go:226-262 | the watcher takes the server's offers in order with none skipped and at most one waiting, each the certificate of one version, versions strictly increasing; handlers run once per change of content, in order |
| `SdsProgress.ReceiversNeverBlock` | pkg/server/sds.go:138-146 | neither receive loop ever waits on a handler |
| `SdsProgress.RestsOnlyWhenCurrent` | pkg/server/sds.go:206-282 | if nothing can move without a renewal, each pack's last delivery is the current certificate, or nothing was offered because it was invalid when the handler started |
| `SdsConvergence.StepDrops` | pkg/server/sds.go:98-282 | every step but a renewal strictly decreases a natural number, and a renewal adds at most one round to it |
| `SdsConvergence.Converges` | pkg/client/sds.go:112-262 | under every schedule the number of steps is at most the initial work plus a constant per renewal, and a stream that stops has delivered the current certificates |
| `SdsProof.InvStep` | pkg/client/sds.go:112-210 | the invariant locating every message by its pack's turn survives every step of both sides |

## Left out

- ACME and lego, challenge providers and account registration: foreign calls, an oracle here.
- TLS, X.509, PEM, protobuf, JSON and TOML: material is opaque and assumed to be carried without loss.
- gRPC, HTTP and keepalive: only ordered delivery, failure and cancellation are kept; a request whose TypeUrl or metadata has the wrong shape is not modelled beyond missing metadata.
- The HTTP polling loop, the token check, configuration, paths, logging and signal handling: they would add only easy members.
- The Caddy plugin, Kubernetes and Tencent Cloud updaters: thin wrappers over foreign libraries.
- The FNV-1a hash: an arbitrary function of the hash input.
- The reload command's execution: only whether it runs is modelled.
- Lower-casing outside ASCII: names are ASCII here.
- Wrap-around of the 64-bit entry version: versions are unbounded naturals.
- Several feeders of one update channel (main and standby at once): SdsTheorems speaks of one stream.
- In-place form of the concurrent loops: dispatcher, SDS loops, renewer and writer are step relations on values, so aliasing between goroutines appears only as shared components of the state.
- SdsModel: packs that share a cache entry are renewed independently, which allows more runs than the server has.
- Deadline.RenewalMeetsDeadline: speaks of a renewer that never waits for `renewMu`, because the bound on a round has to include that wait.
- Files.PrepareTempFile: does not model the content of a temporary file after a failed write, since it is removed or never renamed.

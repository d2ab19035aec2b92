# runed: verification model

runed is a local embedding daemon. It runs one `llama-server` child, answers embed requests over a UNIX
socket, keeps the centroid set that routes inserts, and installs its own binaries. This project models its
protocols and proves what they guarantee, for every interleaving, every run and every input.

| files | what they model |
|---|---|
| `ChildRecord`, `ChildLifecycle` | the child lifecycle: four locks, a watcher per child, the idle ticker and any number of request threads, as a transition system with one step per lock operation, `mu` section, probe result, child event and clock tick |
| `ChildInvariant`, `ChildShapes`, `ChildFrames`, `ChildSteps`, `ChildWorld`, `ChildEvents` | one inductive invariant of that system, what any step can change at all, what a step must do for the invariant to survive, and the proof that every step does it |
| `ChildBackend` | the backend object whose sections act out every run |
| `ChildTheorems`, `ChildAnswers`, `ChildFirstStart`, `ChildSevered`, `ChildProgress`, `ChildRuns` | what follows: one child, drained embeds, justified and spaced kills, what each answer rests on, no deadlock, the retry loop, and where a claim fails |
| `ChildScenarios` | runs that do happen, from every state that allows them: a verdict kill and the replacement, a suspend reported as idle |
| `Route`, `Centroids`, `CentroidCache` | the byte string under the content hash, the argmax, assembling and installing a pushed set, the memory and disk stores under crashes |
| `SocketOwnership`, `SocketListener`, `Spawn` | daemons that take over one socket path by inode, and clients that launch daemons under a file lock |
| `Rendezvous` | those clients and those daemons in one system: what the file lock does for the socket |
| `FilePath`, `SocketPath` | path normal forms, and why a client and the daemon it launches meet at one socket |
| `Install` | download, unpack and marker, with a crash possible before every file operation |

Methods on classes follow the source's imperative code; transition systems stand for code whose point is
concurrency between goroutines or processes. Every system has `Init`, `Step`, `Run` and `Reachable`, an
inductive invariant `Inv`, and theorems about reachable states or runs.

## Where an obvious claim fails

- The daemon can kill a child that a request is talking to in two ways. A failed start that `EnsureStarted` made
  itself is cleaned up without a drain (`ChildSevered.CleanupCanSeverAnEmbed`); no other call of stopLocked severs
  a request (`ChildFirstStart.OnlyEnsureCleanupSevers`). And every child dies with the daemon context, which the
  ownership watchdog cancels on eviction without taking any lock (`ChildSevered.ContextKillCanSeverAnEmbed`).
  `ChildFirstStart.OnlyCleanupOrContextSevers` says that in no run is there a third way.
- The comment on `sameSocket` calls (device, inode) a stable identity while the listener is alive. `Close`
  compares only after it has closed the listener, so the number can have been reused: an evicted daemon can then
  unlink the new owner's socket (`SocketOwnership.CloseCanRemoveTheOwnersFile`), and exactly then
  (`SocketOwnership.CloseRemovesForeignFileIff`).
- Two daemons can serve at once. `SocketOwnership.AtMostOneServes` says when they cannot, by four rules a run may
  keep; for each rule there is a run that breaks only that one and ends with two (`OverlapMakesTwo` and others).
- A child that dies between the moment `Stop` saw it running and `Stop`'s own write is reported as suspended;
  `ChildTheorems.IdleExactlyAfterStop` says exactly when IDLE is reported, and when, the Stop still at work, not yet.
- A client killed while it waits for its daemon lets the next client launch another one
  (`Spawn.BoundIsReached` with only that term), so the launch bound counts it. And it can let two daemons serve at
  once, as can a wait that gives up (`Rendezvous.LostWaitMakesTwo`); if neither happens, the spawn lock keeps
  daemons one at a time (`Rendezvous.LaunchedDaemonsServeAlone`), and if it does, the watchdogs leave one
  (`Rendezvous.WatchdogsRecover`).
- A reply with more vectors than texts fails a batch of one text but answers the single call
  (`Centroids.BatchOfOneIsSingle`).
- The hash input is not injective on ragged rows (`Route.RaggedSetsCollide`), and a push without a preset is not
  checked against its version (`Centroids.LegacyPushIsUnchecked`).
- After an upgrade that died half-way, a return to the old manifest can find its marker beside the new executable
  and return that (`Install.RollbackRun`).
- A client path that names the socket with a trailing slash or a final "." sends the daemon elsewhere
  (`SocketPath.CanonicalNamesAgreeIff`).

## Model

| member | source | states |
|---|---|---|
| ChildEvents.ReachableInv | internal/backend/llama.go:75-111 | the inductive invariant holds in every reachable state of any number of threads and children |
| ChildFrames.MovedKeeps | internal/backend/llama.go:86-106 | if a step passes locks only to or from its own thread, and keeps what that thread knows, then the invariant of every thread, child and lock survives it |
| ChildBackend.Replay | internal/backend/llama.go:322-327 | the backend object, its `mu` sections performed in the order of any run, ends with the run's record, and that record is consistent |
| ChildBackend.LlamaBackend.Perform | internal/backend/llama.go:417-429 | on the mutable fields, each step's section turns the record before the step into the record after it; every other step leaves the fields alone |
| ChildBackend.RecordConsistent | internal/backend/llama.go:542-566 | in every reachable state: a set `cmd` means running and its own channel, suspended means no `cmd`, and with lifecycleMu free no stop is marked |
| ChildShapes.StepShape | internal/backend/llama.go:86-106 | any thread's step moves only that thread, keeps its identity, takes or leaves only its own read lock, and touches record and children only as its section says |
| ChildTheorems.AtMostOneLiveChild | internal/backend/llama.go:277-327 | two running children are the same child |
| ChildTheorems.PortBelongsToChild | internal/backend/llama.go:377-381 | with lifecycleMu free and `cmd` set, the port is set and is the one that child announced |
| ChildTheorems.WatcherClearsItsOwnChild | internal/backend/llama.go:417-429 | a watcher always finds its own child in the record, so it never clears a newer one |
| ChildTheorems.FailedStartLeavesNoChild | internal/backend/llama.go:315-317 | the step with which a start returns an error leaves no child process and no `cmd` |
| ChildTheorems.FailureFindsNoCmd | internal/backend/llama.go:382-389 | wherever a start gives up, the record is already empty and the giver-up holds lifecycleMu |
| ChildTheorems.NoEmbedSevered | internal/backend/llama.go:527-548 | while Stop, or the restart path, signals and awaits a child, it holds the drained writer lock and no request is outstanding |
| ChildFirstStart.OnlyEnsureCleanupSevers | internal/backend/llama.go:403-405 | a request that has read a port overlaps a termination by stopLocked only if that cleans up a start made by EnsureStarted |
| ChildFirstStart.OnlyCleanupOrContextSevers | internal/backend/llama.go:302-303 | in every run, a kill by the daemon, whether a signal of stopLocked, its SIGKILL or the end of the context, hits a child under a request that has read a port only in that clean-up or with the daemon context done |
| ChildFirstStart.NoneReadyYet | internal/backend/llama.go:158-163 | during the one call of Start no child has been ready |
| ChildSevered.CleanupCanSeverAnEmbed | internal/backend/llama.go:396-405 | a run, with both requests after a Start that returned nil, in which that clean-up signals the child another request is calling |
| ChildSevered.ContextKillCanSeverAnEmbed | cmd/runed/main.go:499-504 | a run, after a Start that returned nil, in which the end of the daemon context can kill the child a request is calling under the read lock, with nobody terminating it |
| ChildRuns.DrainWaitsOneTimeout | internal/backend/embed.go:71-76 | in every run whose requests end by their timeout, a drain still waiting has waited at most one such timeout |
| ChildTheorems.DrainWaitsForEarlierReaders | internal/backend/llama.go:527-529 | no reader counted by a pending drain took its lock after the drain began |
| ChildTheorems.VerdictKillIsJustified | internal/backend/llama.go:234-265 | a verdict kill: the same child missed the probe made after the drain, under both locks, and nothing proved life within the grace |
| ChildTheorems.RestartRate | internal/backend/llama.go:235-247 | verdict kills in a window of length T number at most 1 + T / grace, plus the restarts that failed |
| ChildTheorems.KillsAreSpaced | internal/backend/llama.go:267-268 | the spacing of any two verdict kills, by induction over the kills between them |
| ChildTheorems.IdleExactlyAfterStop | internal/backend/llama.go:495-516 | Serving, asked at any moment: IDLE exactly if the last child left inside a Stop that had seen it running and has since written its state; DEGRADED exactly if there is no child for another reason; otherwise it probes |
| ChildTheorems.ServingAfterProbe | internal/backend/llama.go:500-511 | an answered probe is OK and proof of life; a missed one is OK exactly within 15 s of the last proof of life, else DEGRADED |
| ChildAnswers.ClaimsAreSeen | internal/backend/llama.go:180-275 | in every run an answer rests on what that very call has seen: EnsureStarted is content only on an answered probe or a proof of life within the grace, judges only after a missed probe without one, refuses only without a context or after a failed start; likewise the start's giving up, Stop's end, the call's outcome and Serving's answers |
| ChildAnswers.EscalatesIff | internal/backend/llama.go:213-221 | after a missed quick probe EnsureStarted escalates exactly if there is no proof of life or it is 15 s old, and is content exactly otherwise |
| ChildAnswers.JudgesIff | internal/backend/llama.go:234-247 | a queued judge judges the child exactly then |
| ChildAnswers.RefusesIff | internal/backend/llama.go:180-190 | EnsureStarted goes on exactly if Start was called and its context is not done |
| ChildAnswers.AsksUnlessEmpty | internal/backend/embed.go:135-139 | with a child assured a batch of no texts is answered without a request, every other call goes on to make one |
| ChildAnswers.LifeIsStampedIff | internal/backend/embed.go:101-105 | proof of life moves, and to the present, exactly with a completed call or an answered health check |
| ChildScenarios.HungChildIsReplaced | internal/backend/llama.go:213-275 | from every state with a child up, no lock held and no proof of life in the grace, a request whose probes are missed goes on to signal that child and then to start another |
| ChildScenarios.VerdictKillHappens | internal/backend/llama.go:249-267 | a run that begins with Start and reaches a verdict kill of a running child |
| ChildScenarios.StoppedChildIsIdle | internal/backend/llama.go:527-548 | from every state with a child running and no lock held, a Stop can run to its end, and Serving then says IDLE |
| ChildTheorems.SilentOnlyWhenStopped | internal/backend/llama.go:430-435 | an exit goes unlogged only if a stopLocked has marked that very child |
| ChildProgress.LockOrder | internal/backend/llama.go:86-106 | whoever is waited for, lock holder or drained reader, is unfinished and further along the order restartMu, inflightMu, lifecycleMu |
| ChildProgress.StepsOrWaits | internal/backend/llama.go:86-106 | every unfinished thread can step, awaits its child or that child's watcher, or waits for another thread |
| ChildProgress.NoDeadlock | internal/backend/llama.go:86-106 | from every unfinished thread of every reachable state, at most four waits lead to one that can go on, so no waits close a cycle |
| ChildProgress.LifeHolderProgress | internal/backend/llama.go:377-390 | the holder of lifecycleMu can step, or its child's watcher can, or it waits for a running child |
| ChildRuns.KeptSuspendingLosesChildren | internal/server/server.go:240-257 | a call that ends with "kept suspending" saw two different children die during that one call |
| ChildRuns.LostAreDistinct | internal/backend/embed.go:59-63 | each ErrNotStarted of one call is owed to another child |
| Route.Validate | internal/route/route.go:78-91 | accepts exactly the valid sets; each error says what is wrong, the first bad row included |
| Route.ComputeVersion | internal/route/route.go:43-60 | the nested loops hash exactly the specified byte string |
| Route.VerifyVersion | internal/route/route.go:66-74 | passes exactly sets without a preset and sets whose version is their hash |
| Route.DecodeEncode | internal/route/route.go:43-59 | a valid set is read back from its hash input, whatever bytes the preset holds |
| Route.EncodeDecode | internal/route/route.go:43-59 | whatever decodes is the hash input of what it decodes to |
| Route.EncodeInjective | internal/route/route.go:78-90 | valid sets have equal hash inputs exactly if they are equal but for the version |
| Route.EncodeLayout | internal/route/route.go:46-58 | which byte stands where: dim and count lowest byte first, preset, one NUL, then rows and coordinates in order, lowest byte first |
| Route.RaggedSetsCollide | internal/route/route.go:53-58 | two different sets with ragged rows and one hash input |
| Route.HexInjective | internal/route/route.go:58-58 | equal hex strings are equal hashes |
| Route.HexRoundTrip | internal/route/route.go:58-58 | reading two lower-case digits a byte, the greater first, gives the hash back |
| Route.VersionSays | internal/route/route.go:58-58 | a version is "sha256:" and the hex of the content's hash |
| Route.VersionPinsContent | internal/route/route.go:62-74 | under an engine's version a set with a preset verifies exactly if it is the engine's, short of a collision |
| Route.Assign | internal/route/route.go:97-110 | the loops return the argmax of IEEE 754 comparison: no finite product is above the winner's, in reals; lowest id, 0 if nothing exceeds -Inf, below nlist |
| Route.RoutesInReals | internal/route/route.go:105-107 | the description in numbers: no finite product above the winner's, +Inf beaten by none, equal products to the lowest id, 0 if no product is a number or +Inf |
| Route.DotGoesOn | internal/route/route.go:100-104 | an inner product starts at zero and takes in one more pair of coordinates at a time, as many as both have |
| Route.RoutesUnique | internal/route/route.go:93-96 | at most one cluster meets that description |
| Route.AssignedUnique | internal/route/route.go:93-96 | a set and a vector determine the id |
| Route.AssignedIdIsAssigned | internal/route/route.go:97-110 | the search as a fold finds the cluster that the description picks |
| Route.BestExtends | internal/route/route.go:105-107 | one more product keeps the running best the best |
| Centroids.Receive | internal/server/centroids.go:37-73 | the frame machine: accepted exactly if in order, complete and headed; the set has the header's fields and the batches laid end to end; the error is the first thing wrong |
| Centroids.SentIsFlattened | internal/server/centroids.go:66-71 | the vectors sent are the batches laid end to end, the first one first |
| Centroids.Server.SetCentroids | internal/server/centroids.go:36-106 | installs exactly the accepted streams, memory first; a rejected stream changes neither memory nor disk |
| Centroids.Server.LoadCentroids | internal/server/centroids.go:18-29 | installs exactly a present, valid set |
| Centroids.RejectionIsDetermined | internal/server/centroids.go:44-86 | a stream is rejected for one kind of reason, and never when it is accepted |
| Centroids.SplittingIsIrrelevant | internal/server/centroids.go:54-71 | two streams in order with one header, whose batches laid end to end are equal, have one verdict and install one set, however they are split and whatever nlist says (short of exhausting memory) |
| Centroids.OnlyTheEngineSetIsAccepted | internal/server/centroids.go:77-86 | a push with a preset is accepted exactly if it delivers the engine's dim, preset and vectors |
| Centroids.LegacyPushIsUnchecked | internal/route/route.go:66-69 | without a preset, different sets are accepted under one version |
| Centroids.BackendEmbedBatch | internal/backend/embed.go:135-155 | answered exactly by a reply of as many vectors as texts, and then text by text with the vector at its place; no request for no texts |
| Centroids.Server.EmbedBatch | internal/server/server.go:262-296 | gates, two attempts, and every text answered by the deciding reply's vector at its place, routed by the one set read at the start |
| Centroids.Server.RouteAll | internal/server/server.go:278-287 | the responses filled in place are, one by one, the answers to the vectors |
| Centroids.BackendEmbed | internal/backend/embed.go:115-127 | the first vector of the answer, exactly if there is one |
| Centroids.Server.Embed | internal/server/server.go:228-257 | gates, two attempts, and the vector routed by the set read at the start |
| Centroids.BatchOfOneIsSingle | internal/server/server.go:245-292 | decided by one attempt, a batch of one text and a single call agree, except that more vectors than one fail the batch only |
| Centroids.AnswersUnique | internal/server/server.go:245-252 | two answers to one vector under one set are equal |
| CentroidCache.MemoryIsLastInstall | internal/server/centroids.go:88-99 | with installMu free, memory is the last set in lock order, or what the boot restored |
| CentroidCache.CacheIsLastRenamed | internal/route/route.go:116-136 | at every moment, crashes included, the cache is the last set whose rename happened, never a torn file |
| CentroidCache.StoresAgree | internal/server/centroids.go:88-99 | if the last push's rename happened, memory and disk hold one set |
| CentroidCache.BootRestoresLastRenamed | internal/route/route.go:144-158 | a restart serves exactly the set of the last rename, of whatever boot |
| CentroidCache.AnswersComeFromOneSet | internal/server/server.go:263-270 | with pushes between any two fields written, a finished request has one answer a vector, in order, all from one checked set installed in this process |
| CentroidCache.FillKeeps | internal/server/server.go:278-287 | each field written into an answer keeps the finished answers right and the current one right as far as it is |
| CentroidCache.StepKeepsInv | internal/server/centroids.go:90-99 | every step of every push, request, crash and boot keeps the invariant |
| CentroidCache.SmoothPushIsStored | internal/route/route.go:116-136 | a push that gets the lock and whose operations all work ends, in nine steps, with its set in memory and in the cache, the lock free and no temporary file left |
| CentroidCache.FailureKeepsCache | internal/route/route.go:119-136 | a failed operation of Persist leaves memory and cache as they were, and the push only cleans up |
| CentroidCache.RequestFinishes | internal/server/server.go:278-287 | once the backend has answered, a request finishes with an answer a vector |
| SocketOwnership.OwnerIsLastBinder | cmd/runed/main.go:479-507 | the owner of the path is the last daemon that bound, so there is at most one, even if files are deleted from outside |
| SocketOwnership.AtMostOneServes | cmd/runed/main.go:106-118 | in every run with true dials, no outside deletion, one starter at a time and no shared inode, at most one daemon serves and it owns the path |
| SocketOwnership.FalseDialMakesTwo | cmd/runed/main.go:448-457 | without true dials, the other rules kept: two daemons serve |
| SocketOwnership.WipeMakesTwo | cmd/runed/main.go:167-170 | without the ban on outside deletion, the others kept: two daemons serve |
| SocketOwnership.OverlapMakesTwo | cmd/runed/main.go:113-118 | without one starter at a time, the others kept: the stale-file removal makes two daemons serve |
| SocketOwnership.SharedInodeMakesTwo | internal/ipc/uds_unix.go:105-113 | with a shared inode, the others kept: two daemons serve |
| SocketListener.Replay | internal/ipc/uds_unix.go:60-86 | listener objects that bind, compare and unlink, driven through any run of any daemons, leave at the path exactly that run's file and stand for that run's daemons |
| SocketListener.Perform | internal/ipc/uds_unix.go:105-121 | each step's file operation on the objects gives the step's path; StillOwned answers true exactly if the watchdog's step leaves the daemon serving |
| SocketOwnership.CloseRemovesForeignFileIff | internal/ipc/uds_unix.go:105-113 | Close removes another daemon's file exactly if that file was bound with the closer's inode between its two steps |
| SocketOwnership.CloseLeavesTheOwner | internal/ipc/uds_unix.go:22-29 | in runs without such reuse, an evicted daemon's Close leaves the owner its file |
| SocketOwnership.WatchdogsLeaveTheLastBinder | cmd/runed/main.go:487-505 | once starts have ended, every daemon whose watchdog has looked and that still serves is the last binder |
| SocketOwnership.YieldsIff | cmd/runed/main.go:106-112 | a starting daemon whose dial tells the truth gives up exactly if a live listener is at the path |
| SocketOwnership.BindsIff | internal/ipc/uds_unix.go:60-86 | a bind succeeds exactly on a free path with nothing going wrong; otherwise the daemon ends and the path is as it was |
| SocketOwnership.StartsAreWarranted | internal/ipc/uds_unix.go:41-60 | in every run a daemon touches the path only after an unanswered dial of its own; listening, it removes a socket only after a second one, another file only having seen that it is none, and binds only where it has seen or made the path free |
| SocketOwnership.ListensOverStaleFile | internal/ipc/uds_unix.go:41-60 | whatever file is there that nobody serves at, a listening daemon takes it away and serves |
| SocketOwnership.CloseCanRemoveTheOwnersFile | internal/ipc/uds_unix.go:138-144 | with every other rule kept, a reused inode makes Close unlink the live owner's file |
| Spawn.LaunchBound | internal/spawn/spawn.go:39-77 | launches number at most 1 + times the socket went from answering to absent + waits that gave up + clients killed while waiting |
| Spawn.BoundIsReached | internal/spawn/spawn.go:62-76 | whatever the numbers of drops, failed waits and killed waiters, some run has them and meets the bound |
| Spawn.NoLaunchWhileWaiting | internal/spawn/spawn.go:55-61 | while a client waits for its daemon no other client launches |
| Spawn.StepKeepsInv | internal/spawn/lock.go:22-47 | every step keeps lock ownership and the launches paid for |
| Spawn.AnswersAreSeen | internal/spawn/spawn.go:39-77 | in every run a client locks only after finding the socket absent, launches only after finding it absent again under the lock, succeeds only on an answer it has seen, and fails only on something hostile or a failed operation |
| Spawn.FailureEndsCall | internal/spawn/spawn.go:50-75 | a failed operation ends the call in an error, under the lock by way of its release, and launches nothing |
| Rendezvous.LaunchedDaemonsServeAlone | internal/spawn/spawn.go:55-61 | however many clients race, while no wait has given up and no waiter was killed: the daemons they launch keep OneStarter, so at most one serves and it owns the path, and they number at most 1 + drops |
| Rendezvous.LostWaitMakesTwo | internal/spawn/spawn.go:76-76 | one wait that gives up, or one waiter killed, and a run ends with two daemons serving |
| Rendezvous.RunKeepsInv | internal/spawn/spawn.go:62-77 | in every such run daemons start only under a waiting client and never beside a live one, and a client about to launch has the field to itself |
| Rendezvous.WatchdogsRecover | cmd/runed/main.go:479-505 | whatever became of the waits: once nobody starts and no more are launched, each daemon still serving after its watchdog has looked owns the path and is found by clients, so there is at most one |
| FilePath.AbsOfCleanIsCanon | internal/ipc/resolve_unix.go:38-41 | cleaning and then making absolute gives the canonical name, for every spelling |
| FilePath.CleanIdempotent | internal/ipc/resolve_unix.go:38-38 | cleaning twice is cleaning once |
| FilePath.LocalStaysInside | internal/bootstrap/extract.go:57-61 | a local entry name, joined to the destination, stays below it |
| FilePath.LocalIffStaysBelow | internal/bootstrap/extract.go:49-58 | a name is local exactly if it is neither empty nor absolute and no beginning of it climbs above where it starts |
| FilePath.LongerPaths | internal/ipc/resolve_unix.go:38-41 | one more segment: a name is added, "." and a slash add nothing, ".." takes the last name away, and above the root there is nothing |
| SocketPath.ResolvedFits | internal/ipc/resolve_unix.go:42-46 | every resolved path is below the sun_path limit |
| SocketPath.ResolveIdempotent | internal/ipc/resolve_unix.go:31-36 | resolving a resolved path changes nothing |
| SocketPath.SpellingsConverge | internal/ipc/resolve_unix.go:32-35 | spellings of one name resolve alike |
| SocketPath.AliasIsShort | internal/ipc/resolve_unix.go:23-25 | the alias is the clean path it looks like, and short for every uid and hash |
| SocketPath.AliasesAgreeIff | internal/ipc/resolve_unix.go:23-46 | two aliases are one path exactly for one user and names whose hashes begin alike |
| SocketPath.ResolvesTo | internal/ipc/resolve_unix.go:37-46 | up to 103 bytes the canonical name itself, beyond that the user's alias for it |
| SocketPath.CanonicalNamesAgreeIff | internal/spawn/spawn.go:124-135 | client and daemon agree exactly if the client's path, as written, ends in embedding.sock |
| SocketPath.ClientMeetsDaemon | cmd/runed/main.go:100-100 | the launched daemon binds the very path its client probes |
| SocketPath.ShortPathsMeetIff | internal/bootstrap/paths.go:48-61 | below the limit they meet only then |
| Install.Disk.StreamWithProgress | internal/bootstrap/download.go:96-118 | what is hashed is what is on disk, in full |
| Install.Disk.DownloadAndVerify | internal/bootstrap/download.go:33-94 | the target changes only to bytes of the wanted hash and size, whenever the process dies; undisturbed, it succeeds exactly if the response delivers them |
| Install.Disk.DownloadWithRetry | internal/bootstrap/install.go:202-231 | the same over three attempts; undisturbed, it succeeds exactly if one of three delivers before the caller gives up |
| Install.Disk.FileMatchesSHA256 | internal/bootstrap/download.go:133-147 | true exactly if the file is there with that hash |
| Install.FoldIgnoresCase | internal/bootstrap/download.go:83-83 | hashes compare digit by digit, a capital letter like its small one |
| Install.Disk.WriteOne | internal/bootstrap/extract.go:89-122 | an entry appears in full or not at all; undisturbed, exactly if it can be read in full |
| Install.Disk.ExtractTarGz | internal/bootstrap/extract.go:19-87 | every path is kept, some entry's temporary name or in full from an entry, and inside the destination; on success every entry nothing overwrote is in place, and the list is the archive's order; undisturbed, it succeeds exactly if the archive opens and every entry can be read |
| Install.LastEntryInPlace | internal/bootstrap/extract.go:41-86 | if an entry names a path, the last one that does has its bytes there |
| Install.UnpackingStaysInside | internal/bootstrap/extract.go:52-61 | whatever the archive holds, every changed path is below the destination, or such a name with the temporary suffix |
| Install.Disk.WriteMarker | internal/bootstrap/install.go:350-351 | the marker may be torn, but only to a beginning of the hash |
| Install.Disk.EnsureLlamaServer | internal/bootstrap/install.go:285-355 | files change only to what the manifest's artifact installs; a trustworthy marker stays so at any crash, and then the result is the manifest's own; for a raw executable, an undisturbed boot installs it and its marker or finds both, and one that stops at the chmod leaves the new executable beside the old marker; undisturbed, and with a well-made manifest, it returns exactly if its marker was beside the executable or the artifact can be had, and leaves both in place |
| Install.Disk.EnsureModel | internal/bootstrap/install.go:369-402 | a returned model hashes to the manifest's value; nothing else is touched; undisturbed, one is returned exactly if it was there or some attempt delivers it |
| Install.Disk.EnsureAll | internal/bootstrap/install.go:84-97 | one boot: the server step, then the model step, keeps all that is known of the disk |
| Install.Disk.RunBoots | internal/bootstrap/install.go:59-112 | any boots and crashes from an empty disk: every file comes from a manifest, every returned model matches, and without a rollback every returned executable is its own manifest's; undisturbed boots whose artifacts can be had all succeed |
| Install.HonestAtBoot | internal/bootstrap/install.go:300-309 | a matching marker found at boot can be trusted if no earlier manifest has come back |
| Install.RollbackRun | internal/bootstrap/install.go:300-351 | three boots of a fresh disk under manifests a, b, a, the second dying before it writes its marker: the third finds the marker of a and returns the executable of b |
| Install.RollbackFindsAStaleMarker | internal/bootstrap/install.go:300-309 | a disk with the old marker beside the new executable satisfies all that RunBoots keeps of the disk, and the old manifest's marker does not vouch there |
| Install.MarkerVouchesForOneManifest | internal/bootstrap/install.go:300-309 | with one manifest, a matching marker beside the executable means it came from an archive with that hash |

## Granularity

- Each section under `mu` is one step; `noteAlive` reads the clock and stores in one step; publishing a child and
  starting its watcher are one step.
- A probe is answered only by a running child that has announced the probed port; it may fail for no reason.
- `DrainWaitsOneTimeout` counts a request's timeout from its read lock, and the clock does not pass it.
- bind, chmod and the reading of the inode are one step; so are the inode comparison and the unlink in `Close`. A
  live listener pins its inode number.
- In `CentroidCache` a crash is one of the process: written data stays. In `Install` a crash or failure can come
  before any file operation and can cut a write short. Boots exclude one another, as the install lock provides.
- Requests may come before Start has returned; the server lets none through then, so there are more runs here.
- `flock` is exclusive and released when its holder dies.
- A child that dies for a reason outside the daemon (a crash, the memory killer) just exits; the daemon's own kills
  are the signals of stopLocked and the end of the context.
- In `Rendezvous` every daemon is launched by a client, and a client's stat and dial are one step that sees the socket
  as it is or reports a failure. The two sides agree on the path by `SocketPath.ClientMeetsDaemon`.
- `SetCentroids` preallocates room for as many vectors as the header's `nlist` says, before any check; a huge `nlist`
  may exhaust memory and end the process. The model has no memory limit, so there `nlist` is irrelevant.

## Left out

- HTTP, gRPC, protobuf, gob, gzip and tar formats: they appear as success, failure or a value; gob is taken to be injective on valid sets.
- SHA-256: any function; where content must be pinned, the collision is named in the lemma.
- Rounding in the inner product: the accumulation is any function, since the argmax does not depend on it.
- `client/client.go`: one retry around `EnsureDaemon`; its launches are those of `Spawn`, the rest is settled by reading one branch. Its connection replacement and the calls it cuts off are not modelled.
- A failed exec keeps the old state: the model keeps it too.
- The time a start may take: the wait for a port has none of its own, and the bound in the comment on the install lock ignores retries.
- Liveness of the network, of downloads and of the model loading; fairness of the scheduler.
- `Health`'s order of statuses, `stagePhase`, `parseIdleTimeout`, activity counters other than `requests`, shutdown plumbing.
- License files, the audit file, manifest fetching, configuration, logging, progress reports, file modes and ownership checks of the alias directory.
- Windows.
- Install.Disk.RunBoots: the executable's provenance is promised per manifest only if a replaced manifest does not come back; after a crash during an upgrade, a return to the old manifest can find its marker beside the new executable.
- Install.MarkerVouchesForOneManifest: the executable's path must not be one of the installer's own files, because writing those would overwrite it.
- SocketPath.ShortPathsMeetIff: the only-if is proved where no alias is used, because two aliases differ only as far as the hash does.
- Install.UnpackingStaysInside: an entry named like the destination itself has its temporary file beside it, as in the code; the rename over the directory, which the system refuses, is not refused here.
- ChildTheorems.RestartRate: counts failed restarts separately, because a restart that fails stamps no proof of life.

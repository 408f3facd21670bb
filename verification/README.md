# Verified model of the Substrate compute driver

The driver keeps three parties in agreement: OpenShell's gateway, which asks for
create, stop, start and delete; Substrate, which moves actors on its own; and a
launcher inside each actor. This project models the parts of it whose
correctness rests on interleavings, on crash points or on exact arithmetic, and
proves what they are for. `dafny verify dfyconfig.toml` checks all of it.

## How the modules fit together

| files | models |
|---|---|
| `Substrate`, `StopProtocol` | Substrate's actor states and RPC effects; stop, start, re-suspend, watch, get, create, delete and reap of one actor as a labelled transition system with a program counter per task |
| `StopSafety`, `StopDurability`, `StopAgreement`, `StopConvergence` | what holds over every run of that system |
| `LoneTask`, `CreateRetry`, `Driver` | the driver as classes over its store and Substrate; each call equals the transition system's steps taken alone, and a create equals a function whose retries converge |
| `FileNames`, `StoreFiles`, `BundleStore` | file names, directory contents, the store as a class that issues one system call at a time |
| `LaunchEndpoint`, `KeyCache` | the long poll against the version counter; the verifier's key cache |
| `Launcher`, `LauncherMatch`, `LauncherRoles`, `EndToEnd`, `Adoption` | the two launcher roles as interleaved steps; when sandbox and supervisor match; their code as classes; store, endpoint and launchers composed; what they come to in the end |
| `Watch`, `Listing` | the synthetic watch stream; page walk and reaping |
| `Quantity`, `Template`, `EnsureReady` | quantities, template synthesis and naming, the golden-snapshot poll |

Conventions. An RPC is one atomic step that succeeds, is refused, or takes effect
and loses its reply. A task that ends at its RPC releases the lock in that same
step, so the transition system allows every interleaving the code does and some
more. `mark_stopped` is two steps, disk then memory. A cancelled call is dropped
at an await point and its lock with it; a restart drops all tasks and reloads the
mark from disk. In the transition systems "number", "published" and similar
history fields are read by properties only, never by a step. Sequential classes
take the outcome of each call as a parameter, so a contract covers every failure.
Times are nanoseconds.

Two things a reader might expect are not so, and the model follows the code. The
cached set need not agree with the markers on disk: `OverlapDiverges` and
`CutReapDiverges` are runs that end apart, and `AgreementIsExact` says exactly
which runs cannot. The sandbox role may start on the old files against the new
supervisor, against the comment at `runtime/launcher.py:137-138`:
`OldFilesNewSupervisor` is such a run, and `StartsMatchExactly` says exactly when
it does not.

## Model

| member | source | states |
|---|---|---|
| StopSafety.StopIsReported | src/lib.rs:1269-1307 | in every interleaving, a report whose mark was read after a checkpoint's RPC took effect carries the gateway-stopped rows and never Substrate's own checkpoint row, whatever state it saw, unless something cleared the mark between that checkpoint's marking and that read |
| StopSafety.StateBeforeMark | src/lib.rs:1275-1287 | every mark read follows the same observer's state read, so whoever saw the stop reports it |
| Substrate.RowsTell | src/lib.rs:681-766 | which actors each row of a report tells of, marked and unmarked, row by row and both ways |
| Substrate.EffectsTell | docs/architecture.md:329-343 | where each RPC and each completion takes an actor, edge by edge and both ways |
| StopSafety.MarkingBefore | src/lib.rs:508-509 | a checkpoint at its RPC has written the marker before, in the same call, with nothing of its own in between |
| StopSafety.MarkedFromStopOn | src/lib.rs:486-523 | from the moment a checkpoint's RPC takes effect the mark is up on disk and in memory until something clears it |
| StopDurability.MarkReadFirstMisreports | src/lib.rs:1275-1287 | the observers' order is needed: a run with nothing cleared in which reading the mark before the state shows a gateway stop as Substrate's own checkpoint |
| StopSafety.StartIsNotUndone | src/lib.rs:1158-1194 | once a start has returned Ok, no re-suspend task, spawned before or after, sends SuspendActor until a later mark is set, whatever runs without the lock |
| StopSafety.NothingDueAfterStart | src/lib.rs:528-565 | the invariant behind it: after such a start neither mark is up and no task is past its recheck |
| StopSafety.ResumeFollowsItsStore | src/lib.rs:1175-1188 | in every interleaving a create or start at its resume has passed its own storing step, in the same call and for good; whose bundle that is, the StartSandbox and ResumeHasItsBundle rows say |
| StopProtocol.LockHeldAlways | src/lib.rs:279-286 | in every reachable state the lock belongs to exactly the task between acquiring and releasing it |
| StopDurability.MarkIsDurable | src/lib.rs:288-302 | from a marking until something clears it the marker is on disk, and every restart in between reloads it |
| StopAgreement.AgreementIsExact | src/lib.rs:288-302 | over whole runs, cache and disk are bound to agree at every point, once the writes under way there are finished, if and only if no marker is written while another task is between the writes of the opposite mark and no reap is cut short over a cached mark |
| StopAgreement.StepSettlesExactly | src/lib.rs:288-302 | the same for any single step out of an agreeing state, both ways |
| StopAgreement.CacheAgreesWithDisk | src/lib.rs:288-309 | up to the first such step, whenever nobody is between two writes the cached set is the marker on disk |
| StopAgreement.LockedNeverClash | src/lib.rs:279-286 | of two tasks whose writes clash, one is a create, a delete or the reap: the lock keeps all others apart |
| StopAgreement.OverlapsAgreeExactly | src/lib.rs:288-302 | two overlapping mark_stopped calls leave cache and disk in agreement in all their interleavings if and only if they write the same mark |
| StopAgreement.OverlapDiverges | src/lib.rs:1237-1243 | a delete inside a stop's marking ends with the name cached as stopped and no marker on disk, all tasks done |
| StopAgreement.CutReapDiverges | src/lib.rs:576-582 | so does, with nothing overlapping, a reap that a failed removal cuts short after it removed the marker |
| StopDurability.StartOutcome | src/lib.rs:1180-1193 | in every run, a start leaves the mark clear when it returns Ok; when its resume failed and the re-mark went through the cached mark is set, and the marker is there if and only if nothing removed it between the re-mark's own two writes |
| StopDurability.RemarkHolds | src/lib.rs:288-302 | between those two writes the marker stays up to the first removal, the lock keeping every other marking out |
| StopDurability.ResuspendsAreBounded | src/lib.rs:528-565 | re-suspends that take effect never outnumber the actor's entries into RUNNING |
| StopConvergence.QuietStep | src/lib.rs:1288-1299 | every step of a quiet run keeps the rank or lowers it, and the step that is due lowers it |
| StopConvergence.StopPrevails | src/lib.rs:525-565 | under weak fairness every quiet run with the mark set takes the actor to SUSPENDED |
| StopConvergence.StopHolds | src/lib.rs:525-565 | and it stays there |
| LoneTask.CheckpointAloneIs | src/lib.rs:488-523 | what a checkpoint comes to when nothing else runs, for every combination of outcomes |
| LoneTask.StartAloneIs | src/lib.rs:1158-1194 | the same for a start, re-mark included |
| LoneTask.AgainAloneIs | src/lib.rs:528-565 | the same for a re-suspend: only a marked, running actor is suspended, and no mark moves |
| LoneTask.DeleteAloneIs | src/lib.rs:1215-1244 | the same for a delete |
| LoneTask.CreateAloneIs | src/lib.rs:1086-1153 | the same for a create of an actor of its own |
| Driver.CreateShown | src/lib.rs:1051-1156 | an uninterrupted create, as retries know it, is the protocol's create taken step by step |
| Driver.SubstrateComputeDriver.ActorLock | src/lib.rs:279-286 | an actor always gets the same lock and shares it with no other |
| Driver.SubstrateComputeDriver.MarkStopped | src/lib.rs:288-302 | disk and cache both take the mark, or neither does |
| Driver.SubstrateComputeDriver.Checkpoint | src/lib.rs:488-523 | the actor and its marks end where the protocol's steps take them, nothing else changes, and Ok means every step went through |
| Driver.SubstrateComputeDriver.StartSandbox | src/lib.rs:1158-1194 | the same for a start; the stored bundle has the request's generation, name and payload and the actor's uid, on disk and in the cache as far as the write came, and an actor is moved only with it |
| Driver.SubstrateComputeDriver.ClearAndResume | src/lib.rs:1180-1193 | its second half: cleared and resumed, or marked again, with every failure |
| Driver.SubstrateComputeDriver.SuspendAgain | src/lib.rs:528-565 | the same for a re-suspend |
| Driver.SubstrateComputeDriver.DeleteSandbox | src/lib.rs:1215-1244 | the same for a delete; a missing actor is no error, and on Ok the bundle is gone from cache and disk |
| Driver.SubstrateComputeDriver.CreateSandbox | src/lib.rs:1051-1156 | wherever a create fails, the world is that of the steps that took effect; it succeeds exactly when nothing failed and the name was free or the actor its own and resumable, and then all it is for stands |
| Driver.SubstrateComputeDriver.ClaimActor | src/lib.rs:1068-1122 | the first three steps yield the uid of an actor of this very template, or stop exactly when one failed or the actor is another template's |
| Driver.SubstrateComputeDriver.BindAndResume | src/lib.rs:1123-1153 | the other six steps, each failing where told, end in the world of the steps that took effect |
| Driver.SubstrateComputeDriver.GetSandbox | src/lib.rs:1003-1034 | a marked actor is never reported as checkpointed by Substrate |
| Driver.SubstrateComputeDriver.ReapOrphanBundles | src/lib.rs:569-583 | on Ok exactly the orphans' bundles, markers and cached marks are gone; on a failure a live actor's are as they were, and exactly the orphans whose markers went and whose turn did not come stay cached as stopped |
| Driver.SubstrateComputeDriver.DropOrphans | src/lib.rs:577-579 | the reaping it starts with, seen from the whole driver |
| Driver.SubstrateComputeDriver.ForgetMarks | src/lib.rs:580-582 | the loop it ends with: exactly the names reached lose their marks, on disk and in the cache |
| CreateRetry.RetriedCreateConverges | src/lib.rs:1051-1156 | after any number of attempts cut at any steps, failed golden snapshots, restarts, worker deaths and anything at all elsewhere in the cluster, one more create ends where a single uninterrupted one of that spec ends, up to credentials, the uid of an actor both had to create and how far it has come up; it succeeds exactly when that one would and the actor is not crashed just then |
| CreateRetry.CreateAchieves | src/lib.rs:1086-1153 | a create leaves template, actor, policy, a bundle with the request's contents and that incarnation's uid, no mark and a resumed actor if and only if the name was free or the actor there was its own and resumable; somebody else's actor is left alone |
| CreateRetry.ResumeHasItsBundle | src/lib.rs:1123-1153 | when a create comes to its resume the bundle of that very incarnation is stored and the mark is clear |
| CreateRetry.UptoProgress | src/lib.rs:1086-1153 | what stands after each step of a create |
| CreateRetry.UptoBinds | src/lib.rs:1146-1153 | from its bundle steps on the bundle is bound to the actor, the resume included |
| FileNames.NamesReadBack | src/launch.rs:70-101 | for every name, bundle, marker and temporary files are told apart and parsed back exactly |
| FileNames.FilesAre | src/launch.rs:78-86 | they end in `.json`, `.stopped` and `.json.tmp` |
| FileNames.NamesDisjoint | src/launch.rs:109-122 | two names never share a file, of whatever kind |
| StoreFiles.ReopenedExactly | src/launch.rs:70-101 | open yields a name's bundle exactly when its bundle file exists, and its mark exactly when its marker does |
| StoreFiles.CrashAtomic | src/launch.rs:109-154 | after a crash between any two file steps of put, remove or set_stopped, open succeeds and yields the store from just before or just after the operation |
| StoreFiles.RunIsAtomic | src/launch.rs:70-154 | the same over any run of operations, each cut anywhere: leftovers never show and never block open |
| BundleStore.Store.Open | src/launch.rs:70-101 | open fails exactly on an unreadable bundle file, in whatever order entries come, and otherwise loads exactly what is there |
| BundleStore.Store.Put | src/launch.rs:118-134 | the file steps done are a prefix of tmp-then-rename; map, counter and recovered store change together on success, and a call dropped after its rename leaves the disk, and only the disk, ahead |
| BundleStore.Store.WriteTmp | src/launch.rs:123-129 | up to the rename only the temporary file is touched, call by call |
| BundleStore.Store.SetStopped | src/launch.rs:109-116 | exactly that name's mark changes in what a reopen recovers |
| BundleStore.Store.Remove | src/launch.rs:150-153 | exactly that name's bundle goes |
| LaunchEndpoint.Launch | src/launch.rs:319-336 | the first read with news decides: another incarnation's bundle is refused, one of its own that it does not run is sent; 204 exactly when no read had any |
| LaunchEndpoint.ReadAnswers | src/launch.rs:320-330 | the same of each read of the transition system |
| LaunchEndpoint.PutServes | src/launch.rs:118-134 | a put's three steps make the bundle durable, then readable, then announced |
| LaunchEndpoint.RestartServes | src/launch.rs:70-101 | in every run a restart serves the last durable put again, cached before or not |
| LaunchEndpoint.NoLostWakeup | src/launch.rs:319-336 | a parked handler with something to send, or with anything inserted since its read, can run or a bump is due |
| LaunchEndpoint.CompletedPutWakes | src/launch.rs:130-133 | the bump that completes a put leaves every parked handler runnable, and running one delivers its answer if there is one and parks it anew if not |
| LaunchEndpoint.NobodyIsStranded | src/launch.rs:319-336 | no run, dropped puts included, strands a parked handler with something to send or with anything inserted since its read |
| LaunchEndpoint.NumberedStep | src/launch.rs:118-154 | the cache never goes back to an older put, restarts included |
| KeyCache.Find | src/launch.rs:269-271 | the first key with that id (section 4.5 of RFC 7517), and None exactly when there is none |
| KeyCache.ActorJwtVerifier.Key | src/launch.rs:250-275 | when the IdP is asked and when not; a key comes from a set just fetched or under 300 s old, a refreshing lookup that finds nothing looked in one just fetched or under 10 s old, and Unusable is said exactly of a key without usable material; successful fetches stay 10 s apart |
| KeyCache.ActorJwtVerifier.Others | src/launch.rs:250-275 | any sequence of lookups on the same cache keeps its bounds and only adds fetches |
| KeyCache.ActorJwtVerifier.KeyFor | src/launch.rs:223-230 | with any lookups in between, the key is from a set that the lookup that answered fetched, or found under 300 s old; "unknown key" only of a kid absent from a set just fetched or under 10 s old, Unusable only of unusable material, a failure only when a fetch was due and failed |
| KeyCache.FetchRate | src/launch.rs:173-177 | at most T/10 s + 1 successful fetches in any window of length T |
| Launcher.HandOver | runtime/launcher.py:112-155 | in every reachable state CURRENT names the generation published last and the supervisor started last is its; at most one supervisor is alive; no unlink finds CURRENT missing; at most two generations have directories |
| Launcher.PublishedWhole | runtime/launcher.py:116-151 | a generation goes into CURRENT only with all its sandbox files in place, its supervisor up and CURRENT absent |
| Launcher.StartedOnOneGeneration | runtime/launcher.py:231-241 | the sandbox is started on three files of one generation, the one read from CURRENT |
| Launcher.SourceMissingMeansNewer | runtime/launcher.py:235-239 | a file to copy is missing only if a newer generation was published after CURRENT was read |
| Launcher.InvAlways | runtime/launcher.py:112-243 | the invariant behind these holds in every reachable state of the two unlocked processes |
| LauncherMatch.StartsMatchExactly | runtime/launcher.py:137-151 | when the sandbox is about to be started, the supervisor started last is of its generation if and only if nothing newer was published since CURRENT was read and no newer supervisor has been started |
| LauncherMatch.SourceMissingExactly | runtime/launcher.py:152-154 | a file to copy is missing if and only if a newer generation was published after CURRENT was read and, where that is the latest, the supervisor role has got past this file in dropping the one before |
| LauncherMatch.TakenIsRemoved | runtime/launcher.py:239 | in every run a generation the sandbox starts on, or ever started on, has no directory left in the shared one |
| LauncherMatch.LiveSupervisorKeepsItsFiles | runtime/launcher.py:114-153 | in every run a live supervisor has its own files |
| LauncherMatch.OldFilesNewSupervisor | runtime/launcher.py:214-243 | a run for any two generations in which it is not: the sandbox starts on the old files against the new supervisor |
| LauncherRoles.SupervisorRole.ApplyBundle | runtime/launcher.py:112-155 | the code, run alone, ends exactly where the interleaved model's steps end, exits included; outright, the new generation is laid out whole, current and supervised, and the previous one gone |
| LauncherRoles.SupervisorRole.LayOut | runtime/launcher.py:114-119 | its part up to unlinking CURRENT is the model's |
| LauncherRoles.SupervisorRole.Replace | runtime/launcher.py:139-149 | so is the change of hands, with both ways it can exit |
| LauncherRoles.SupervisorRole.DropOld | runtime/launcher.py:152-154 | and the removal of the previous generation |
| LauncherRoles.SandboxRole.Round | runtime/launcher.py:225-243 | the same for one round of the sandbox role; outright, it takes what CURRENT newly names, file by file, and removes it from the shared directory, or says exactly when it cannot |
| LauncherRoles.SandboxRole.Take | runtime/launcher.py:233-238 | its copying is the model's, a missing source included |
| EndToEnd.GenerationsInOrder | src/launch.rs:118-138 | the generations the supervisor launcher publishes are an order-preserving selection of those put, the sandbox's of those published, so neither goes back, with driver restarts, dropped puts and lost answers at any time |
| Adoption.LastPutIsAdopted | runtime/launcher.py:172-243 | under weak fairness, from a settled state, once the puts stop and nobody exits, the last generation put is published and then run by the sandbox launcher |
| Adoption.ReachableIsSettled | src/launch.rs:319-336 | every state a run of store, endpoint and launchers can reach is settled once the last put is completed, cached and for this incarnation and neither role has exited |
| Adoption.ReachedPutIsAdopted | runtime/launcher.py:172-243 | so from every such state, wherever both launchers were, that generation is adopted and stays so |
| Adoption.AdoptionHolds | runtime/launcher.py:214-243 | and it stays so |
| Adoption.CalmStep | src/launch.rs:319-336 | the rank behind it: every step of such a run keeps it or lowers it, and the step that is due lowers it |
| EndToEnd.DeliveredIsNewer | runtime/launcher.py:172-198 | what a poll is answered with is newer than everything received before |
| EndToEnd.NotReceivedBefore | runtime/launcher.py:196-198 | and has not been received before |
| Watch.DiffReplays | src/lib.rs:1309-1338 | a poll's events, in any order, turn the prior snapshot into the current one |
| Watch.PartialReplay | src/lib.rs:1309-1338 | part-way through them every id shows its prior or its current value |
| Watch.FirstPollDeletesNothing | src/lib.rs:1309-1322 | the bootstrapped guard never changes the stream |
| Watch.FaithfulPoll | src/lib.rs:1254-1341 | replaying what had been sent after any earlier poll gives that poll's snapshot, and a further poll keeps that so |
| Watch.Watcher.Poll | src/lib.rs:1254-1341 | one turn sends exactly the difference, one event per id, a failed poll sends nothing, and exactly the running marked actors are re-suspended; what it has told describes every listed actor and its mark, field by field |
| Watch.Watcher.Emit | src/lib.rs:1309-1338 | what is sent is part of the difference, and all of it unless the receiver went away |
| Watch.Watcher.SendDeleted | src/lib.rs:1310-1321 | the deletions, in any order of the map |
| Watch.Watcher.SendChanged | src/lib.rs:1323-1337 | the new and changed ones, likewise |
| Watch.ToRespawn | src/lib.rs:1288-1299 | exactly the listed actors that are running although marked |
| Watch.Collect | src/lib.rs:1300-1307 | the snapshot has exactly the listed names, each describing the last actor of that name |
| Watch.SnapshotTells | src/lib.rs:610-652 | the same of the snapshot function, the gateway-stopped rows of marked actors included |
| Listing.ListAtespaceActors | src/lib.rs:885-907 | each request carries the token of the page before it; the result is the walk of the server's answers, and a page that fails makes it that failure, however much was read |
| Listing.WalkFails | src/lib.rs:892-900 | the same of the walk |
| Listing.WalkIsConcatenation | src/lib.rs:885-907 | along any finite token chain, empty middle pages included, the walk is the concatenation of all pages |
| Listing.FilterCommutes | src/lib.rs:912-923 | filtering page by page or after the walk is the same |
| Listing.FilterMembers | src/lib.rs:912-923 | exactly the actors whose template's name is `oshl-` and more are kept |
| Listing.NamedIsOurs | src/template.rs:233-242 | so an actor of a template that name_for named is kept |
| Listing.ListDriverActors | src/lib.rs:912-923 | the walk, filtered, or the failure of its first failing page |
| Listing.ReapOrphans | src/lib.rs:587-600 | exactly the bundles without a live actor go, with exactly their markers; a failure stops it and only at a name that is not live |
| Listing.DropOrphan | src/lib.rs:594-595 | one orphan: bundle then marker, with what is left behind by either failure |
| Listing.LiveActorsKept | src/lib.rs:587-600 | however far reaping got, other actors' bundles and marks are unchanged |
| Quantity.CpuIsExact | src/template.rs:174-203 | Some(v) exactly for strings of the grammar whose exact value is v millicores with v in 1..2^63-1; no intermediate overflow rejects a representable value |
| Quantity.MemoryIsExact | src/template.rs:205-228 | the same for bytes |
| Quantity.SuffixOrderIrrelevant | src/template.rs:206-219 | any order of the suffix table reads every quantity the same way |
| Quantity.CpuRoundTrip | src/template.rs:180-203 | every v in 1..2^63-1 printed as millicores, or as a whole number with three places, parses back to v |
| Quantity.TrailingZeros | src/template.rs:188-203 | trailing zeros in the fraction change nothing |
| Quantity.MemoryRoundTrip | src/template.rs:205-228 | a number with a suffix parses to the number times the scale whenever that fits |
| Quantity.UnitsAreExact | src/template.rs:206-215 | each binary unit is 1024 of the one before, each decimal one 1000 |
| Template.NewFragment | src/template.rs:46-77 | accepts exactly the fragments with nothing of the driver's, a sandbox container and no added capability, and blames the first container that adds one |
| Template.LimitsAreExact | src/template.rs:125-172 | a limit asked for is what the template gets, exactly; it is refused just when it is no quantity an i64 holds; one not asked for is the fragment's if positive, else the default |
| Template.AskedExactly | src/template.rs:129-140 | the limits asked for are the spec's own, each without the white space around it |
| Template.Synthesize | src/template.rs:250-295 | every field of the template; each container keeps its name and contents, drops ALL and adds nothing, and exactly the first `sandbox` container takes the request's image; on a checked fragment the search for it never fails |
| Template.NameFor | src/template.rs:233-242 | the name is that of every template synthesized from this spec, wherever it is placed |
| Template.NameIdentifies | src/template.rs:230-242 | two specs get the same name if and only if their templates agree with metadata blanked, and if and only if image, limits and the parts of the configuration that matter agree |
| Template.PerSandboxFieldsNeverMatter | src/template.rs:100-123 | ids, tokens and environments never show |
| Template.ExistingIsIdentical | src/template.rs:341-351 | an existing template of the name is identical to the one to be created |
| EnsureReady.PollsAreBounded | src/template.rs:361-412 | at most timeout/2 + 2 polls, whatever the server and the clock do |
| EnsureReady.BoundIsReached | src/template.rs:361-412 | and a server that never settles takes exactly that many |
| EnsureReady.StopsOnce | src/template.rs:361-412 | the last poll and the verdict are determined by what the server does |
| EnsureReady.TemplateControl.PollUntilReady | src/template.rs:361-412 | the verdict is that of the first poll that settles anything, and a delete is sent exactly when that poll shows an error message |
| EnsureReady.TemplateControl.EnsureReady | src/template.rs:334-413 | every way out told apart: no poll if the spec is bad or the create failed, and no other template touched |
| EnsureReady.TemplateControl.EndsWithMine | src/template.rs:347-351 | whatever ensure_ready leaves under the name is the request's own template |
| EnsureReady.TemplateControl.TemplateFor | src/lib.rs:1068-1084 | when it is Ok and when which error; on Ok the template of the name is the very one this request makes, created or found, and a poll has shown it with a golden snapshot |

## Left out

- StopPrevails: assumes weak fairness and a quiet environment; with outside resumes going on, `ResuspendsAreBounded` is what is left.
- CreateSandbox: a stop between the two writes of a mark is a crash and not an error, so it appears in `RetriedCreateConverges` only; the template is present or absent, its polling is `EnsureReady`.
- RetriedCreateConverges: nobody else resumes, suspends, stops, starts or deletes the same actor meanwhile.
- LastPutIsAdopted: the supervisor's listener comes up and no role exits; between two snapshot restores. A poll whose driver is gone is given up by its timeout.
- ResumeFollowsItsStore: the transition system keeps the order of the steps and not the bundle itself.
- GenerationsInOrder: between two snapshot restores, with puts of one name serialized and no generation put twice.
- NameIdentifies: encoding and digest are any two functions, assumed not to collide on the two templates compared; that SHA-256 cut to 8 bytes does not is not provable. Fields the driver only copies are opaque strings.
- Put: a file holds a whole bundle or does not parse, standing for JSON as an inverse pair; no power loss and no missing fsync.
- NamesReadBack: names are any strings; path separators and names the file system refuses are not modelled.
- KeyFor: token decoding, algorithm, issuer, audience, subject and signature checks are foreign code.
- Round: the launchers' signal handling, health server, `resolv.conf` edit and error back-off sleeps; `write_private` is one step, the supervisor's own files are laid out in one step, and a tree is removed file by file.
- ActorStateConditions: condition messages, and the gateway's own derivation of a phase from the rows; the reason strings of openshell_core are not part of this model beyond their names.
- Dialling, TLS, bearer tokens, flags, sockets and `control_client` failures, which end a call before it touches anything.
- Request validation (`require_actor_name`, image digest pinning, GPU refusal), `get_capabilities`, workspaces.
- RPC effects that arrive after a cancelled call, and unserialized puts of one name, which the driver does not claim to handle.
- Substrate's server beyond actor states and RPC effects; snapshot contents, workers, egress rules.

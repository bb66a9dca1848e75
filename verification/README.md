# Dockform, verified model

Dockform compares a desired configuration with what is labelled on one or more Docker
contexts, shows a plan, applies it, prunes what is no longer wanted, and can destroy
everything it owns. This project models that engine in Dafny and proves what holds of whole
runs: that a run converges, exactly when; that the plan shown is what is done; that using the
plan's findings changes nothing; that a failed synchronisation can be retried; that prune
spares what is wanted; and how the concurrent orchestrator, the command limits, the caches
and the codecs behave.

Check it with `dafny verify --verification-time-limit 0 dfyconfig.toml` (Dafny 4.11).

## How it is built

| file | what it holds |
|---|---|
| `Text.dfy` | string order, sorting, splitting, decimal numbers |
| `FilesetIndex.dfy`, `SourceWalk.dfy`, `ExcludePatterns.dfy` | the index of a fileset: walk, exclusions, tree hash, difference |
| `VolumeTree.dfy`, `Editions.dfy` | files of a volume as a path tree; one synchronisation and its failures; a source that changes from one to the next |
| `DockerHost.dfy` | one Docker context as state, and a client whose calls may all fail |
| `FilesetSync.dfy` | the synchronisation of filesets with stop and start of cold targets |
| `ServiceDetect.dfy`, `ContextState.dfy` | the state of services: batched, parallel, on a context |
| `Planning.dfy`, `PlanMeaning.dfy`, `PlanCounts.dfy`, `Aggregation.dfy` | plans, what each entry means, their counts, the plan over all contexts |
| `Applying.dfy`, `Restarts.dfy`, `Pruning.dfy`, `Reconcile.dfy` | apply, prune and the whole run as methods; which containers are restarted |
| `Convergence.dfy`, `Unanswered.dfy`, `Fixpoint.dfy`, `IdleRun.dfy` | when a run converges, which failed query can hide that it did not, that a second run then does nothing, and when a run makes no call |
| `Faithful.dfy`, `CachedPlan.dfy` | the plan against the calls made; planned against fresh apply |
| `Orchestrate.dfy` | all interleavings of the multi-context orchestrator |
| `DockerExec.dfy` | all interleavings of the command semaphore; the retry loop |
| `LruCache.dfy`, `BatchedIndex.dfy`, `GoPath.dfy`, `TarStream.dfy` | cache, batched index reader, paths, archive |
| `Manifest.dfy`, `Destroying.dfy` | stack keys, merging, targets; destroy |
| `LawfulWorld.dfy` | the assumptions about the outside can all hold at once |

Every Docker call is a method of `DockerHost.Docker` that may fail, and the caller sees the
failure as the source does. `clean` says that no call has failed so far, `log` is the sequence
of changes asked for. The engine's methods are proved for every pattern of failures; when
nothing fails they are proved equal to functions (`SyncAll`, `Apply`, `Pruned`, `PlanIs`), and
most theorems about whole runs are about those functions. `ok` alone is not "nothing failed":
some failures are swallowed by the source (a failing `compose ps` counts as nothing running, a
failing container listing hides orphans from the plan and skips restarts, a failing hash query
counts as no opinion), so statements about undisturbed runs say `ok && d.clean`. Convergence needs
only `ok && d.hashed`: the run reports success and no query for the configuration hash of a
running service went unanswered (`Succeeded`, `SettlesExactly`, `RunTwice`). All lemmas switch
automatic induction off, so that every induction is written out.

The functions that methods are proved equal to are themselves tied to the configuration and the
state by lemmas whose other side does not mention them: what is wanted, unwanted, targeted, restarted, stopped,
planned, counted, kept in scope or destroyed is said in terms of labels, names and files
(`DesiredSay`, `UnwantedSay`, `TargetsSay`, `HotSays`, `ColdSays`, `RestartsExactly`, `VolumesSay`,
`ServicesSay`, `FilesSay`, `CountsSay`, `NarrowSays`, `DestroysExactly` and others).

## What was found

Properties that the code does not have in full generality are stated with the exact condition
under which they hold.

- **Convergence** (`Converges`, `UnlabelledForever`): after an undisturbed apply and prune a new
  plan counts nothing if and only if no desired volume existed beforehand without the identifier
  label, and filesets that share a volume have the same tree hash. Creating a volume that exists
  does not label it, so the plan shows "create" for ever.
- **Hidden drift** (`SettlesExactly`, `SucceededCurrent`, `HashFailureHidesDrift`): after any run that
  reports success, whichever queries failed, a new plan counts nothing if and only if those two
  conditions hold and every stack was current when apply ended; and every stack was, unless a hash
  query for a running service went unanswered. Such a service counts as up to date although it runs
  with an old configuration, and the run reports success.
- **File turned directory** (`SyncExactly`, `FileBecomesDir`): deletion runs after extraction and
  is recursive. If a file of the old index has become a directory of the source, the new files
  below it are, where the extraction succeeds, extracted and then removed, and the new index claims
  they are there. If the helper's `tar` refuses to replace the file each time, the synchronisation
  fails each time and the old index stays. The source is in place after an attempt without a failing
  call if and only if no file became a directory and the next finding does not apply.
- **The index file's own name** (`SyncExactly`, `IndexNameOverwritten`, `IndexNameBreaksRetry`): the walk
  does not skip `.dockform-index.json`. A source file of that name is indexed and extracted, and the
  index then takes its place; if the attempt is cut short before that, the next one reads the source's
  file as the index. With a file below a directory of that name the index cannot be written.
- **Blank names** (`SyncFate`): a vanished file whose name is only white space is never deleted.
- **Retry** (`RetryExactly`, `TornIsFinal`): any number of attempts cut short anywhere, then a
  successful one, ends in the volume of one uninterrupted attempt if and only if attempts do not
  read the index, or no failed write emptied it, or no file became a directory
  (`EmptiedRetryDiffers`); where attempts read the index, source and old index must not use its name. The index is
  written with `cat >`: a failed write can leave it old, empty, cut short or complete. One that is cut short
  no longer parses. If the volume is labelled or no plan is used, no later attempt gets past it; a
  planned apply takes an unlabelled volume for missing and writes the index anew. The command
  always applies with a plan; `Run` ties every run, however it fails, to these attempts, on volumes
  that were there and on those it creates (`RunsAreAttempts`, `CreatedThenAttempted`).
- **Faithful plan** (`ContainersFaithful`, `StrayWitness`): apply labels every running container
  of a project it brings up, also those of services no stack plans. Prune then removes them
  although the plan did not list them. The removed services are the listed ones if and only if
  every such stray belongs to a listed project and service.
- **Planned against fresh apply** (`CachedRefinesFresh`, `UnlabelledVolumeDiffers`,
  `TornUnlabelledDiffers`): with a plan of the current state and cold targets running, calls, state
  and success are equal if and only if no unlabelled volume of a fileset holds a torn index or one
  that lists an unchanged or a vanished file, except that both may fail on an index that cannot be
  written. The plan takes such a volume for missing, a fresh apply reads its index.
- **Fail-fast blame** (`WronglyBlamed`, `IndependentFailureBlamed`): the comment that every
  later error is caused by the cancellation is not true of an error that happened before the
  cancellation. The contexts wrongly reported as aborted are exactly those that failed before it,
  without the first.
- **Targeting** (`ListedContextsCovered`, `DeploymentDropsStack`): a deployment's documentation
  promises all stacks of its listed contexts. They are in scope if and only if no stack is listed
  beside the contexts or all of those stacks are listed themselves.
- **Targeted destroy** (`OwnVolumesOnly`, `ForeignVolumeRemoved`): fileset volumes are matched by
  name over all contexts. On a context only its own filesets' volumes are removed if and only if no
  labelled volume there bears the name of another context's fileset volume in scope without also
  being one of its own.

## Assumptions

- SHA-256 is a parameter: collision free, non-empty, without a line break. `docker compose up` is
  a parameter with the contract `UpPost`. `LawfulExists` shows that both can be met.
- Listings come in name order, which `docker ps` does not promise; it matters where several containers
  belong to one service. Go's `sort.Slice` is taken to be stable (all keys sorted here are
  distinct where a statement depends on it). Ranges over maps may take any order.
- A failed call may have had its effect or a part of it, as the comment at each client call says; a
  failed start, stop or restart changes at most the containers it names.
- Sources and configuration do not change during a run, and nobody else changes the context.
- Stacks of one context have different compose projects, non-empty project and service names.
- What one synchronisation leaves (`SyncFate`, `SyncExactly`, `SkipIsExact`, `RetryExactly`) is stated for a
  volume that agrees with its stored index, which a synchronisation wrote (`Premises`; `SyncReestablishes`
  shows that a synchronisation leaves such a volume). `RetryExactly` and `RetryWithOldIndex` also assume
  that attempts which read the index do not write, displace or remove it by the archive or the removal
  list. Convergence, the faithful plan and planned against fresh apply assume nothing about index files.
- A successful extraction leaves no file above or below a file it wrote (`tar` cannot write there
  otherwise); `rm -rf` errors, which the helper script ignores, do not occur in a successful
  removal.
- Context names contain no slash and a fileset belongs to one context, as validation demands.

## Model

| member | source | states |
|---|---|---|
| `FilesetIndex.PreimageInjective` | internal/filesets/index.go:113-123 | the text hashed into the tree hash determines the list of entries, for any paths without NUL and digests without line break |
| `FilesetIndex.PreimageText` | internal/filesets/index.go:113-122 | the hashed text of two entries, character by character |
| `FilesetIndex.TreeHashDecides` | internal/filesets/index.go:186-189 | for built indexes equal tree hashes and equal indexes are the same thing, and a built index never equals a missing one |
| `FilesetIndex.DiffIndexes` | internal/filesets/index.go:186-215 | the loops compute the specified difference; with equal, non-empty tree hashes it is empty whatever the entries |
| `FilesetIndex.FullDiffIsExact` | internal/filesets/index.go:190-215 | creates, updates and deletes hold exactly the new, changed and vanished paths, sorted, each path in at most one list |
| `FilesetIndex.FullDiffIsAny` | internal/filesets/index.go:190-215 | the same for any remote index whatever, where the last entry of a repeated path counts |
| `FilesetIndex.ByPathLast` | internal/filesets/index.go:190-197 | of several entries for one path the last counts |
| `FilesetIndex.ShortcutIsSound` | internal/filesets/index.go:186-189 | the shortcut never changes the answer, and the difference is empty exactly for equal entries |
| `FilesetIndex.LocalIndexIsLocal` | internal/filesets/index.go:105-124 | the index of a set of files has one entry per file with its size and digest, and is built |
| `FilesetIndex.LocalIndexSays` | internal/filesets/index.go:95-124 | an index of a source lists, in path order, exactly the files with their size and the digest of their content |
| `SourceWalk.WalkNode` | internal/filesets/index.go:64-107 | one step of the walk: fails exactly on the escape guard, otherwise appends what is visible there |
| `SourceWalk.Walk` | internal/filesets/index.go:64-107 | the walk fails exactly if it meets an escaping path and otherwise lists the visible files |
| `SourceWalk.EscapesExactly` | internal/filesets/index.go:75-79 | the escape guard trips exactly on a top-level name that begins with two dots, whatever is excluded |
| `SourceWalk.VisibleExact` | internal/filesets/index.go:81-107 | a path is listed with a content exactly when it resolves to a regular file with it and nothing on the way is excluded |
| `SourceWalk.HiddenSays` | internal/filesets/index.go:81-95 | a path is hidden exactly if it or a directory on the way is excluded |
| `SourceWalk.VisiblePrefixFree` | internal/filesets/index.go:64-107 | no listed path lies below another |
| `SourceWalk.TreeText` | internal/filesets/index.go:114-122 | the string builder holds the specified preimage |
| `SourceWalk.BuildLocalIndex` | internal/filesets/index.go:35-125 | succeeds exactly if every read does and the escape guard does not trip, and then returns the index of the visible files; a failure names one of the two |
| `ExcludePatterns.NormalizeExcludePatterns` | internal/filesets/index.go:132-159 | the sorted set of trimmed, expanded, non-blank patterns |
| `ExcludePatterns.NormalSays` | internal/filesets/index.go:132-159 | a pattern stands for itself without white space around it, and with a slash at the end for everything below it |
| `ExcludePatterns.PatternsSay` | internal/filesets/index.go:132-159 | the result holds exactly the normal forms of the patterns that are not blank |
| `ExcludePatterns.AsciiSpace` | internal/filesets/index.go:136 | what counts as white space among ASCII characters |
| `ExcludePatterns.NormalizeTwice` | internal/filesets/index.go:127-159 | normalising the stored patterns again changes nothing |
| `ExcludePatterns.OrderDoesNotMatter` | internal/filesets/index.go:127-159 | order, repetition and blank entries of the configured list do not matter |
| `VolumeTree.SyncFate` | internal/planner/apply_filesets.go:165-178 | what one synchronisation does to every path of the volume, without mentioning archives or removal lists; a source file of the index file's name is lost |
| `VolumeTree.FilesInPlace` | internal/planner/apply_filesets.go:165-173 | after extraction and removal the source files are in place if and only if no file of the old index became a directory and none has the index file's name |
| `VolumeTree.SyncExactly` | internal/planner/apply_filesets.go:93-178 | an attempt without a failing call succeeds with the source fully in place if and only if no file of the old index became a directory, no source path is the index file's or below it, and the volume has no directory of that name |
| `VolumeTree.SyncReestablishes` | internal/planner/apply_filesets.go:93-178 | under these conditions the volume and index it leaves meet the assumptions of the next synchronisation |
| `Editions.EditionsFollowed` | internal/planner/apply_filesets.go:93-178 | synchronising any sequence of changing sources that meet these conditions succeeds each time; the last one is in place, what only earlier ones had is gone, blank names aside, and every path none of them had or was in the way of is as at the start |
| `VolumeTree.SkipIsExact` | internal/planner/apply_filesets.go:93-98 | where the tree hashes agree and the step is skipped, the source is already in place |
| `VolumeTree.FileBecomesDir` | internal/planner/apply_filesets.go:165-173 | a concrete file turned directory is lost |
| `VolumeTree.IndexNameOverwritten` | internal/planner/apply_filesets.go:262-276 | a concrete source file with the index file's name is not in place after a successful attempt |
| `VolumeTree.PartialThenFull` | internal/planner/apply_filesets.go:165-173 | whatever a cut-short extraction and removal left, doing both again gives the uninterrupted result |
| `VolumeTree.RetryExactly` | internal/planner/apply_filesets.go:165-178 | any run of failed attempts, with a plan or without, followed by a successful one ends like one uninterrupted attempt if and only if the index is not read anyway, or was never emptied by a failed write, or no file became a directory; attempts that read the index are assumed to find no path of its name in source and old index |
| `VolumeTree.RetryWithOldIndex` | internal/planner/apply_filesets.go:165-178 | failures that never emptied or tore the index leave it old or new, and a later attempt comes to the same as one uninterrupted attempt, whatever volume, index and source are, as long as archive and removal list do not touch the index file |
| `VolumeTree.IndexNameBreaksRetry` | internal/filesets/index.go:64-107 | a concrete source file with the index file's name: after a cut-short extraction no attempt gets past the index |
| `VolumeTree.EmptiedRetryDiffers` | internal/planner/apply_filesets.go:165-178 | a concrete file turned directory and an emptied index: the retry ends in another volume than one uninterrupted attempt |
| `VolumeTree.BlindRetry` | internal/planner/build_plan_filesets.go:98-101 | planned attempts on an unlabelled volume, whose index they never read, always end like one uninterrupted attempt |
| `VolumeTree.TornIsFinal` | internal/planner/apply_filesets.go:73-90 | after a torn index write attempts stop on the index for ever if and only if they read it, that is, the volume is labelled or no plan is used; otherwise the next success writes it anew |
| `DockerHost.Docker.DoCreateVolume` | internal/dockercli/volumes.go:39-47 | creates with the label, leaves an existing volume as it is, and may have created it even if it fails |
| `DockerHost.Docker.DoCreateNetwork` | internal/dockercli/networks.go:62-100 | creates with the label, fails if the network exists, and may have created it even if it fails |
| `DockerHost.Docker.DoExtract` | internal/dockercli/dockercli.go:401-415 | writes the archive into the files; a failure changes at most what the archive touches; the index file changes at most if the archive holds its name or a path below it |
| `DockerHost.Docker.DoRemovePaths` | internal/dockercli/dockercli.go:418-445 | removes the non-blank paths with everything below, the index file too if it is listed; a failure changes at most those |
| `DockerHost.Docker.DoWriteIndex` | internal/dockercli/dockercli.go:382-397 | writes the index, which cannot succeed where a directory has its name; a failure leaves it old, empty, torn or written |
| `DockerHost.Docker.ListComposeContainersAll` | internal/dockercli/dockercli.go:228-253 | lists exactly the containers with the identifier and a project and service |
| `DockerHost.SetRunningSays` | internal/dockercli/volumes.go:262-296 | starting and stopping switches exactly the named containers and changes nothing else |
| `FilesetSync.ResolveTargetServices` | internal/planner/targets.go:13-70 | without repetition, exactly the explicit services, or the services of managed containers that mount the volume |
| `FilesetSync.DedupSays` | internal/planner/targets.go:17-31 | explicit services without blanks and repetitions, in order of first occurrence |
| `FilesetSync.TargetsSay` | internal/planner/targets.go:13-70 | who is a target, from the fileset and the containers' labels and mounts |
| `FilesetSync.ContainersToStop` | internal/planner/apply_filesets.go:120-132 | the first listed container of each target service, in order |
| `FilesetSync.FirstSays` | internal/planner/apply_filesets.go:120-132 | the first listed container of a service is the managed one with the least name |
| `FilesetSync.ColdSays` | internal/planner/apply_filesets.go:109-138 | a cold fileset stops and starts the first container of each target service and no other; a hot one none |
| `FilesetSync.SyncFiles` | internal/planner/apply_filesets.go:211-242 | extracts exactly the created and updated files, or reports the failing step and leaves a partial state |
| `FilesetSync.DeleteFiles` | internal/planner/apply_filesets.go:245-259 | removes exactly the vanished paths, or leaves a partial state |
| `FilesetSync.WriteVolume` | internal/planner/apply_filesets.go:165-183 | extraction, removal, index, ownership in order, stopping at the first failure; the index is written only after all files |
| `FilesetSync.WritesSay` | internal/planner/apply_filesets.go:165-183 | the writes of one synchronisation, each exactly if it is needed, in the order archive, removal, index, ownership |
| `FilesetSync.StopTargets` | internal/planner/apply_filesets.go:109-138 | a successful stop stops exactly the cold targets; a failed one is the last call made |
| `FilesetSync.WriteAndStart` | internal/planner/apply_filesets.go:140-193 | whatever the writes did, exactly one start of exactly the stopped list follows, and the first error survives a failing start |
| `FilesetSync.SyncChanged` | internal/planner/apply_filesets.go:100-193 | all writes lie between the stop and the start; result and calls without a failure are exact |
| `FilesetSync.SyncFileset` | internal/planner/apply_filesets.go:93-204 | the skip test, the bracket on every exit path, what a failure can leave, and that exactly the target services of a changed hot fileset are queued for restart; it succeeds if no call fails |
| `FilesetSync.HotSays` | internal/planner/apply_filesets.go:195-204 | which services a synchronisation queues for restart, from the fileset and the containers |
| `FilesetSync.SyncFilesets` | internal/planner/apply_filesets.go:33-208 | all filesets in name order: final state, restarts and calls; however it ends, its calls are one stop-write-start bracket per fileset up to the first failure, every volume of distinct filesets is, with the findings of a plan of this state or without any, as one attempt of the retry theorem may leave it, and nothing else changed; it succeeds if no call fails and no index that it reads is torn, and without a plan only then |
| `Restarts.PendingSays` | internal/planner/apply_filesets.go:43-204 | after a pass exactly the targets of the hot filesets that had changed when their turn came are queued |
| `Restarts.RestartsExactly` | internal/planner/apply_restarts.go:29-78 | an undisturbed apply with its plan restarts exactly the first container of every service that a changed hot fileset targets |
| `Restarts.RestartedOnce` | internal/planner/apply_restarts.go:29-78 | its log has one successful restart of each of these containers and no other |
| `ServiceDetect.BatchedIsOnDemand` | internal/planner/service_state.go:155-232 | detection from any agreeing batch, entries missing or not, equals detection by single queries |
| `ServiceDetect.DetectSays` | internal/planner/service_state.go:155-232 | the state of a service from single answers, case by case, with the label names spelled out |
| `ServiceDetect.Sequential` | internal/planner/service_state.go:294-306 | all results in order if all succeed, otherwise the first error and its place |
| `ServiceDetect.Parallel` | internal/planner/service_state.go:309-352 | for every arrival order of the workers' messages the answer of the sequential form, error included |
| `ServiceDetect.BatchedParallel` | internal/planner/service_state.go:235-352 | parallel detection from any agreeing batch, in any arrival order, is sequential detection by single queries, error included |
| `ServiceDetect.AnyNeedsApply` | internal/planner/service_state.go:355-362 | true exactly if some service is not running as desired |
| `ContextState.DetectAllServicesState` | internal/planner/service_state.go:235-291 | with fallbacks for every failing query; undisturbed, the true state of each planned service; whatever fails, a stack found to need nothing is current unless a hash query for a running service went unanswered |
| `ContextState.GetRunningServices` | internal/planner/service_state.go:123-146 | the last listed container of each service, nothing if the listing fails |
| `ContextState.NeedsApplyIs` | internal/planner/service_state.go:355-362 | a stack needs `compose up` exactly when some planned service is not current |
| `ContextState.DesiredSay` | internal/planner/build_plan.go:132-135 | the desired volumes are the declared ones and the targets of filesets; the desired services those of the stacks |
| `ContextState.GreatestReplica` | internal/planner/service_state.go:123-146 | of several replicas, detection looks at the running one with the greatest name |
| `ContextState.StartFirsts` | internal/planner/apply_filesets.go:121-132 | starting first-listed containers keeps a current stack current |
| `Planning.TopResources` | internal/planner/build_plan.go:136-158 | first one entry per desired volume or network in name order, create exactly if it is not listed, then one deletion per orphan, nothing twice |
| `Planning.OrphanNetworks` | internal/planner/build_plan_filesets.go:219-231 | listed networks neither declared nor compose-owned |
| `Planning.BuildStacks` | internal/planner/build_plan_stacks.go:72-111 | per stack its services' entries and the findings kept for apply; on success there are findings about every stack with services |
| `Planning.BuildStacksParallel` | internal/planner/build_plan_stacks.go:114-204 | for every order in which the workers report, the same plan and findings as the sequential form; errors are collected and fail the plan |
| `Planning.CollectDesiredServices` | internal/planner/build_plan_stacks.go:207-231 | the services of all stacks |
| `Planning.GroupOrphans` | internal/planner/build_plan.go:211-219 | per project exactly the listed services nobody plans |
| `Planning.PlanOrphans` | internal/planner/build_plan.go:203-228 | adds exactly the deletions of orphaned services |
| `Planning.BuildFilesets` | internal/planner/build_plan_filesets.go:15-142 | per fileset the entries of its difference, and the findings kept for apply; succeeds if nothing fails and no index it reads is torn |
| `Planning.BuildContextPlan` | internal/planner/build_plan.go:94-242 | undisturbed, the plan lists exactly the entries of the state it was built in, and its findings are those of that state; the volume, network and fileset sections and their findings are so whatever else fails, and a stack called current is current unless a hash query went unanswered; there is a plan if nothing fails and no index it reads is torn |
| `PlanMeaning.VolumesSay` | internal/planner/build_plan.go:130-158 | a volume is to be created exactly if it is declared or targeted by a fileset and not there with the label, and deleted exactly if it is there with the label and neither, unless targets are given |
| `PlanMeaning.NetworksSay` | internal/planner/build_plan.go:160-196 | the same for networks; those of compose are never deleted |
| `PlanMeaning.ServicesSay` | internal/planner/build_plan_stacks.go:24-69 | a planned service is to be created exactly if it does not run; otherwise its last container decides: reconcile without the identifier, update with another configuration hash, nothing otherwise |
| `PlanMeaning.OthersSay` | internal/planner/build_plan.go:203-228 | the other entries of the stack section: exactly the deletions of managed services nobody plans, and one quiet entry for a stack without services |
| `PlanMeaning.FilesSay` | internal/planner/build_plan_filesets.go:91-139 | a path is to be created, updated or deleted exactly by its presence, size and digest in the source and in the known index |
| `PlanCounts.CountActions` | internal/planner/resource.go:443-479 | the numbers of create, of update and reconcile, and of delete entries, nameless fileset messages aside |
| `PlanCounts.CountsSay` | internal/planner/resource.go:443-479 | the counts are cardinalities of sets of places in the plan |
| `PlanCounts.CountZero` | internal/planner/resource.go:443-479 | all counts are zero exactly when no entry asks for a change, nameless fileset messages aside |
| `Aggregation.AggregateContextPlan` | internal/planner/build_plan_filesets.go:234-260 | a context's plan merged under prefixed stack keys |
| `Aggregation.AggregateSays` | internal/planner/build_plan_filesets.go:234-260 | nothing of a context's plan is lost, changed or put under another context; stacks are found under context/stack |
| `Aggregation.AggregateCounts` | internal/planner/build_plan.go:43-81 | the overall plan counts exactly the sum of the contexts' plans |
| `Aggregation.ConvergesEverywhere` | internal/planner/build_plan.go:40-81 | after undisturbed runs on all contexts the overall plan counts nothing if and only if every context meets the convergence condition |
| `Applying.EnsureVolumes` | internal/planner/apply_resources.go:29-80 | afterwards every declared volume and every fileset's target exists; exactly those not there with the label are created, labelled and empty, and no other volume changes |
| `Applying.EnsureNetworks` | internal/planner/apply_resources.go:83-116 | afterwards every declared network exists; exactly those not known are created, labelled and not compose-owned |
| `Applying.LabelContainers` | internal/planner/apply.go:204-230 | afterwards exactly the running containers of the project have been given the identifier, one call for each that lacked it; whatever fails, nothing else changes |
| `Applying.ApplyStacks` | internal/planner/apply.go:141-202 | stacks in name order, brought up if the plan or detection says so; on success the state is that of the decisions taken, each grounded in the state it was taken in unless a hash query went unanswered |
| `Applying.RestartPending` | internal/planner/apply_restarts.go:29-78 | restarts the first listed container of each pending service, once each, or none if the listing fails |
| `Applying.ApplyContext` | internal/planner/apply.go:65-138 | undisturbed, the state and calls of the specified apply; on success volumes, networks and filesets are as specified whichever queries failed; however it ends, no label of a volume changes, new desired volumes are labelled, and every fileset volume, found or made, is as one attempt may leave it; it succeeds if no call fails and no index that it reads is torn, and without a plan only then |
| `Pruning.CollectServices` | internal/planner/prune.go:160-174 | the services of all stacks, from the plan where it has them |
| `Pruning.UnwantedSay` | internal/planner/prune.go:88-157 | unwanted are exactly the managed containers of services no stack plans, the labelled volumes neither declared nor targeted by a fileset, and the labelled networks neither declared nor compose-owned |
| `Pruning.PruneContext` | internal/planner/prune.go:48-157 | under any failures, with or without a plan: no container of a planned service, no declared volume, no fileset's target, no declared network and nothing without the label is removed, and no compose-owned network if they could be listed; success means that no call failed, the fallback for listing services aside, and that all of the rest is gone |
| `Convergence.TopLevelState` | internal/planner/apply_resources.go:29-116 | after any successful apply and prune no unwanted volume or network is left, declared networks exist, and desired volumes are labelled exactly if none existed unlabelled |
| `Convergence.StacksSettled` | internal/planner/apply.go:141-202 | after apply and prune every planned service of every stack is current |
| `Convergence.SyncAllSettles` | internal/planner/apply_filesets.go:43-204 | after all synchronisations every volume has the tree hash of its filesets, if filesets sharing it agree |
| `Convergence.SyncAllTraced` | internal/planner/apply_filesets.go:43-204 | while filesets are synchronised, every volume either keeps its tree hash, which all filesets done so far have, or holds the index of one of its filesets |
| `Convergence.SettlesExactly` | internal/planner/build_plan.go:94-242 | after any apply and prune that report success, whichever queries failed, a new plan counts nothing if and only if no desired volume existed unlabelled, filesets sharing a volume agree and every stack was current when apply ended |
| `Convergence.SucceededCurrent` | internal/planner/apply.go:141-202 | an apply that reports success leaves every stack current, whichever queries failed, if its decisions were grounded, that is, no hash query for a running service went unanswered |
| `Convergence.Converges` | internal/planner/build_plan.go:94-242 | from any state, whatever its index files hold, with or without the plan's findings: a plan after an undisturbed apply and prune counts nothing if and only if no desired volume existed unlabelled and filesets sharing a volume agree |
| `Unanswered.GuessedExactly` | internal/planner/service_state.go:179-232 | without an answer to the hash query a service is taken for current exactly if it is, or runs for this project with another configuration only |
| `Unanswered.HashFailureHidesDrift` | internal/planner/service_state.go:184-189 | a concrete drifted service: with the hash query failing an apply that leaves it alone reports success, and the next plan shows the drift |
| `Reconcile.Run` | internal/planner/apply.go:22-62 | plan, apply and prune as one run, which succeeds if no call fails and no index it reads is torn: undisturbed, final state and log; on success the state of a run in which only findings about stacks may be wrong, and those only if a hash query went unanswered; however it ends, one attempt on each fileset volume, found or made, and the same desired volumes without the label |
| `Reconcile.PlanAndApply` | internal/planner/apply.go:22-62 | the same for plan and apply alone |
| `Reconcile.RunTwice` | internal/planner/resource.go:443-479 | after a run that reports success the counts of a plan are all zero exactly under the convergence condition with every stack current, and every stack is, unless a hash query for a running service went unanswered |
| `Reconcile.RunAfterFailures` | internal/planner/apply.go:22-62 | any number of runs that fail anywhere, then one that reports success with its hash queries answered: the counts of the next plan are zero exactly if the state before all of them met the convergence condition |
| `Reconcile.RunRepeatedly` | internal/planner/apply.go:22-62 | every run, with a plan or without and however it ends, is one attempt on each fileset volume, found or made, and changes no label |
| `Reconcile.RunsAreAttempts` | internal/planner/apply_filesets.go:33-208 | along such runs each fileset volume that is there at the start goes through a run of attempts of the retry theorem |
| `Reconcile.CreatedThenAttempted` | internal/planner/apply_filesets.go:33-208 | a fileset volume that one of the runs creates goes through such a run of attempts from its creation on, beginning with a new volume |
| `Reconcile.RunPlan` | internal/planner/prune.go:23-45 | an undisturbed run that uses its plan makes the calls the plan lists |
| `Fixpoint.SecondRunDoesNothing` | internal/planner/apply.go:65-138 | after a run that converges, a second apply and prune make no call and change nothing |
| `Fixpoint.UnlabelledForever` | internal/planner/apply_resources.go:59-80 | a run neither labels an existing volume nor unlabels one, so the convergence condition is the same after any number of runs |
| `Fixpoint.UnlabelledWitness` | internal/planner/apply_resources.go:59-80 | a volume made by hand: the plan after a run still counts something |
| `IdleRun.IdleExactly` | internal/planner/resource.go:443-479 | an undisturbed run that uses its plan makes no call if and only if the plan counts nothing and carries no nameless message of a change |
| `Faithful.TopLevelFaithful` | internal/planner/build_plan.go:126-196 | volumes and networks created and removed are exactly the create and delete entries |
| `Faithful.StacksFaithful` | internal/planner/apply.go:151-202 | the stacks brought up are exactly those with a create, update or reconcile entry, once each, in name order |
| `Faithful.FilesFaithful` | internal/planner/build_plan_filesets.go:91-139 | the paths extracted into and removed from any volume are exactly the create and update, and the delete entries of its filesets, whatever index it holds |
| `Faithful.ContainersFaithful` | internal/planner/prune.go:88-102 | containers removed are those unwanted at planning time and the strays; their services are the listed ones if and only if every stray's is listed |
| `Faithful.StrayWitness` | internal/planner/apply.go:204-230 | a concrete stray is removed though the plan lists no deletion |
| `Faithful.PlanIsFaithful` | internal/planner/build_plan.go:94-242 | all of the above for one plan and the run that uses it |
| `CachedPlan.CachedRefinesFresh` | internal/planner/apply.go:100-179 | with a plan of the current state, distinct volumes and cold targets running, planned and fresh apply come to the same in calls, state and success if and only if no unlabelled fileset volume holds a torn index or one with an unchanged or vanished file; otherwise they differ, unless both fail on an index that cannot be written, which a state without a directory of its name rules out |
| `CachedPlan.AdoptedIsHarmless` | internal/planner/build_plan_filesets.go:98-101 | the condition holds whenever every existing desired volume is labelled |
| `CachedPlan.UnlabelledVolumeDiffers` | internal/planner/apply_filesets.go:63-91 | on an unlabelled volume with a current index, a fresh apply writes nothing and a planned one writes the index again |
| `CachedPlan.CurrentByHand` | internal/planner/apply_filesets.go:63-91 | a concrete host with a volume made by hand whose index is current: only the planned apply writes |
| `CachedPlan.TornUnlabelledDiffers` | internal/planner/apply_filesets.go:73-90 | on an unlabelled volume with a torn index, a fresh apply stops with an error and a planned one writes the index, and succeeds where it can be written |
| `CachedPlan.TornByHand` | internal/planner/apply_filesets.go:73-90 | a concrete host with a torn index: the fresh apply fails, the planned one succeeds |
| `Orchestrate.InvHolds` | internal/planner/orchestrate.go:70-106 | in every interleaving: what is recorded, who is blamed, who has been called |
| `Orchestrate.SomeoneCanMove` | internal/planner/orchestrate.go:87-106 | no interleaving deadlocks |
| `Orchestrate.ClassifyAborted` | internal/planner/orchestrate.go:181-191 | wraps every error but the first failure's |
| `Orchestrate.Conclude` | internal/planner/orchestrate.go:108-160 | the report after the join: nothing, the one error, or all errors in context order with the numbers of failed and aborted ones; which errors are wrapped, and with which name |
| `Orchestrate.CancelledByJoin` | internal/planner/orchestrate.go:94-101 | by the join the run's context is cancelled if and only if someone failed |
| `Orchestrate.FirstIsGenuine` | internal/planner/orchestrate.go:112-160 | caller alive: exactly one error is not wrapped, it is the first recorded, and the counts are one failed and the rest aborted |
| `Orchestrate.ParentDeadNothingWrapped` | internal/planner/orchestrate.go:115-125 | caller cancelled, or run-to-completion: nothing is wrapped and all count as failed |
| `Orchestrate.WronglyBlamed` | internal/planner/orchestrate.go:162-191 | the contexts reported as aborted that failed before any cancellation are exactly the early failures without the first |
| `Orchestrate.EarlySays` | internal/planner/orchestrate.go:87-106 | an early failure is exactly one returned before the caller or the run was cancelled |
| `Orchestrate.IndependentFailureBlamed` | internal/planner/orchestrate.go:170-191 | an interleaving in which an independent failure is reported as aborted |
| `Orchestrate.CalledOnce` | internal/planner/orchestrate.go:87-106 | every context's function is called exactly once |
| `Orchestrate.NobodyCancels` | internal/planner/orchestrate.go:71-76 | in run-to-completion mode only the caller can cancel |
| `Orchestrate.ReportDependsOnResults` | internal/planner/orchestrate.go:108-160 | run-to-completion: equal results give equal reports whatever the interleaving |
| `Orchestrate.Confluent` | internal/planner/orchestrate.go:70-160 | run-to-completion with a live caller: every finished interleaving has the same results and report |
| `Orchestrate.ExecuteSequential` | internal/planner/orchestrate.go:58-68 | calls a prefix of the contexts and stops at the first error or cancellation |
| `DockerExec.Attempts` | internal/dockercli/exec.go:137-191 | how often a command is tried, by its kind and the retry setting, when it stops, what it returns and how long it waits |
| `DockerExec.WaitedIs` | internal/dockercli/exec.go:148-157 | the waits before attempt k add up to base times two to the k, less base |
| `DockerExec.AtMostCap` | internal/dockercli/exec.go:113-120 | in every interleaving on a limited host at most as many non-probe commands are running or backing off as the semaphore holds, and exactly these have a token |
| `DockerExec.StartsExactly` | internal/dockercli/exec.go:113-120 | a waiting command can start exactly if the host is not limited, it is a probe, or fewer non-probe commands than the capacity are under way |
| `DockerExec.RefusesExactly` | internal/dockercli/exec.go:113-118 | only a command that waits for a token gives up before it starts |
| `DockerExec.RetriesExactly` | internal/dockercli/exec.go:137-203 | which commands try again after a connection error, and up to which attempt |
| `DockerExec.NeverBlocked` | internal/dockercli/exec.go:113-120 | a returning command always finds its token: nothing is released that was not acquired, and returning never blocks |
| `DockerExec.AllReleased` | internal/dockercli/exec.go:113-120 | when all commands have returned the semaphore is empty |
| `DockerExec.AttemptsBounded` | internal/dockercli/exec.go:137-203 | in every interleaving: attempts and waits are bounded; probe, stdin, streaming and local commands run at most once and never wait |
| `LruCache.LRUCache.constructor` | internal/dockercli/lru_cache.go:24-33 | starts empty, with 100 places if the size is not positive |
| `LruCache.LRUCache.Get` | internal/dockercli/lru_cache.go:38-48 | a hit exactly for a key among the most recently used, with the value last set, moved to the front |
| `LruCache.LRUCache.Set` | internal/dockercli/lru_cache.go:52-77 | the order is the recency list cut to size, whatever was evicted |
| `LruCache.LRUCache.Len` | internal/dockercli/lru_cache.go:80-84 | the number of entries, never above the size |
| `LruCache.LRUCache.Clear` | internal/dockercli/lru_cache.go:87-92 | forgets everything |
| `LruCache.HitExactly` | internal/dockercli/lru_cache.go:38-77 | a used key is in the cache exactly when fewer different keys than fit were used since |
| `LruCache.RecencyIsSet` | internal/dockercli/lru_cache.go:52-77 | the keys in the recency list are those set since the last clear |
| `LruCache.LastSetSays` | internal/dockercli/lru_cache.go:52-92 | the value of a key is that of its last set, if no clear came after it |
| `BatchedIndex.ParseBatchedIndexOutput` | internal/dockercli/dockercli.go:354-379 | the loop over lines is the specified parser |
| `BatchedIndex.TrimEndIs` | internal/dockercli/dockercli.go:354-379 | exactly the line ends at the end are cut off |
| `BatchedIndex.MarkerSays` | internal/dockercli/dockercli.go:354-366 | a line is a marker exactly if it begins and ends as one |
| `BatchedIndex.OutputText` | internal/dockercli/dockercli.go:299-345 | what the script prints for two volumes, character by character |
| `BatchedIndex.AtoiSigned` | internal/dockercli/dockercli.go:354-379 | how the number in a marker is read |
| `BatchedIndex.BatchedReadIsSingleRead` | internal/dockercli/dockercli.go:299-379 | for distinct volumes and contents without a marker-shaped line the batched read gives each volume what reading it alone gives |
| `BatchedIndex.CompactJsonIsSafe` | internal/dockercli/dockercli.go:349-353 | one-line JSON never looks like a marker |
| `BatchedIndex.MarkerShapedLineBreaks` | internal/dockercli/dockercli.go:349-353 | a marker-shaped content line loses the content |
| `GoPath.CleanIsClean` | internal/util/tar.go:141 | cleaning yields a clean path |
| `GoPath.CleanRules` | internal/util/tar.go:141 | the four rewriting rules of filepath.Clean: repeated slashes, dots, an element with double dots after it, double dots at the root |
| `GoPath.ParentIs` | internal/util/tar.go:114 | the directory of a clean path is clean and shorter |
| `TarStream.Archive.EmitDir` | internal/util/tar.go:104-134 | writes the missing headers of a directory and its ancestors and no other, ancestors first, none twice; terminates |
| `TarStream.Archive.Add` | internal/util/tar.go:136-193 | one listed path: filtered, skipped, or written after its directories, and nothing else is written; fails on a missing file |
| `TarStream.TarFiles` | internal/util/tar.go:94-195 | every entry is a listed file or directory or on the way to one and follows its directories, no directory twice unless one is listed itself, and the files are the chosen ones in order; with a sound output it fails exactly on a missing file |
| `TarStream.ChosenSays` | internal/util/tar.go:136-193 | the files of an archive are exactly the listed paths, cleaned, that do not lead out of the source and are regular files |
| `TarStream.HeaderText` | internal/util/tar.go:120-133 | a directory's header carries a slash at the end |
| `TarStream.IndexedPathsPass` | internal/filesets/index.go:75-80 | every path the index lists passes the archive's filter unchanged |
| `TarStream.IndexedFilesChosen` | internal/util/tar.go:136-193 | an archive of indexed regular files holds exactly the listed files |
| `Manifest.KeyRoundTrip` | internal/manifest/types.go:257-275 | parsing a made key gives its parts back exactly if the context is non-empty and has no slash and the stack is non-empty |
| `Manifest.ParsedKeyIsMade` | internal/manifest/types.go:257-275 | a key that parses is made of its parts |
| `Manifest.GetAllStacks` | internal/manifest/types.go:279-313 | all stacks, discovered or explicit; of one that is both, discovery decides the base and each explicit field that is set wins |
| `Manifest.GetStacksForContext` | internal/manifest/types.go:324-336 | exactly the context's stacks by name, none lost |
| `Manifest.ResolveTargets` | internal/cli/common/targets.go:23-119 | rejects an unknown deployment, context or stack key, in this order, and names one; otherwise exactly the listed contexts and stacks stay, and the filesets of the listed stacks, or of the listed contexts if no stack is listed |
| `Manifest.NarrowSays` | internal/cli/common/targets.go:64-119 | what a narrowed configuration keeps, from the listed contexts and stack keys |
| `Manifest.FilteringCommutes` | internal/cli/common/targets.go:95-107 | merging the filtered stacks gives the merged stacks with an allowed key |
| `Manifest.ListedContextsCovered` | internal/cli/common/targets.go:64-93 | all stacks of the listed contexts are in scope if and only if no stack is listed or all of them are listed |
| `Manifest.DeploymentDropsStack` | internal/manifest/types.go:45-50 | a deployment of a context and one of its stacks leaves the context's other stack out of scope |
| `Destroying.NewDestroyScope` | internal/planner/destroy.go:40-57 | the scope of a configuration |
| `Destroying.ScopeExact` | internal/planner/destroy.go:26-57 | a targeted scope allows exactly the projects of the configuration's stacks |
| `Destroying.TargetedScopeExact` | internal/planner/destroy.go:37-57 | with target flags these are the stacks of the whole configuration that the flags allow |
| `Destroying.BuildDestroyPlan` | internal/planner/destroy.go:107-181 | lists exactly the services, networks and volumes in scope |
| `Destroying.DestroyContext` | internal/planner/destroy.go:231-347 | containers before networks before volumes, nothing out of scope under any failures, everything in scope on success |
| `Destroying.DestroysExactly` | internal/planner/destroy.go:231-347 | what a destroy removes, from labels and configuration; a targeted one only containers of its stacks' projects and volumes its filesets target |
| `Destroying.ListedVolumesOnly` | internal/cli/common/targets.go:95-119 | with target flags a volume is removed exactly if it has the label and a fileset of a listed stack, or of a listed context if no stack is listed, targets it |
| `Destroying.DestroyExecutesPlan` | internal/planner/destroy.go:107-347 | a successful destroy removes exactly what the plan of the same state lists |
| `Destroying.NothingLeft` | internal/planner/destroy.go:289-344 | after an untargeted destroy nothing with the identifier is left |
| `Destroying.OwnVolumesOnly` | internal/planner/destroy.go:316-344 | a targeted destroy removes no network, and on a context only volumes of its own filesets if and only if no labelled volume there bears the name of another context's fileset volume in scope without also being one of its own |
| `Destroying.ForeignVolumeRemoved` | internal/planner/destroy.go:207-211 | a concrete shared volume that is removed because a fileset of another context has its name |
| `LawfulWorld.LawfulExists` | internal/dockercli/compose.go:27-43 | the assumptions about hashing and `compose up` are consistent |

## Left out

- The renderers, the dashboard, the command line, prompts, logging and redaction, and the progress estimate that precedes an apply (its queries can fail the apply before anything is changed).
- The registry client, secrets, YAML and JSON decoding, glob and regular expression matching, image upgrades: foreign libraries or text; glob matching is a parameter.
- Ownership scripts: only their place after the index write is modelled.
- Real time, goroutines and channels: step relations, arbitrary arrival orders, and counters of waiting time instead.
- The helper scripts' shell text and quoting; `docker` output parsing other than the batched index.
- The compose configuration cache key: the cache is modelled over abstract keys.
- Explicit fileset overrides under targeting: only discovered filesets are filtered here.
- Merging destroy plans over contexts: it only appends.
- Destroying.DestroyContext: the order in which projects and services are removed among themselves follows a Go map and is not fixed.
- The choice between the sequential and the parallel form of the orchestrator, which is one test.
- TarStream.TarFiles: file contents, modes and times are not modelled, only headers and their order.
- DockerHost.Docker.ListComposeContainersAll: promises a name order that `docker ps` does not, because detection and restarts depend on which container of a service is listed first and last.
- DockerHost.Docker.DoRemovePaths: a removal that fails inside the helper script is reported as success there; here success means the paths are gone.
- VolumeTree.RetryExactly: where a source or an old index uses the index file's name, what a cut-short extraction leaves in the index file is not modelled, so only `IndexNameBreaksRetry` says what can happen.
- Pruning.PruneContext: that a failing phase does not keep the later phases from running is modelled but not part of the contract, which has no record of failed listings.
- Destroying.DestroyContext: the same holds for its three steps.
- Planning.PlanOrphans: after a failed listing of containers no orphans are shown; the contract speaks only of undisturbed listings.

# A verified model of the BeeGFS CSI driver and its operator

This project models the parts of the BeeGFS CSI driver in which several activities meet: the protocol that
creates, stages, publishes and deletes volumes on a controller and many nodes, the layering of configuration
files, and the operator's reconciliation loop. Everything below is proved for all inputs, all orders of
visiting a map, or all interleavings of the modelled calls.

## How the model is built

* **Volume lifecycle** (`Lifecycle*.dfy`, `ThreadSafe.dfy`, `UnstageWait.dfy`). One `World` holds the
  controller's locks, status cache, working directories and mounts, the volume and tracking directories in
  BeeGFS, and every node's mount table. A step is one external call of one request or node RPC; it succeeds,
  or fails before or after its effect. Recursive removals take one thing after another, so that others can
  come in between. `Run` folds any sequence of steps, so requests and RPCs interleave freely. The services on the
  controller and on the nodes may be restarted, and their hosts rebooted, at any time: a restart ends what is
  going on and keeps the mounts, a reboot drops the mounts too and keeps the files. `LifecycleReplies`,
  `LifecycleRemains` and `LifecycleRpcs` say what the answers of requests and RPCs mean; `LifecycleExamples` starts
  from the initial state and leads to the states in which guarantees end. Assumed: RPCs for one volume on one node do not overlap (Concurrency section of the CSI
  Specification), one staging path per node and volume, volume directories of a file system apart from one another and
  from each other's tracking directories, target
  paths other than the staging mount points, staging paths that do not end in a slash, SHA-1 without collisions
  among the volume IDs in use, one management host name per file system. `lostTrack`, `createFailed`,
  `deleteFailed`, `wiped` and the lock counters are history on which no step depends.
* **Configuration** (`Config*.dfy`, `Secrets.dfy`, `ClientFiles.dfy`, `ReqParams.dfy`). `ConfigMerge` is the
  algebra of one layer over another, `ConfigLayers` the parser on values, and `ConfigHeap` the same loops on
  structs that are copied while their maps stay shared, proved to compute what the value-level parser computes.
* **Operator** (`Cluster.dfy`, `Reconciler.dfy`, `Operator.dfy`). `Reconcile` is written call by call against
  an API server object. Before each call anybody else may act, and each call may fail with or without effect;
  a schedule decides. `reached` collects every state on the way. Assumed: one custom resource, one worker,
  reads that are not stale, nobody else touching the operator's finalizer, versions that are never reused, and
  a server that stores what it is sent, adding defaults to workloads only. Updates of roles and bindings other
  than Cluster Roles are refused, because the operator's role does not allow them
  (operator/config/rbac/role.yaml:101-124, operator/config/rbac/leader_election_role.yaml:7-18).
* **Names and paths** (`VolumeIDs.dfy`, `VolumePaths.dfy`).

## What does not hold, and exactly when

* Parsing panics on a write into a nil map for exactly the files `WritesToNilMap` describes: a node section
  sets client options where the layer below has none (`ParsePanicsExactly`).
* The code's precedence is config, node config, fileSystemSpecific, node fileSystemSpecific;
  docs/deployment.md:530 swaps the middle two. The code is modelled. The two give a host the same result
  exactly if no option is disputed (`DocumentedPrecedenceExactly`).
* The outcome of writing client options depends on the map's iteration order exactly if the deprecated
  management ports clash in one of two ways (`OrderIndependentExactly`).
* ValidateVolumeCapabilities removes its working directory without unmounting. If a create or delete has left
  BeeGFS mounted there, the removal takes every volume and every tracking directory of that file system. So a
  cached "created" can be wrong although no delete has failed, and a delete can pass the empty test with nodes
  still staged (`CachedWithoutDirectory`, `WipedTracking`). A Validate keeps a volume exactly if the volume's
  file system is not mounted in the working directory that it removes (`ValidateKeepsVolumeExactly`); creates
  and deletes never get there (`OnlyValidateIsExposed`).
* A cached "created" is wrong exactly if some step has taken the directory, of a delete or of such a Validate,
  and none has made it again (`CachedCreatedIsRightExactly`). Unless a delete has failed since the status was
  written, or is past its removal, it can only have been a Validate (`CachedCreatedIsWipedExactly`).
* The cache answers before the lock is tried. So a create can report success while a delete has already removed
  the directory, and a delete while a create has already made it (`CreateAnsweredDuringDelete`,
  `DeleteAnsweredDuringCreate`). The request at work has not replied yet, so the two can be taken to have
  happened one after the other, the one that is answered first. Apart from this, from failed requests and from a
  wiped file system, every answer from the cache is true (`CachedReplyIsTrue`).
* A failed delete can leave "created" cached without a directory, and a failed create "deleted" with one; the
  next request then reports success wrongly (`FailedDeleteMisleads`, `FailedCreateMisleads`; from the initial
  state `CreateSucceedsInVain`, `DeleteSucceedsInVain`).
* After a delete has given up and then fails to finish removing the tracking directory, a retry finds it empty
  although every node is still staged (`GivingUpLosesTrack`, `GivenUpOn`). The same goes for a node that stages
  while the directory is being removed (`RemovalLosesTrack`, `StagedTooLate`).
* A bind mount can lose its staging mount exactly if its target path contains the string that the scan of the
  mount list leaves out (`EscapesExactly`). A refused unstage has already dropped its tracking file
  (`RefusedUnstageUntracks`, `PublishedUntracked`).
* The unstage timeout is honoured exactly up to 9223372036 seconds; above that the product wraps around and
  the wait is shorter than asked for (`DeadlineExactly`).
* Reconcile converges from exactly the states in which no Role, Role Binding or Cluster Role Binding of the
  manifests is there with other contents; from all others every run ends in an error (`Operator.Settle`), for
  instance if somebody has created such a Role before (`StuckFromTheStart`).
* Volume IDs with a slash before a slash or an underscore share their directory name with another ID
  (`DecodableExactly`, `OneUnambiguousSource`). A volume ID without a path names the whole file system: its
  two views of the CSI directory disagree, and deleting it deletes everything.

## Model

| member | source | states |
|---|---|---|
| LifecycleController.LockDiscipline | pkg/beegfs/controllerserver.go:136-154 | over every run, restarts included: one holder per volume ID, no lock without a holder, each lock obtained at most once and released exactly once unless a restart drops it, never by an aborted request, and every phase that writes status or cleans up belongs to a holder |
| LifecycleController.StepsApproachEnd | pkg/beegfs/controllerserver.go:209-276 | whatever its calls do, each step brings a request nearer to the release of its lock, except for looking again and for removals still under way |
| LifecycleController.RequestIsBounded | pkg/beegfs/controllerserver.go:101-352 | on every run a request takes at most sixteen steps and one for each time that it looks again, not counting the pieces of removals |
| LifecycleController.StepTouchesOwnVolume | pkg/beegfs/controllerserver.go:101-352 | a request changes nothing of a volume that it does not create or delete under the lock, unless its working directory goes with that volume's file system mounted inside |
| LifecycleController.SparesExactly | pkg/beegfs/controllerserver.go:314-321 | every outcome of a request's next step spares such a volume exactly unless the working directory is removed with that file system mounted inside and the volume has something to lose |
| LifecycleController.CacheAgrees | pkg/beegfs/controllerserver.go:224-256 | over every run, whoever holds the lock: "created" means that the directory exists exactly if it was not wiped, unless a delete has failed since or is past its removal; "deleted" means that it does not, unless a create has failed since or is past making it |
| LifecycleController.FreeMeansNothingUnderWay | pkg/beegfs/controllerserver.go:136-154 | with the lock free, neither is under way |
| LifecycleController.CachedReplyIsTrue | pkg/beegfs/controllerserver.go:126-133 | over every run, a success answered from the cache is true of the directory, unless it was wiped, or the opposite request has failed since or is at work and has not replied |
| LifecycleWipes.WipedExactly | pkg/beegfs/controllerserver.go:314-321 | a directory counts as wiped exactly if some step of the run took it along with a working directory and no later step made it again |
| LifecycleWipes.DirectoryExactly | pkg/beegfs/controllerserver.go:576-582 | on every run, the directory exists exactly if some step made it and none took it since |
| LifecycleWipes.CachedCreatedIsRightExactly | pkg/beegfs/controllerserver.go:126-133 | over every run, whoever holds the lock and whatever has failed: a cached "created" is right exactly if no step has taken the directory without a later one making it again |
| LifecycleWipes.CachedCreatedIsWipedExactly | pkg/beegfs/controllerserver.go:126-133 | without a failed delete or one past its removal, a cached "created" is wrong exactly if the directory has gone with a working directory |
| LifecycleExamples.CreateAnsweredDuringDelete | pkg/beegfs/controllerserver.go:126-133 | from the initial state, for every volume: a create succeeds from the cache without a directory while a delete is at work, though none has failed and nothing was wiped |
| LifecycleExamples.DeleteAnsweredDuringCreate | pkg/beegfs/controllerserver.go:223-226 | from the initial state, for every volume: a delete succeeds from the cache with the directory in place while a create is at work, though none has failed |
| LifecycleWipes.ValidateKeepsVolumeExactly | pkg/beegfs/beegfs_util.go:389-407 | the last step of a Validate keeps a volume, whatever happens, exactly if the volume's file system is not mounted in the working directory |
| LifecycleWipes.CacheAgreesWithoutLeftovers | pkg/beegfs/controllerserver.go:224-256 | over every run on which no Validate removes its working directory with the volume's file system mounted inside, whoever holds the lock: the cache is right about the directory unless the opposite request has failed since or is under way |
| LifecycleWorkDirs.OnlyValidateIsExposed | pkg/beegfs/beegfs_util.go:377-385 | over every run, creates and deletes have unmounted the file system before they remove their working directory |
| LifecycleExamples.ValidateWipes | pkg/beegfs/controllerserver.go:314-321 | from every state with the file system mounted in a volume's working directory, a Validate succeeds and takes every volume and tracking directory of the file system |
| LifecycleExamples.CachedWithoutDirectory | pkg/beegfs/controllerserver.go:142-154 | from the initial state, for every one or two volumes of a file system: both end up cached as created without a directory though no delete has failed |
| LifecycleController.SuccessIsTrue | pkg/beegfs/controllerserver.go:199-335 | over every run, a request that worked under the lock reports success only if the directory is as it should be: after a create it is there unless it was wiped again, after a delete it is not, after a Validate it is there or was wiped since the stat; after a create or delete the cache says so too; successes from the cache are CachedReplyIsTrue |
| LifecycleWipes.SuccessIsTrueWithoutLeftovers | pkg/beegfs/controllerserver.go:199-335 | over every run on which no Validate wipes the file system, such a success is true of the directory, for all three requests |
| LifecycleReplies.ReplyExactly | pkg/beegfs/controllerserver.go:101-352 | on every run, an answered request is told Aborted exactly if it found the lock taken, Failure exactly if a call failed that counts, the tracking directory vanished under it or the volume to validate was missing, and Success otherwise: without the lock exactly if the cache had the status it was to bring about |
| LifecycleReplies.CallsInOrder | pkg/beegfs/controllerserver.go:142-352 | on every run, a request makes each call only after the calls before it have succeeded, succeeds under the lock only after all that its kind needs have, does not end without having turned to its cleanup, and mounts to set permission bits exactly if they are special |
| LifecycleReplies.ValidateOfMissingFails | pkg/beegfs/controllerserver.go:330-335 | from every state without the volume's directory, on every run on which nobody makes it, a Validate begun then does not succeed |
| LifecycleRemains.DeleteLeavesNothing | pkg/beegfs/controllerserver.go:228-276 | over every run, a delete about to report success has left no volume directory, no tracking directory, no file of its working directory and no mount in it |
| LifecycleRemains.CreateMakesTracking | pkg/beegfs/controllerserver.go:184-196 | over every run without a wipe: once a create has made the tracking directory, it is there for as long as the create holds its lock |
| LifecycleRemains.UntrackedDeployment | pkg/beegfs/controllerserver.go:184-196 | where nodes are not tracked, no run ever has a tracking directory |
| LifecycleRemains.FailedExactlySince | pkg/beegfs/controllerserver.go:199-256 | the history used above is exact: a volume counts as one with a failed create, or delete, exactly if such a request was told so since its status was last written or lost |
| LifecycleWorkDirs.HoldersHaveOwnWorkDirs | pkg/beegfs/controllerserver.go:514-529 | no two requests past the lock share or nest their working directories |
| LifecycleWorkDirs.OthersLeaveWorkDirAlone | pkg/beegfs/beegfs_util.go:344-407 | no step of anyone else changes a file or mount under a holder's working directory while the lock is held |
| LifecycleWorkDirs.WorkFilesAlways | pkg/beegfs/beegfs_util.go:389-407 | over every run, a request finds its working directory, its client files and its own mount for as long as it needs them, and a delete without an error leaves nothing of them after its cleanup |
| Lifecycle.ScanMountList | pkg/beegfs/beegfs_util.go:350-375 | unmounting is refused exactly if some listed mount of the device is outside the excluded path and names the client configuration, which is the test that the unstage step makes on the mount table |
| Lifecycle.RefusesExactly | pkg/beegfs/beegfs_util.go:350-375 | the test on the mount table, spelled out: some mount of "beegfs_nodev" whose path does not have the excluded string in it has an option with the path of the client configuration in it |
| Lifecycle.StagingPaths | pkg/beegfs/beegfs_util.go:354-357 | the excluded string is the last component of the staging path and "/mount", and the paths of the mount and of the client configuration are those in the staging directory |
| GoStrings.ContainsExactly | pkg/beegfs/beegfs_util.go:366-368 | a string contains another exactly if it is that one with something before and after it |
| LifecycleNodes.PublishedImpliesStaged | pkg/beegfs/nodeserver.go:76-283 | over every run, a bind mount whose path does not contain the exclude string still has its staging mount and client configuration |
| LifecycleNodes.OtherVolumeQuiet | pkg/beegfs/beegfs_util.go:237-266 | what an RPC does to the mount table for one volume leaves every other volume's staging mount and bind mounts alone |
| LifecycleRpcs.RpcSuccess | pkg/beegfs/nodeserver.go:76-283 | over every run: a successful stage has the volume mounted with its client configuration and, if the directory is there and can be written, tracked; a successful unstage leaves no staging mount, no visible bind mount, no configuration and no tracking file but one given up on; a successful publish has bound the staged volume to a free target; after a successful unpublish nothing is mounted there |
| LifecycleRpcs.RpcsEnd | pkg/beegfs/nodeserver.go:76-283 | whatever its calls do, an RPC is over after at most five steps |
| LifecycleRpcs.MissingIsNeverMounted | pkg/beegfs/nodeserver.go:107-112 | from every state in which the volume's directory is missing and no RPC has found it: as long as nobody makes it, no stage or publish gets past its stat, and neither a staging mount nor a bind mount of the volume appears |
| LifecycleRpcs.DoesWhatItWasCalledFor | pkg/beegfs/nodeserver.go:208-223 | on every run, until the next RPC for the volume begins, the node does only what this one was called for, with the same target; a staging mount that was there before stays as it is, and a new one has exactly the requested options and the volume's own client configuration |
| LifecycleLimits.EscapesExactly | pkg/beegfs/beegfs_util.go:354-375 | some run leaves a bind mount without its staging mount exactly if the target path contains the exclude string |
| LifecycleLimits.RefusedUnstageUntracks | pkg/beegfs/nodeserver.go:261-280 | from every state with a published volume, unstaging is refused, keeps all mounts, and has dropped the tracking file |
| LifecycleExamples.PublishedUntracked | pkg/beegfs/nodeserver.go:261-280 | from the initial state, for every volume, node and target that the scan sees: published and staged, but not tracked any more |
| LifecycleTracking.TrackedImpliesStaged | pkg/beegfs/nodeserver.go:221-280 | over every run, a node's tracking file exists only while the volume is staged there, unless its latest unstage failed to handle the file or the host was rebooted since it was staged |
| LifecycleRpcs.LostTrackExactly | pkg/beegfs/nodeserver.go:261-275 | the history used there is exact: a node counts as having lost track exactly if an unstage failed to handle the file, or a reboot left it behind, and the volume was neither mounted anew nor the file removed since |
| LifecycleRpcs.LeavesFileAlone | pkg/beegfs/nodeserver.go:261-275 | an unstage that cannot look for its tracking file, or finds none, never touches it, whatever else happens until the next RPC |
| LifecycleTracking.EmptyMeansUnstaging | pkg/beegfs/controllerserver.go:531-583 | in every interleaving: if a delete passes the empty test after a node wrote its file, that node has begun to unstage since, or a delete of the volume has given up, or a removal has crossed into the file system |
| LifecycleTracking.SingleDeleteWaits | pkg/beegfs/controllerserver.go:531-583 | the give-up is never by the delete that passes the test: with no other delete giving up, the node has begun to unstage or its file was wiped |
| LifecycleWipes.OrphanPrevention | pkg/beegfs/controllerserver.go:531-583 | on whole runs without other give-ups and without a Validate wiping the file system, every node that wrote its file before the test passes has begun to unstage |
| LifecycleExamples.WipedTracking | pkg/beegfs/controllerserver.go:314-321 | from the initial state, for every volume and node: after a Validate, a delete passes the empty test with the node still staged |
| LifecycleTracking.WriteTracksSafely | pkg/beegfs/nodeserver.go:227-240 | a tracking file written while no delete is removing the directory is one that nobody is on the way to removing |
| LifecycleTracking.SafeUntilUntracked | pkg/beegfs/nodeserver.go:227-275 | from then on only an unstage, a give-up or a removal that crosses into the file system can take it away |
| LifecycleLimits.GivingUpLosesTrack | pkg/beegfs/controllerserver.go:540-569 | from every state in which a delete gives up on remaining nodes, a retry passes the empty test with all nodes unchanged |
| LifecycleLimits.RemovalLosesTrack | pkg/beegfs/controllerserver.go:564-569 | the same from every state in which the directory is being removed, so files written then are not waited for |
| LifecycleExamples.GivenUpOn | pkg/beegfs/controllerserver.go:540-569 | from the initial state, for every volume and node: a retry after a give-up passes the empty test with the node still staged |
| LifecycleExamples.StagedTooLate | pkg/beegfs/controllerserver.go:564-569 | from the initial state, for every volume and node: a node stages during the removal, and a retry passes the empty test |
| LifecycleLimits.FailedDeleteMisleads | pkg/beegfs/controllerserver.go:126-133 | from every delete about to remove a volume cached as created, a create comes to succeed without a directory |
| LifecycleLimits.FailedCreateMisleads | pkg/beegfs/controllerserver.go:223-226 | from every create about to make a volume cached as deleted, a delete comes to succeed with the directory in place |
| LifecycleExamples.CreateSucceedsInVain | pkg/beegfs/controllerserver.go:126-133 | from the initial state, for every volume: a create succeeds without a directory |
| LifecycleExamples.DeleteSucceedsInVain | pkg/beegfs/controllerserver.go:223-226 | from the initial state, for every volume: a delete succeeds with the directory in place |
| UnstageWait.PollUntilWait | pkg/beegfs/controllerserver.go:531-583 | ends at the first look that is not waited on, after at most half the seconds rounded up and one more: unstaged exactly if that look found the directory empty, absent exactly if there was none, given up exactly if nodes were left; gives up only past the deadline |
| LifecyclePolling.PollRefines | pkg/beegfs/controllerserver.go:531-583 | the loop and the steps of the transition system agree: whatever happens between the calls, a request whose looks are those of the loop leaves the waiting with the last of them, to where the loop's result sends it |
| UnstageWait.DeadlineExactly | pkg/beegfs/controllerserver.go:545-548 | the 64-bit deadline is never later than asked for, and equal to it exactly up to 9223372036 seconds |
| UnstageWait.DeadlineWraps | pkg/beegfs/controllerserver.go:545-548 | for every 64-bit number of seconds, the deadline is the signed 64-bit number that differs from the nanoseconds asked for by a multiple of the word size |
| UnstageWait.BoundIsMet | pkg/beegfs/controllerserver.go:545-551 | with exact sleeps and no node unstaging, the bound on looks is attained |
| UnstageWait.TooLongIsNoWait | pkg/beegfs/controllerserver.go:545-548 | one second more than fits gives a deadline in the past |
| ThreadSafe.HeldUntilReleased | pkg/beegfs/thread_safe.go:26-43 | a lock obtained is refused to others until released, other strings are not affected, releasing restores the state |
| ThreadSafe.StringLock.ObtainLockOnString | pkg/beegfs/thread_safe.go:26-36 | the method is the try-lock of the protocol model |
| ThreadSafe.StringLock.ReleaseLockOnString | pkg/beegfs/thread_safe.go:39-43 | the method is the unlock of the protocol model |
| ConfigMerge.MergeAssociative | pkg/beegfs/config.go:280-310 | one configuration over another is associative |
| ConfigMerge.MergeAbsorbs | pkg/beegfs/config.go:280-310 | a layer below a later copy of itself does not show, which is what lets one override go to several entries |
| ConfigMerge.StripTotal | pkg/beegfs/config.go:237-257 | stripping the fold of the layers is folding the stripped layers |
| ConfigMerge.OptionsAreLastDefined | pkg/beegfs/config.go:280-305 | each of the seven options of a fold is that of the last layer that defines it, or empty if none does |
| ConfigMerge.KeysAreLastDefined | pkg/beegfs/config.go:306-310 | a client option is in the fold exactly if some layer sets it, with the value of the last that does |
| ConfigLayers.EffectiveConfigIsFlatFold | pkg/beegfs/config.go:76-94 | squash after parse is the stripped right-biased fold of default, the defaults of the sections with the node anywhere in their list, the host's entries, and those sections' entries of the host, for every file, node and host |
| ConfigLayers.EffectiveValues | pkg/beegfs/config.go:76-94 | read off these layers directly: each option and each client option is that of the last layer that defines it, and the four client options that the driver decides itself are never there |
| ConfigLayers.NodeListsAreSets | pkg/beegfs/config.go:77-83 | files that differ in the order, the repetitions or the other nodes of a node list are parsed alike |
| ConfigLayers.OnlyOwnSectionsCount | pkg/beegfs/config.go:76-94 | a file is parsed as if it had only the sections that list the node, each for that node alone |
| ConfigLayers.OverrideTouchesOnlyItsHost | pkg/beegfs/config.go:262-275 | an override changes the entries of its host and no other, and adds an entry exactly if there was none |
| ConfigLayers.TotalOverwriteFileSystems | pkg/beegfs/config.go:262-275 | the nested override loop gives each host the fold of both lists, also with duplicate hosts |
| ConfigLayers.NodeLoopDefaults | pkg/beegfs/config.go:76-94 | the node loop folds the defaults of the sections with the node anywhere in their list, in file order |
| ConfigLayers.NodeLoopFileSystems | pkg/beegfs/config.go:76-94 | the node loop folds the file system entries of those sections in file order, per host |
| ConfigLayers.SquashValue | pkg/beegfs/beegfs_util.go:224-233 | the squash is the default under everything listed for the host |
| ConfigPrecedence.ParsePanicsExactly | pkg/beegfs/config.go:280-310 | parsing panics exactly on the files that write into a nil map |
| ConfigPrecedence.FileSystemsPanicExactly | pkg/beegfs/config.go:262-275 | the override loop panics exactly if some override sets options where the entry it meets first has no map |
| ConfigPrecedence.PanicExample | pkg/beegfs/config.go:307-309 | a concrete file that panics |
| ConfigPrecedence.DocumentedPrecedenceExactly | docs/deployment.md:527-531 | code and documented precedence agree on a host exactly if no option is disputed |
| ConfigPrecedence.PrecedenceExample | docs/deployment.md:527-531 | a concrete file, with a host and values that validation accepts, on which they differ |
| ConfigHeap.OverwriteBeegfsConfig | pkg/beegfs/config.go:280-310 | overwriting a struct in place, through its shared map, panics and computes as the value-level merge does |
| ConfigHeap.OverwriteHost | pkg/beegfs/config.go:264-272 | the inner loop overwrites every entry of the host and keeps which maps are shared |
| ConfigHeap.OverwriteFileSystemSpecificConfigs | pkg/beegfs/config.go:262-275 | the nested loops, which append entries that keep sharing their maps, compute the value-level result |
| ConfigHeap.PluginConfig.ApplyNodeConfigs | pkg/beegfs/config.go:76-94 | the node loop over shared maps computes the value-level result and keeps the maps of different entries apart |
| ConfigHeap.PluginConfig.StripConfig | pkg/beegfs/config.go:237-257 | stripping copies of the structs strips the configuration itself, through the shared maps |
| ConfigHeap.PluginConfig.SquashForHost | pkg/beegfs/beegfs_util.go:224-233 | the squash is built in a map of its own and leaves the plugin configuration alone |
| ConfigHeap.ParseConfig | pkg/beegfs/config.go:45-98 | the whole parse on structs with shared maps has the outcome of the value-level parse: panic, invalid, or that configuration |
| Secrets.InjectionIsLastWriterWins | pkg/beegfs/config.go:115-150 | every host is given the secret listed last for it, or none, and nothing else about any host changes |
| Secrets.PassesCommute | pkg/beegfs/config.go:172-192 | the order of the two secret passes does not show in any host's configuration |
| Secrets.InjectSecret | pkg/beegfs/config.go:134-149 | one secret goes to the first entry of its host or to a new entry |
| Secrets.InjectSecrets | pkg/beegfs/config.go:115-150 | the loop injects exactly the entries before the first that does not decode, and succeeds exactly if every encoding is "raw", empty, or "base64" with a text that decodes |
| Secrets.InjectTlsCerts | pkg/beegfs/config.go:172-192 | the loop injects every certificate, with a newline behind it |
| Secrets.ConnAuthLoaded | pkg/beegfs/config.go:115-150 | the connAuth of a host ends up as the text of its last entry, decoded, or with a newline if it is raw; its certificate does not change |
| Secrets.TlsCertLoaded | pkg/beegfs/config.go:172-192 | the certificate of a host ends up as the text of its last entry with a newline; its connAuth does not change |
| Secrets.InjectTakesFirst | pkg/beegfs/config.go:134-141 | a secret goes to the first entry of its host, and nothing else there or elsewhere changes |
| Secrets.InjectAddsEntry | pkg/beegfs/config.go:142-149 | a host without an entry gets one that holds the secret and nothing else |
| ClientFiles.OrderIndependentExactly | pkg/beegfs/beegfs_util.go:117-147 | every visiting order gives the same outcome exactly if the ports do not clash in one of two ways |
| ClientFiles.OrderDoesNotShow | pkg/beegfs/beegfs_util.go:117-147 | without a clash, every order fails, or ends in one file described without any order |
| ClientFiles.EmptyPortClashShows | pkg/beegfs/beegfs_util.go:130-134 | an empty deprecated port beside a non-empty one: one order succeeds and another fails |
| ClientFiles.ExplicitPortClashShows | pkg/beegfs/beegfs_util.go:118-138 | an explicit port that differs from a deprecated one: two orders end in different files |
| ClientFiles.RewriteKeys | pkg/beegfs/beegfs_util.go:114-147 | the loop computes the fold for some order, and the order-free result without a clash |
| ClientFiles.WriteClientFile | pkg/beegfs/beegfs_util.go:63-218 | on success the written file has exactly the template's keys; each of the five options that is set has its key pointing to the file of that name in the directory, which is written with its contents, and every other key has the rewritten value; it fails exactly if the rewriting does or a set option's key is not in the template; nothing depends on the visiting order unless the ports clash |
| ClientFiles.FilesAreNamed | pkg/beegfs/beegfs_util.go:149-205 | the five options together: the keys of those that are set name their files, all others stay, and it fails exactly if such a key is missing |
| ClientFiles.LinesConcat | pkg/beegfs/beegfs_util.go:149-205 | a list is written with a newline behind every entry |
| ClientFiles.SquashedHasNoEffectKeys | pkg/beegfs/config.go:237-257 | no layer and no secret brings a no-effect key back into any host's configuration |
| ClientFiles.NoEffectOptionsHaveNoEffect | pkg/beegfs/beegfs_util.go:102-147 | for every accepted configuration file and host, the written file has sysMgmtdHost equal to the volume's host, connClientPort (or connClientPortUDP without it) equal to the chosen port, and connPortShift and the other port as in the template |
| ReqParams.ValidateReqParams | pkg/beegfs/controllerserver.go:589-623 | succeeds exactly on valid parameters, returns their meaning with a clean absolute base path, and then leaves the caller's map empty, in any visiting order |
| ReqParams.ValidParamsExactly | pkg/beegfs/controllerserver.go:589-623 | which parameters are valid, by their own names: no others than the eight, the host non-empty, the base path there, and every number a numeral of its base below its limit |
| ReqParams.ParamsMean | pkg/beegfs/controllerserver.go:426-509 | what valid parameters mean, by their own names: the numbers that the numerals denote, and zero, empty or mode 0777 for what is absent |
| ReqParams.ParseUintExactly | pkg/beegfs/controllerserver.go:490-505 | a string is parsed exactly if it is the numeral of a number below the limit, and to that number |
| VolumePaths.CleaningIsIdempotent | pkg/beegfs/controllerserver.go:603-603 | cleaning gives a clean absolute path for every input and leaves clean paths as they are |
| VolumePaths.CleaningByParts | pkg/beegfs/controllerserver.go:603-603 | each further part of a path does what it should: an empty part or "." nothing, ".." goes up unless at the root, any other goes down |
| ReqParams.GetStripePatternConfig | pkg/beegfs/controllerserver.go:426-468 | succeeds exactly if all stripe parameters are known and parse, and then removes exactly those |
| ReqParams.GetPermissionsConfig | pkg/beegfs/controllerserver.go:474-509 | succeeds exactly if all permission parameters are known and fit their widths, and then removes exactly those |
| VolumeIDs.URLRoundTrip | pkg/beegfs/beegfs_util.go:38-57 | building and parsing a volume ID are inverse to each other |
| VolumeIDs.URLForm | pkg/beegfs/beegfs_util.go:38-57 | volume IDs spelled out: scheme, host and path, with a slash before a relative path; anything without the scheme is not one |
| VolumeIDs.DecodableExactly | pkg/beegfs/beegfs_util.go:442-450 | greedy decoding undoes the escaping exactly on strings without a slash before a slash or underscore |
| VolumeIDs.OneUnambiguousSource | pkg/beegfs/beegfs_util.go:442-450 | each escaped name has one unambiguous source, and every ambiguous string collides with it |
| VolumeIDs.SanitizedIsFileName | pkg/beegfs/beegfs_util.go:442-450 | the name is a single path component of at most 255 characters |
| VolumeIDs.SanitizeExactly | pkg/beegfs/beegfs_util.go:442-450 | the escaped form is used exactly up to 255 characters, each underscore counted twice, and then decodes to the ID without its scheme exactly if that is unambiguous; longer IDs get the digest of the whole ID |
| VolumeIDs.SanitizeIsInjective | pkg/beegfs/beegfs_util.go:442-450 | canonical volume IDs never share a name, escaped or hashed |
| VolumeIDs.SanitizeCollides | pkg/beegfs/beegfs_util.go:442-450 | a whole family of pairs outside that domain does |
| VolumePaths.ViewsAgreeExactly | pkg/beegfs/beegfs.go:306-328 | host and BeeGFS views of the volume agree, and those of the CSI directory exactly if the volume is not the root |
| VolumePaths.PathsOfVolume | pkg/beegfs/beegfs.go:306-328 | every path of the volume record, spelled out from the directory that holds the volume and its name |
| VolumePaths.CsiDirsDiffer | pkg/beegfs/beegfs.go:306-328 | different volumes never share a CSI directory |
| VolumePaths.DeleteRemovesOwnSubtrees | pkg/beegfs/controllerserver.go:564-582 | deleting the record's two paths through the mount removes exactly parent/name and parent/.csi/volumes/name in BeeGFS |
| VolumePaths.DeletingRootRemovesEverything | pkg/beegfs/beegfs.go:306-328 | deleting a volume without a path empties the file system |
| VolumePaths.DeleteLeavesOtherVolumes | pkg/beegfs/controllerserver.go:564-582 | deleting a volume keeps every entry and the tracking directory of volumes apart from it |
| VolumePaths.DeleteKeepsOtherVolumes | pkg/beegfs/controllerserver.go:564-582 | the same on the records: removing one volume's two paths through the mount keeps every entry under the two paths of a volume apart from it |
| LifecycleDirs.WorkPathsOfVolume | pkg/beegfs/beegfs.go:306-328 | the working directory, client configuration and mount of the transition system are those of the volume record |
| LifecycleDirs.TrackingPathOfVolume | pkg/beegfs/controllerserver.go:533-533 | the tracking directory of the transition system is the one below the record's CSI directory |
| LifecycleDirs.VolumeRemovalRefines | pkg/beegfs/controllerserver.go:576-582 | in a tree with the directories of all volumes, removing the record's volume path through the mount changes exactly what the removal step says |
| LifecycleDirs.TrackingRemovalRefines | pkg/beegfs/controllerserver.go:564-569 | the same for the record's CSI path |
| VolumePaths.DirsToMake | pkg/beegfs/beegfs_ctl.go:183-189 | the list is precisely the non-root prefixes, shortest first |
| VolumePaths.CreateDirectoryForVolume | pkg/beegfs/beegfs_ctl.go:170-203 | succeeds exactly if no command fails; then the directory and its parents exist and nothing else changed; a repeat changes nothing |
| Cluster.SetChangesNothingExactly | operator/controllers/beegfsdriver_controller.go:154-196 | setting a condition changes the list exactly if the condition says something new |
| Cluster.SetKeepsTime | operator/controllers/beegfsdriver_controller.go:154-196 | the time of a condition is that of its last change of readiness, and conditions of other types stay |
| Reconciler.StatusWrittenExactly | operator/controllers/beegfsdriver_controller.go:198-205 | the status is written exactly if it is out of date with the workloads' pod counts |
| Reconciler.StatusCurrentExactly | operator/controllers/beegfsdriver_controller.go:112-196 | the status is current exactly if, for each workload, readiness, reason and message are those for its pod counts: not created, none scheduled, some not ready, all ready |
| Reconciler.NewConditionsSay | operator/controllers/beegfsdriver_controller.go:494-524 | the condition looked up before deploying a workload is always there, and its reason says "not created" exactly if the workload was not found |
| Reconciler.ConvergedCarriesVersions | operator/controllers/beegfsdriver_controller.go:608-628 | in a converged cluster both pod templates carry the current versions of the Config Map and both Secrets, and both workloads have every other field that is asked for |
| Reconciler.ApiServer.Others | operator/controllers/beegfsdriver_controller.go:85-534 | everybody else does what the schedule says, and no such action breaks finalizer safety, makes a held resource vanish, or reuses a version |
| Operator.DeleteClusterObjects | operator/controllers/beegfsdriver_controller.go:225-238 | if it succeeds, no cluster-scoped object of the operator is left, whatever happened meanwhile |
| Operator.Finalize | operator/controllers/beegfsdriver_controller.go:221-244 | left alone, a deleting resource loses the operator's finalizer and nothing else: it is gone exactly if there was no other, and otherwise still there, deleting, with the same spec and every other finalizer; exactly the cluster-scoped manifest objects are gone |
| Operator.EnsureFinalizer | operator/controllers/beegfsdriver_controller.go:210-219 | left alone, the resource has the operator's finalizer and everything it had before, and is not written if it had it |
| Operator.RefreshStatus | operator/controllers/beegfsdriver_controller.go:112-205 | left alone, the status ends up current and is written only if it was not; otherwise the copy it returns is safe to update with |
| Operator.EnsureRbac | operator/controllers/beegfsdriver_controller.go:329-458 | left alone, it fails exactly if a role or binding that may not be updated is there with other contents; otherwise every RBAC object fits its manifest, existing service accounts and other objects are untouched, and nothing is written if all fit |
| Operator.EnsureWorkload | operator/controllers/beegfsdriver_controller.go:485-531 | left alone, the workload has every field that is wanted, what is written is what is wanted, and nothing is written if it had every field |
| Operator.EnsurePresent | operator/controllers/beegfsdriver_controller.go:282-327 | left alone, a missing secret or CSI driver object is created with the wanted contents, and an existing one is not touched |
| Operator.Deploy | operator/controllers/beegfsdriver_controller.go:252-531 | left alone, it fails exactly if it cannot converge; otherwise everything the resource asks for is there, existing secrets, service accounts and CSI driver objects are untouched; every object is as before or as asked for, and nothing is written if all fits |
| Operator.Reconcile | operator/controllers/beegfsdriver_controller.go:85-534 | under any schedule: finalizer safety in every state on the way, and an error is reported exactly if one of its calls was answered with one, and then only one was; left alone, it fails exactly if it cannot converge, otherwise converges, then writes at most the status, then nothing, keeping spec and everybody's finalizers and reporting the pod counts it found; a deleting resource is cleaned up and loses the operator's finalizer only, so that it is gone exactly if there was no other |
| Operator.Operate | operator/controllers/beegfsdriver_controller.go:210-247 | from an empty cluster, under every schedule and number of runs, each state with a cluster-scoped object of the operator has the resource held by the finalizer, and no write of the operator adds or removes anybody else's finalizer |
| Operator.Settle | operator/controllers/beegfsdriver_controller.go:112-531 | three undisturbed runs settle from exactly the states that can converge: the first converges with current versions on both templates, writes only what is asked for and keeps every finalizer, the second changes at most the status, the third changes nothing; from all others the cluster stays unable to converge |
| Operator.StuckFromTheStart | operator/controllers/beegfsdriver_controller.go:405-428 | for every manifest with a Role: somebody creates it with other rules, then the custom resource is created, and no run succeeds |

## Left out

- gRPC server, logging, request IDs, identity service and error codes: plumbing without state.
- Running beegfs, beegfs-ctl, modprobe and mount: steps that succeed or fail with a stated effect.
- YAML, INI syntax, percent-encoding, base64, IP and CIDR checks: abstract functions or inputs.
- Choice of the ephemeral port, SELinux context, order and duplicates of mount options, version detection: inputs.
- File modes (goFileMode, hasSpecialPermissions): only whether a create needs a mount is modelled.
- Operator image, log level, affinity and resource setters: one function from the custom resource to the wanted body.
- Operator upgrades that change the manifests, and several custom resources at once: the manifest and the resource are fixed.
- Fields of workloads that the API server does not let anybody change: updates of workloads are taken to be stored.
- Failures of single writes in writeClientFiles: they end the call and are a failed step of the request.
- Argument checks of the RPCs and creation of mount point directories: they end an RPC before it changes anything that is modelled.
- Operator.Reconcile: says nothing about convergence under API errors or outside changes, because each of them can undo what was just written.
- LifecycleTracking.TrackedImpliesStaged: excludes nodes whose latest unstage could not handle the tracking file, because the code then unmounts all the same, and nodes rebooted since, because nothing removes the file then.
- ConfigHeap.ParseConfig: assumes that decoded sections do not share maps with one another, which is how a decoder builds them.

# Verified model of the Ansible operator

This project models the controllers of an operator that runs Ansible from
Kubernetes, and proves what they promise. Hosts, groups, playbooks and reconcile
jobs are objects of one namespace. A host is Ready when its private key is
usable, its host keys are pinned and its variables are stored. A group is Ready
when all its hosts and subgroups are. A reconcile job turns the namespace into an
inventory, a known_hosts file and a CronJob, and suspends the CronJob when
something is wrong.

The API server is a class holding maps of objects. Every call to it may fail, as
an arbitrary fault oracle says, and every write wakes the controllers that watch
the object. The three reconcilers are classes with a private copy of the object
they work on, as in the source, and their methods follow the source's branches
and order of calls. Each is proved to refine a relation between the store before
and after (`Outcome`, `HostOutcome`, `JobOutcome`) that covers every placement of
faults. On these relations stands one transition system, `Operator.Does`: turns
of the three controllers and edits by everybody else. The main results are about
all its runs.

| file | content |
|---|---|
| Strings, Objects, ApiServer, VarsConfigMaps | strings and sorting, the objects and their watches, the server, the vars ConfigMap both controllers maintain |
| GroupController, GroupRuns, GroupTruth, GroupRing | the group reconciler and its watch mapper; termination of health propagation; what Ready means; why cycles are different |
| Inventory, InventoryMeaning, BlockMappings, InventoryText | building the inventory, what it preserves, its text and reading it back |
| KeyScan, KnownHosts | the concurrent key scan; the known_hosts text |
| HostController, HostPinning | the host reconciler; trust on first use with reconciles interleaved call by call |
| PodTemplates, JobFiles, JobController | the CronJob, the three ConfigMaps, the job reconciler and its error handler |
| Operator, OperatorGroups, OperatorJobs, Ownership | runs of everything together |
| JobRuns, HandlerFailure | termination of the job controller; a run in which the error handler fails |
| RunnerView | what a pod started for a job finds in its files and its environment |

## Where a promise needs a condition

* Health propagation does not end when a group's vars ConfigMap belongs to someone
  else, since the group's reconcile then fails for ever. On an acyclic graph that is
  the only reason (`GroupRuns.TerminatesIffUnblocked`). On a cyclic graph there are
  others (`GroupRing.RingNeverStops`).
* A job is retried for ever while an input of its ConfigMaps is missing or one of
  their names is taken, and otherwise the job controller comes to rest
  (`JobRuns.JobsTerminateIff`).
* The suspend protocol depends on the error handler's own calls, whose errors are
  only logged: if they fail, a CronJob can keep running under Ready=False
  (`HandlerFailure.LoseTheCronJob`). A run keeps the protocol exactly if every
  handler in it that recorded Ready=False also stopped the CronJob, and every one
  that could not record it left the CronJob in line with the Ready still stored
  (`OperatorJobs.RunKeepsSuspendIff`). A handler whose calls succeed is one of
  these, whatever failed before it (`OperatorJobs.RunKeepsSuspend`).
* A group is out of date once the mapper behind a watch fails to list the groups,
  unless the missed edit changes no verdict (`OperatorGroups.MissedHostEventIff`,
  `OperatorGroups.MissedGroupEventIff`).
* The ownership check of a job's ConfigMaps accepts any owner reference with the
  job's kind and name, but the watch wakes only the controller. An edit to a
  ConfigMap that merely names the job as an owner goes unnoticed
  (`OperatorJobs.EditsNoticedIffControlled`).
* Ansible names need not be unique, and two hosts (or two groups) that share one
  give the runner two mounts at one path (`PodTemplates.MountPathsDistinctIff`)
  and the inventory a repeated key (`InventoryText.InventoryKeysUniqueIff`).
* Object names may be longer than what fits into a volume name, and have dots
  (`PodTemplates.VolumeNamesFitIff`).
* The host type marks `privilege` as optional
  (`api/v1alpha1/ansiblehost_types.go:40-42`), but building the inventory
  dereferences it, so one host without it makes every job's reconcile panic
  (`Inventory.ConstructInventoryContent`). The manager recovers the panic and puts
  the job back, but the error handler does not run: Ready stays what it was, or
  becomes Unknown if it was not set, and the CronJob stays as it is (the ending
  `Panicked` of `JobController.JobOutcome`).

## Model

| member | source | states |
|---|---|---|
| ApiServer.Cluster.Fetch | internal/controller/ansiblereconcilejob_controller.go:776 | a Get fails exactly when the fault oracle says so; otherwise it finds the stored object or reports not found |
| ApiServer.Cluster.UpdateJobStatus | internal/controller/ansiblereconcilejob_controller.go:313 | a status update succeeds iff its call does and the job exists; it then replaces the conditions and wakes the job, and no other conditions and no other job |
| ApiServer.Cluster.CreateConfigMap | internal/controller/ansiblereconcilejob_controller.go:803 | Create succeeds iff its call does and the name is free; then the object is stored and the group or job that controls it waits for a reconcile |
| ApiServer.Cluster.CreateSecret | internal/controller/ansiblehost_controller.go:270 | Create never replaces an existing secret |
| ApiServer.Cluster.ApplyCronJob | internal/controller/ansiblereconcilejob_controller.go:381 | the applied CronJob wins; applying an identical one changes nothing, and any other wakes the job that controls it |
| ApiServer.Cluster.UpdateCronJob | internal/controller/ansiblereconcilejob_controller.go:649 | an update of an existing CronJob, or an error and no change |
| VarsConfigMaps.EnsureVarsConfigMap | internal/controller/ansiblegroup_controller.go:171-212 | whatever calls fail, an error leaves the store alone, and success leaves the text under the key vars of the owner's -vars ConfigMap, which the owner controls, with its other keys and its owners as they were (a new one has nothing else) and no other ConfigMap changed; one controlled by another object is never touched and always an error; a settled one is not written |
| Objects.ControllerIsFirst | internal/controller/ansiblegroup_controller.go:197 | the controller of an object is the owner in its first reference that is marked as one |
| GroupController.GroupReconciler.SetCondition | internal/controller/ansiblegroup_controller.go:223-238 | skip-if-unchanged refines always-write while copy and store agree: the stored group equals the copy after every successful call, and an unchanged condition costs no write |
| GroupController.GroupReconciler.IsGroupsArrayOk | internal/controller/ansiblegroup_controller.go:260-275 | the loop returns exactly the missing and the existing-but-not-Ready subgroup references, in order |
| GroupController.GroupReconciler.IsHostsArrayOk | internal/controller/ansiblegroup_controller.go:277-292 | the same for host references |
| GroupController.GroupReconciler.CheckGroupHealth | internal/controller/ansiblegroup_controller.go:240-258 | the four lists of the health check are those of the current store, unless a call failed |
| GroupController.MembersReadyIffNoneListed | internal/controller/ansiblegroup_controller.go:99-112 | the four lists are all empty iff every reference exists and is Ready |
| GroupController.GroupReconciler.EnsureVarsAndRollUp | internal/controller/ansiblegroup_controller.go:87-168 | after the initial conditions: success sets the three conditions so that they tell the truth about the members (see Reconcile) and no other; without faults it fails iff the vars ConfigMap is foreign; an error whose status write succeeds is what Ready=False names |
| GroupController.GroupReconciler.Reconcile | internal/controller/ansiblegroup_controller.go:65-169 | for every placement of faults: success makes ReferencesValid True iff every listed host and subgroup exists, Healthy True iff all listed ones that exist are Ready, Ready True iff both, and otherwise False with exactly the missing, or not Ready, hosts and groups, each in its own list, in order; other conditions stay; only the group's status and vars ConfigMap are written, dependants of a change are woken, a settled group is not written; an error leaves Ready False with that error unless the first Get or a status write failed; without faults it fails iff the vars ConfigMap is foreign, and says so |
| GroupController.GroupsMatchingIndexer | internal/controller/ansiblegroup_controller.go:358-369 | the mapper behind both watches: the groups that list the name under the index, each once; no request at all if its List fails |
| GroupRuns.Work | internal/controller/ansiblegroup_controller.go:65-85 | taking a queued name and reconciling it is a turn of the transition system; an error puts the name back |
| GroupRuns.TurnFalls | internal/controller/ansiblegroup_controller.go:65-169 | the measure: each fault-free turn on an acyclic graph lowers the sum of weights, or is the no-op of a group stuck on a foreign vars ConfigMap |
| GroupRuns.ChangesBounded | internal/controller/ansiblegroup_controller.go:65-169 | in any schedule, blocked groups or not, the turns that change anything are bounded by the measure |
| GroupRuns.ScheduleBounded | internal/controller/ansiblegroup_controller.go:65-169 | with no foreign vars ConfigMap every schedule is bounded by the measure |
| GroupRuns.TerminatesIffUnblocked | internal/controller/ansiblegroup_controller.go:87-95 | on an acyclic graph health propagation ends from all conditions and queues iff no group's vars ConfigMap is foreign; otherwise that group is retried for ever |
| GroupRuns.TurnExists | internal/controller/ansiblegroup_controller.go:65-169 | a queued group can always be taken, so a schedule is never stuck |
| GroupRuns.StoppedMeansEmpty | internal/controller/ansiblegroup_controller.go:65-169 | a schedule that cannot be continued has emptied the queue |
| GroupRuns.TurnKeepsInvariant | internal/controller/ansiblegroup_controller.go:300-370 | a turn with any faults leaves every group that is not queued with current conditions |
| GroupRing.RingNeverStops | internal/controller/ansiblegroup_controller.go:260-275 | acyclicity is needed: three groups listing each other in a ring can pass Ready around without end, with no fault and no foreign ConfigMap |
| GroupRing.RingTurnOnly | internal/controller/ansiblegroup_controller.go:65-169 | whichever of the three groups' turn can change something, the ring has only one fault-free turn for it: that group flips its Ready and everything else stays |
| GroupRing.KeepTurning | internal/controller/ansiblegroup_controller.go:65-169 | the reconciler itself, run for any number of turns without a fault, passes Ready around the ring: after n turns the store is the ring's phase n modulo 6, and all three groups still wait |
| GroupTruth.ReadyIsTrue | internal/controller/ansiblegroup_controller.go:103-112 | on any graph, cycles included, once no group waits a stored Ready=True means every group reachable exists and all its hosts exist and are Ready |
| GroupTruth.QuiescentConditionsTell | internal/controller/ansiblegroup_controller.go:99-166 | on any graph, once no group waits, ReferencesValid is True iff every member exists, Healthy iff those that exist are Ready, and Ready iff both are True |
| GroupTruth.QuiescentHealthIsTruth | internal/controller/ansiblegroup_controller.go:65-169 | on an acyclic graph with no group waiting, Ready is True iff every reachable group exists and all its hosts exist and are Ready |
| GroupTruth.Convergence | internal/controller/ansiblegroup_controller.go:65-169 | every schedule that empties the queue of an acyclic graph ends with Ready equal to the recursive truth about the specs and hosts it started with |
| GroupTruth.QuiescentConditionsUnique | internal/controller/ansiblegroup_controller.go:114-166 | all three conditions, messages included, are determined by specs and hosts, whatever the order of turns |
| GroupTruth.CycleNeverReady | internal/controller/ansiblegroup_controller.go:99-124 | groups that each list another of themselves and are not Ready stay not Ready under any schedule, any faults and any change to hosts or ConfigMaps |
| Inventory.SortedKeyList | internal/controller/ansiblereconcilejob_controller.go:846 | the keys of a map in sorted order, the same for every iteration order of the map |
| Strings.LeqIff | internal/controller/ansiblereconcilejob_controller.go:846-850 | the order names are sorted in is lexicographic: a prefix comes first, otherwise the first difference decides |
| Inventory.MapMembers | internal/controller/ansiblereconcilejob_controller.go:855-868 | the mapped names of all references in order, or an error iff one does not resolve |
| Inventory.ConstructInventoryContent | internal/controller/ansiblereconcilejob_controller.go:838-878 | the entries describe the objects in name order: object name, Ansible name, address, port, user and privilege of each host; Ansible name and members' Ansible names of each group; it panics iff some host has no privilege set, and otherwise fails only with a reference that names nothing |
| Inventory.HostEntryIff | internal/controller/ansiblereconcilejob_controller.go:846-848 | an entry is in the inventory iff it has the object name, Ansible name, address, port, user and privilege of one host of the namespace |
| Inventory.GroupEntryIff | internal/controller/ansiblereconcilejob_controller.go:850-871 | a group entry is in the inventory iff it has the Ansible name of one group and, reference by reference, those of its members |
| Inventory.MembersHaveEntries | internal/controller/ansiblereconcilejob_controller.go:855-869 | every host or subgroup a group entry names has an entry of its own |
| Inventory.MapByName | internal/controller/ansiblereconcilejob_controller.go:951-973 | the listing loops build the map of the listing; the last of equal names wins |
| Inventory.InventoryForgetsOrder | internal/controller/ansiblereconcilejob_controller.go:838-878 | any two orders of the listed hosts and groups give the same inventory, the same failure or the same panic |
| InventoryMeaning.MembershipPreserved | internal/controller/ansiblereconcilejob_controller.go:850-872 | with distinct Ansible names of groups, the hosts an inventory group reaches through children and hosts are exactly the Ansible names of the hosts its object reaches, cycles included |
| InventoryMeaning.HostKeepsItsGroups | internal/controller/ansiblereconcilejob_controller.go:924-949 | with distinct Ansible names of hosts too, each host is below exactly the groups it was below |
| InventoryMeaning.ControllersAgree | internal/controller/ansiblereconcilejob_controller.go:855-869 | the inventory can be built iff every host has its privilege set and the group health check finds nothing missing in any group of the namespace |
| GroupController.ReferencesClassifiedOnce | internal/controller/ansiblegroup_controller.go:260-292 | the health check splits a reference list into missing, unhealthy and healthy sublists, order and multiplicity kept, no name in two of them |
| InventoryText.TreePrinted | internal/controller/ansiblereconcilejob_controller.go:880-922 | the text of the template is the block-mapping text of the inventory's tree, optional lines and empty sections included |
| BlockMappings.ParseEmitted | internal/controller/ansiblereconcilejob_controller.go:881-914 | a reader that goes by indentation recovers any tree of plain keys from its emitted lines |
| InventoryText.InventoryRoundTrip | internal/controller/ansiblereconcilejob_controller.go:880-922 | for every inventory within the CRD patterns, reading the rendered text gives back hosts (address, port, user, become, key path) and groups (children, hosts) in order |
| InventoryText.InventoryKeysUniqueIff | internal/controller/ansiblereconcilejob_controller.go:880-922 | no mapping of the rendered text repeats a key (section 3.2.1.1 of YAML 1.2.2) iff the Ansible names of hosts are distinct, those of groups are, no group lists a member twice and no group is named all |
| InventoryText.RenderInjective | internal/controller/ansiblereconcilejob_controller.go:880-922 | two different inventories never render to the same text |
| KeyScan.StepAccounted | internal/ssh/ssh_keyscan.go:83-96 | every send and receive keeps each probe in exactly one place (not sent, in the channel, received) and makes progress |
| KeyScan.SenderNeverBlocks | internal/ssh/ssh_keyscan.go:83-88 | no probe ever finds the channel full |
| KeyScan.ScanEnds | internal/ssh/ssh_keyscan.go:83-96 | no interleaving gets stuck: a scan takes at most two steps per probe, and can go on until the collector has a result from each |
| KeyScan.CompleteRun | internal/ssh/ssh_keyscan.go:95-96 | when the collector is done it has received exactly one result from every probe, in any interleaving |
| KeyScan.CollectKeys | internal/ssh/ssh_keyscan.go:92-119 | the loop returns each captured key once, and an error iff none was captured, which is then the first error to arrive or, if there was none, the no-keys error |
| KeyScan.CapturedInOrder | internal/ssh/ssh_keyscan.go:95-109 | of two captured keys, the one returned first was delivered before the other |
| KeyScan.HostKeysToSortedString | internal/ssh/ssh_keyscan.go:126-141 | the returned text is the concatenation of the sorted key lines |
| KeyScan.SortedTextForgetsOrder | internal/ssh/ssh_keyscan.go:126-141 | permuted keys give the same text |
| KeyScan.ScheduleIndependence | internal/ssh/ssh_keyscan.go:73-141 | for any number of probes and any two complete interleavings: the returned keys are those captured, the text is the same, and both or neither are errors |
| HostController.HostReconciler.HostPrivateKeySecretExists | internal/controller/ansiblehost_controller.go:175-195 | true only for a secret whose ssh_key is there, is not empty and parses; without faults exactly then, and false without error exactly if the secret is absent |
| HostController.HostReconciler.CreateHostKeysSecret | internal/controller/ansiblehost_controller.go:250-274 | on success the host's key secret is new, holds the sorted lines of the captured keys under host_keys and nothing else, and is controlled by the host; no other secret changes; without faults it succeeds iff some key was captured and the name is free |
| HostController.HostReconciler.EnsureHostKeysSecretExists | internal/controller/ansiblehost_controller.go:229-248 | an existing secret is never changed; a new one holds this scan's lines under host_keys and is controlled by the host |
| HostController.HostReconciler.EnsureObjects | internal/controller/ansiblehost_controller.go:76-124 | key, pinned keys and variables in order; without faults it stops at the first failure and says which and why |
| HostController.HostReconciler.Reconcile | internal/controller/ansiblehost_controller.go:62-131 | for every placement of faults: only the host's status, vars ConfigMap and (new) key secret are written, a changed host wakes its groups and all jobs, keys are pinned only after the private key was found valid, Finished means Ready with a usable key, pinned keys unless ignored and the variables stored, and Later means Ready is False unless a status write failed; without faults it finishes iff all four requirements are met and otherwise reports the first that is not, with its cause |
| HostPinning.PinnedForever | internal/controller/ansiblehost_controller.go:229-274 | in any interleaving of any number of workers, a secret that exists keeps its contents as long as nobody outside edits it |
| HostPinning.CreatedOnce | internal/controller/ansiblehost_controller.go:256-272 | a secret name is pinned at most once, even when several hosts share it, unless it is edited outside in between |
| HostPinning.TrustOnFirstUse | internal/controller/ansiblehost_controller.go:62-112 | every secret a controller made holds under host_keys exactly the text of one scan, taken by a worker that had validated that host's private key and then seen the secret absent, doing nothing else in between, and is controlled by that host |
| HostPinning.PinnedKeysAreKnown | internal/controller/ansiblereconcilejob_controller.go:691-747 | end to end, from any creation in any interleaving: while nobody outside touches the secret, the known-hosts file read back has behind the address of every host with that secret the lines of the scanned keys, and no others if no host of that address has another secret |
| HostPinning.ReconcileIsARun | internal/controller/ansiblehost_controller.go:62-112 | what a whole reconcile does to the secrets is a run of these steps |
| KnownHosts.LinesForSecret | internal/controller/ansiblereconcilejob_controller.go:723-730 | every non-empty line of the secret behind the host's address, each ended by a newline |
| KnownHosts.KnownHostsRoundTrip | internal/controller/ansiblereconcilejob_controller.go:691-747 | reading the joined file line by line gives exactly (address, key line) for each non-empty line of each host's secret, in list order; absent and empty secrets contribute nothing |
| KnownHosts.KnownHostsExists | internal/controller/ansiblereconcilejob_controller.go:719-722 | the file can be made iff every secret that exists has the host_keys key |
| KnownHosts.ScannedKeysRecovered | internal/controller/ansiblereconcilejob_controller.go:724-729 | the non-empty lines of a stored scan are exactly the lines of its keys |
| PodTemplates.ConstructCronJobWithMounts | internal/controller/ansiblereconcilejob_controller.go:394-592 | the appending loops build a CronJob that the job controls, that follows its schedule, labels its runs with its name and is not suspended, with the volumes, mounts and environment of the template (see FilesInPlace, DirectoriesInPlace, SettingsInPlace) |
| PodTemplates.NameInjective | internal/controller/ansiblereconcilejob_controller.go:98-111 | two items with one volume name are of one kind and, if they belong to an object, to the same one |
| PodTemplates.PathInjective | internal/controller/ansiblereconcilejob_controller.go:113-130 | two items at one path are of one kind and share the host name or the Ansible name |
| PodTemplates.TemplateMountable | internal/controller/ansiblereconcilejob_controller.go:394-638 | for distinct host and group names: volume names are pairwise distinct, every mount of both containers names a volume, and every sub-path is a file that volume projects |
| PodTemplates.MountPathsDistinctIff | internal/controller/ansiblereconcilejob_controller.go:573-589 | the runner's mount paths are pairwise distinct iff the Ansible names of hosts are and those of groups are, which nothing in the repository enforces |
| PodTemplates.VolumeNamesFitIff | internal/controller/ansiblereconcilejob_controller.go:565-589 | every volume name is a DNS label (no dot, at most 63 characters) iff host names have no dot and at most 52 characters and group names no dot and at most 51, which nothing in the repository enforces |
| PodTemplates.FilesInPlace | internal/controller/ansiblereconcilejob_controller.go:554-589 | inventory, known hosts and all variables are mounted where Ansible reads them, each from its own key of its own ConfigMap, and at /ssh/keys/ and a host's name is that host's own private key |
| PodTemplates.DirectoriesInPlace | internal/controller/ansiblereconcilejob_controller.go:433-563 | playbook and dependencies are handed over from init container to runner through one volume each, both find the configuration's two files below /config, and the runner writes nowhere |
| PodTemplates.SettingsInPlace | internal/controller/ansiblereconcilejob_controller.go:498-519 | the init container's environment is exactly the four git settings, each from the key of its own name of the job's configuration |
| JobFiles.IsOwnedByReconcileJob | internal/controller/ansiblereconcilejob_controller.go:810-817 | true iff some owner reference has the job's kind and name; its uid is not compared |
| JobFiles.EnsureConfigMapWithData | internal/controller/ansiblereconcilejob_controller.go:772-808 | success leaves the job's ConfigMap with exactly the wanted data and its owners as they were; a ConfigMap of somebody else is an error and untouched; equal data costs no write |
| JobFiles.EnsureInventoryConfigMap | internal/controller/ansiblereconcilejob_controller.go:749-770 | success means that inventory.yaml of the job's ConfigMap is the rendering of entries that describe the namespace's hosts and groups; it panics only with both lists read, some host without privilege and nothing written; without faults it fails iff a privilege is missing, a reference does not resolve or the name is taken, told apart in that order |
| JobFiles.KnownHostsForReconcileJob | internal/controller/ansiblereconcilejob_controller.go:733-747 | the host loop collects the non-empty blocks in list order, or fails iff an existing secret lacks its key (or a call fails) |
| JobFiles.EnsureKnownHostsConfigMap | internal/controller/ansiblereconcilejob_controller.go:691-706 | success means the known-hosts text of the listed hosts and their secrets is stored |
| JobFiles.EnsureRuntimeConfigMap | internal/controller/ansiblereconcilejob_controller.go:659-689 | success leaves exactly playbook.yml and requirements.yml of an inline source, whatever git source is set, or else exactly the four git settings, each value under its own key; a missing playbook, one without a source and a taken name are told apart |
| JobFiles.RuntimeDataHolds | internal/controller/ansiblereconcilejob_controller.go:667-684 | the data a playbook asks for is determined key by key: data is stored for it iff keys and values are these |
| JobFiles.SourcesDisjoint | internal/controller/ansiblereconcilejob_controller.go:667-681 | inline and git data share no key, so no stale source survives a switch |
| JobFiles.EnsureFiles | internal/controller/ansiblereconcilejob_controller.go:166-184 | the three in order: only the job's own ConfigMaps are written, success means all three are right, and right ones are not written |
| JobFiles.MadeMeansPossible | internal/controller/ansiblereconcilejob_controller.go:166-184 | ConfigMaps that are right after a reconcile prove that every input was there and no name taken before it |
| JobFiles.ProblemIsFirstNeed | internal/controller/ansiblereconcilejob_controller.go:166-184 | eight needs in the order of the reconcile (privileges, references, name of the inventory, host keys, name of the known hosts, playbook, its source, name of the configuration): nothing stands in the way iff all are met, and otherwise the error is that of the first that is not |
| JobController.NewestRunLatest | internal/controller/ansiblereconcilejob_controller.go:216-224 | the run the status is taken from is the job's, has started, and none started later; of several that started at once it is the first in the list |
| JobController.JobReconciler.SetCondition | internal/controller/ansiblereconcilejob_controller.go:304-319 | the store holds the copy's conditions after a successful write, nothing changes otherwise, and an unchanged condition costs no write |
| JobController.JobReconciler.DefaultAllStatusesToUnknown | internal/controller/ansiblereconcilejob_controller.go:280-302 | missing conditions become Unknown; a Ready that is False in memory is False in the store even when a write fails |
| JobController.JobReconciler.EnsureCronJobWithMounts | internal/controller/ansiblereconcilejob_controller.go:321-386 | the applied CronJob is controlled by the job, has its schedule and its name as label and is not suspended, and no other CronJob changes; an error changes nothing |
| JobController.JobReconciler.UpdateStatusConditions | internal/controller/ansiblereconcilejob_controller.go:209-278 | Progressing says whether the latest started run is active and Successful how it ended, both are Unknown if none has started; the stored Ready is untouched whatever fails |
| JobController.LabelledRunCounts | internal/controller/ansiblereconcilejob_controller.go:210-214 | a started run that carries the label of the job's applied CronJob is one of those its status goes by, and the latest of them is what the status tells |
| JobController.JobReconciler.HandleReconcileError | internal/controller/ansiblereconcilejob_controller.go:640-657 | exactly what is done: the CronJob keeps everything but is suspended iff the Get and, where one is found, the Update succeed; Ready=False with the cause reaches the store iff the status update succeeds or the copy says so already; nothing else changes |
| JobController.JobReconciler.EnsureObjects | internal/controller/ansiblereconcilejob_controller.go:160-190 | without faults it fails iff an input is missing or a name taken, with the first such cause |
| JobController.JobReconciler.Reconcile | internal/controller/ansiblereconcilejob_controller.go:145-207 | for every placement of faults: no error on an existing job means three ConfigMaps, CronJob, Ready=True and run conditions as the namespace asks for, field by field; any error but a failed first Get ends in the handler, whose effect on CronJob and status is stated exactly from the store at its entry and whose cause is the error returned; a panic comes only of a host without privilege and leaves CronJob, ConfigMaps and all conditions that were set alone; only the job's own objects change; without faults it succeeds iff all eight needs are met, and otherwise stops the CronJob and reports the first that is not; a settled job is not written |
| JobController.JobReconciler.ReconcileTwice | internal/controller/ansiblereconcilejob_controller.go:304-319 | no churn: after a reconcile without error, a fault-free one writes no status and no ConfigMap and leaves the store alone |
| JobRuns.JobTurnFalls | internal/controller/ansiblereconcilejob_controller.go:145-207 | the measure: with nothing in the way of any job, each fault-free turn settles its job for good or takes a name out of the queue, whoever its writes wake |
| JobRuns.JobScheduleBounded | internal/controller/ansiblereconcilejob_controller.go:145-207 | so every schedule of fault-free turns is bounded by the measure of its first state |
| JobRuns.ProblemRetried | internal/controller/ansiblereconcilejob_controller.go:160-184 | a job whose inputs are missing or whose ConfigMap names are taken is back in the queue after every fault-free schedule |
| JobRuns.JobsTerminateIff | internal/controller/ansiblereconcilejob_controller.go:145-207 | the job controller comes to rest from every queue iff no job has a missing input or a taken name |
| Operator.Work | internal/controller/ansiblereconcilejob_controller.go:145-207 | taking a queued job and reconciling it is a turn of the transition system; an error puts it back |
| Operator.ConfigMapNamesInjective | internal/controller/ansiblereconcilejob_controller.go:57-61 | ConfigMap names of different jobs never coincide, never are a vars name, and vars names are injective in the owner's name |
| OperatorGroups.StepKeepsQueueInvariant | internal/controller/ansiblegroup_controller.go:300-370 | every step of any controller with any faults, and every edit of hosts, groups, playbooks, jobs, ConfigMaps and secrets, keeps each group that is not queued at its recomputed conditions |
| OperatorGroups.RunKeepsQueueInvariant | internal/controller/ansiblegroup_controller.go:300-370 | so in every reachable state |
| OperatorGroups.ConditionsTellInEveryRun | internal/controller/ansiblegroup_controller.go:99-166 | in every run of the whole operator each group that does not wait has conditions that tell the truth about its members as they then are, lists of culprits included |
| OperatorGroups.ReadyIsTruthInEveryRun | internal/controller/ansiblegroup_controller.go:65-169 | in every run of the whole operator, whenever no group waits and the graph is acyclic, Ready is the recursive truth about the namespace as it then is |
| OperatorGroups.MissedHostEventIff | internal/controller/ansiblegroup_controller.go:341-369 | a host edit whose mapper call fails wakes no group; the queue invariant survives it iff every unqueued group listing the host has the same recomputed conditions before and after |
| OperatorGroups.MissedGroupEventIff | internal/controller/ansiblegroup_controller.go:353-369 | the same for a missed group edit and the unqueued groups listing that group |
| OperatorGroups.MissedHostEventHarmlessIff | internal/controller/ansiblegroup_controller.go:341-369 | in terms a caller can check: iff the host's presence and readiness did not change or every group listing it waits anyway |
| OperatorJobs.SuccessNeedsInputs | internal/controller/ansiblereconcilejob_controller.go:166-201 | whatever calls fail, no reconcile succeeds with an unresolved reference, a missing or empty playbook, an unusable host-key secret or a taken ConfigMap name |
| OperatorJobs.RunKeepsSuspend | internal/controller/ansiblereconcilejob_controller.go:145-207 | in every run in which the handler's calls succeed, between reconciles: Ready=True implies that the CronJob exists and is not suspended, Ready=False that it is absent or suspended; whatever else fails |
| OperatorJobs.HandledSoundIff | internal/controller/ansiblereconcilejob_controller.go:640-657 | for every state at handler entry, that relation holds afterwards iff the recorded Ready=False came with a stopped CronJob, or the unrecorded one left the CronJob as the stored Ready says |
| OperatorJobs.SuspendKeptIff | internal/controller/ansiblereconcilejob_controller.go:145-207 | for every reconcile, from any state where the relation holds: it holds afterwards iff the reconcile did not end in the handler or the handler met that condition |
| OperatorJobs.RunKeepsSuspendIff | internal/controller/ansiblereconcilejob_controller.go:145-207 | over any run: the relation holds in every state iff every reconcile of the job in it met the condition |
| HandlerFailure.LoseTheCronJob | internal/controller/ansiblereconcilejob_controller.go:640-657 | the failing run: a job settled by the reconciler, then reconciled with two failing calls, ends with Ready=False and a running CronJob |
| OperatorJobs.StepKeepsCurrent | internal/controller/ansiblereconcilejob_controller.go:980-1065 | every step keeps each job that is not queued up to date: inventory and configuration as the namespace now is, the desired CronJob of its own schedule and label running, Ready=True, the run conditions those of its newest run |
| OperatorJobs.RunKeepsJobsCurrent | internal/controller/ansiblereconcilejob_controller.go:980-1065 | in every reachable state each job not queued has an inventory that describes the current hosts and groups, exactly the data of its current playbook's source, a running CronJob of its own schedule, label and template for the current hosts and groups, Ready=True and run conditions that tell its latest run, as long as owner references to jobs are controller references |
| RunnerView.RunnersSeeTheNamespace | internal/controller/ansiblereconcilejob_controller.go:394-592 | composed over all runs: for every job not queued, a pod of its CronJob finds at the inventory's path a text that reads back as entries describing the current hosts and groups, at the key path printed for each host that host's own private key, at each Ansible name its variables, and either the playbook's two files below /config and no git setting or exactly the four git settings |
| RunnerView.ReconciledIsSeen | internal/controller/ansiblereconcilejob_controller.go:145-207 | the same right after any reconcile without error, with the known_hosts file reading back as the pinned keys host by host |
| OperatorJobs.EditsNoticedIffControlled | internal/controller/ansiblereconcilejob_controller.go:810-817 | the hypothesis is exact: all edits that outdate an unqueued job are noticed iff the job controls both ConfigMaps, though the ownership check accepts any owner reference |
| Ownership.OnlyOwnersWrite | internal/controller/ansiblereconcilejob_controller.go:772-817 | no step changes, creates or deletes a ConfigMap other than those of the object it reconciles, and none that another object holds |
| Ownership.ControllerPersists | internal/controller/ansiblegroup_controller.go:195-209 | over any run a ConfigMap that is not edited outside keeps its controller |
| Ownership.HostAndGroupExclude | internal/controller/ansiblehost_controller.go:158-171 | while a vars ConfigMap is not edited outside, a host and a group of the same name cannot both reconcile successfully |

## Left out

- Caching and staleness of reads: every Get and List sees the current store, so conflicts of resource versions appear only as failing calls.
- Interleaving of job, group and host reconciles call by call: a turn is one step, except for host key pinning, where every call is a step of its own.
- Failing watches: the mappers' own List calls succeed, except in the `OperatorGroups.Missed...` lemmas, which take one failing call at a time; the watch delivers every event, and at once.
- Secrets are not watched by the job controller, so the job invariant does not speak of the known-hosts ConfigMap, which follows a changed secret only with the next reconcile of the job.
- Server-side apply: the applied CronJob replaces the stored one whole; field managers, merging and a second controller reference are not modelled. `handleReconcileError` suspends any CronJob of the job's name, owned or not, and so does the model.
- Deletion by the garbage collector of objects whose owner is gone; a deleted object's ConfigMaps and CronJob stay.
- Transition times, observed generations and resource versions; a condition is its type, status, reason and message.
- Wording of messages: messages that differ only in wording of the same cause are one value, so a failing reconcile that only rewords its message counts as unchanged.
- Owner references are compared by kind, name and uid together; uids are unique.
- Connecting to a host, the SSH handshake, key parsing and key marshalling: a scan is a sequence of probe results, parsing a predicate, the line of a key a function.
- Entries for ports other than 22: the known-hosts line has the bare address, as in the code.
- Scalars of YAML beyond plain block mappings (quoting, type resolution): the round trip is that of a reader going by indentation and the first colon.
- Bytes and characters: texts are sequences of characters; secrets hold text.
- Cron parsing, images, resource limits, security contexts and file modes of the CronJob: constants, or checked elsewhere. What the two containers do with their files and settings is not part of the repository.
- An object with an empty name, which Kubernetes does not have, is left out of what a pod finds (`RunnerView`).
- The playbook controller (it does nothing), generated code, manifests, leader election and metrics.
- Method boundaries: the two pair loops and the three mount loops are methods of their own, and so are some stretches of the three Reconcile bodies (`EnsureObjects`, `EnsureVarsAndRollUp`, `RecordSuccess`, `EnsureFiles`, `SetConditions`, `Attempt`) and of the handler (`SuspendCronJob`); order, branches and calls are those of the source.
- Time: the thirty-second retry of a host is a result (`Later`), not a clock.

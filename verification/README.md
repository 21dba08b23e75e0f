# Kubermatic: cluster deletion, etcd membership and friends, in Dafny

This project models the parts of Kubermatic whose guarantees span many calls or many processes and
proves those guarantees for every run, every interleaving or every input. All `.dfy` files belong
together; `dafny verify dfyconfig.toml` checks them.

## What is modelled

**Cluster deletion** (`pkg/clusterdeletion`). One reconcile is a method, `Deletion.CleanupCluster`,
that works like the source: it changes its copy of the Cluster object, patches it, lists and deletes.
All calls go to `ClusterApi.Api`. Before each call the environment may move, each call may fail, and a
call that fails may still have taken effect. What took effect is recorded as a run. `RunOk` says which
calls are allowed when, given what the current reconcile has seen; the methods are proved to produce
nothing else (`Controller`), and the theorems about runs are lemmas over `RunOk`:
safety in `DeletionSafety`, progress in `DeletionProgress`.

- `Options`, `Locks`: a value that may be absent; a way to keep definitions out of proofs
- `Strings`, `StringSets`: Go's string operations; the comma-separated ledger of load balancer UIDs
- `Webhooks`, `Clusters`: the webhook that blocks new volumes; the finalizer helpers
- `DeletionWorld`, `DeletionRuns`: the store, the environment, runs
- `ClusterApi`, `ClusterDeletion`: the API servers as the code meets them; the deletion code
- `DeletionSafety`, `DeletionProgress`: what holds over all runs; why deletion finishes
- `EtcdNames`, `EtcdMembers`, `EtcdRing`, `EtcdLauncher`: the etcd launcher: names, rounds, the shared
  membership, its calls
- `WorkerPool`, `Reports`, `Shuffle`: the conformance runner: scenario workers, JUnit accounting, shuffling
- `Datacenters`, `Features`: datacenter lookup; feature gates

Assumptions about the surroundings, all visible as definitions in `DeletionWorld` and `ClusterApi`:

- A patch is a JSON merge patch (section 2 of RFC 7396), so a changed finalizer list replaces the
  stored list whole. The API server refuses to add finalizers to an object that is being deleted. A
  successful patch refreshes the in-memory object.
- Users and other controllers may create, change and delete anything, drop any finalizer and let time
  pass. They do not write the load balancer annotation and do not touch the blocking webhook, and while
  that webhook blocks, claims and volumes only get fewer.
- Kubernetes UIDs have 36 characters and no comma. A webhook found in place under the name of the
  blocking one has no scope or the scope `*`, and no namespace or object selector that selects
  (`Harmless`); `BlocksVolumesExactly` shows that without this the block would have holes.
- Copies of the Cluster object and of the backup configs come from caches and may be outdated.
- An API server that does not know a kind stores no objects of that kind.
- Progress additionally assumes a calm environment (`Calm`): nobody creates load balancer services,
  backup configs or MachineDeployments, and machines come from what manages them. After a reconcile
  there is at times a rest (`Settles`) in which requested deletions complete and other controllers drop
  a finalizer once only theirs are left.

For the etcd ring: each pod has one launcher and a non-empty name, member ids are never given out twice,
every member has a peer URL, and an etcd process announces its name and its client URLs together.

Where code and documentation disagree: `checkIfAllLoadbalancersAreGone` is documented, and used by its
caller, as "nothing is left", but returns "something is left" (`pkg/clusterdeletion/lb.go:162`). The
parameter `rule` of a configuration selects either. The load balancer guarantee is proved for the
intended value. For the value as written, `AsWrittenIsWrong` gives a call on which it is wrong,
`ReturnValuesCompared` and `AsWrittenDropIsSafeExactly` say exactly when it is safe, and
`ReconcileWithoutServices` shows what the code then does: in a calm environment, once nothing
inside the cluster is left, every successful reconcile drops the in-cluster finalizers while some recorded
load balancer has no event.

One more guarantee holds only under a condition. `cleanupLB` records a UID after deleting the service, so
"the UID of a deleted service is in the ledger until its event is seen" fails when that patch does not
take effect, and the next successful reconcile without services forgets the load balancer
(`ReconcileWithoutServices`, empty ledger). The exact condition is that the patch took effect, whether or
not its answer arrived: `CleanupLB` states it for one call on every way out and `RecordedExactly` for
whole runs.

## Model

| member | source | states |
|---|---|---|
| ClusterDeletion.Deletion.CleanupCluster | pkg/clusterdeletion/deletion.go:51-96 | a reconcile on any copy of the Cluster object, however outdated, only makes calls that `RunOk` allows, succeeds only without errors (apart from objects or kinds not found where the source tolerates that) and fails only because of one or because the wait for the lister timed out; when it succeeds in a calm environment it has lowered or is about to lower the amount of work left; a finalizer for load balancers or volumes that is still stored means that all of them were listed and dealt with; a yes of the check means that both are gone |
| ClusterDeletion.Deletion.CleanupInside | pkg/clusterdeletion/deletion.go:51-70 | the same for the part up to the in-cluster resources, on the copy |
| ClusterDeletion.Deletion.BeginReconcile | pkg/clusterdeletion/deletion.go:51-57 | the start up to the constraints: on success the copy is the stored object without the constraints finalizer and with the ledger as it was |
| ClusterDeletion.Deletion.CleanupOutside | pkg/clusterdeletion/deletion.go:72-95 | when nothing inside the cluster is left, success in a calm environment still achieves something; a backup finalizer that is still stored means that all backup configs were listed and dealt with |
| ClusterDeletion.Deletion.CleanupLast | pkg/clusterdeletion/deletion.go:76-95 | the same from the nodes on |
| ClusterDeletion.ReconcileWithoutServices | pkg/clusterdeletion/lb.go:162 | with services gone, and volumes gone and blocked or not waited for, every successful reconcile leaves both in-cluster finalizers dropped if the ledger is empty, and with the return value as written also if some recorded UID has no event |
| ClusterDeletion.Controller | pkg/controller/seed-controller-manager/kubernetes/cluster_controller.go:266-278 | any number of reconciles, with any failures and interference, produces a run in the sense of `RunOk` that holds the start of each of them, in order |
| ClusterDeletion.ReconcileAndRest | pkg/controller/seed-controller-manager/kubernetes/cluster_controller.go:266-278 | no reconcile raises the measure; a successful one followed by a rest lowers it |
| ClusterDeletion.DeleteCluster | pkg/controller/seed-controller-manager/kubernetes/cluster_controller.go:266-278 | in a calm environment reconciling ends with the Cluster object gone, unless more than a given number of rounds fail or are not followed by a rest |
| ClusterDeletion.Deletion.CleanupInClusterResources | pkg/clusterdeletion/deletion.go:98-153 | on success both in-cluster finalizers are off, or work was found to do, or a finalizer of ours fell; a yes of the check takes both off; without the check something was deleted; load balancers and storage are both swept, whatever the other has found |
| ClusterDeletion.Deletion.FinishInside | pkg/clusterdeletion/deletion.go:140-152 | asks the check about the stored ledger; a yes takes both finalizers off |
| ClusterDeletion.Deletion.DeleteInClusterResources | pkg/clusterdeletion/deletion.go:98-128 | load balancers and storage are each listed and dealt with if asked for; what "nothing deleted" and "something deleted" mean for the state |
| ClusterDeletion.Deletion.DropInClusterFinalizers | pkg/clusterdeletion/deletion.go:149-152 | afterwards the copy lacks both in-cluster finalizers and still has every other one it had |
| ClusterDeletion.Deletion.CleanupConstraints | pkg/clusterdeletion/constraints.go:29-37 | on success the copy equals the stored object and lacks the constraints finalizer |
| ClusterDeletion.Deletion.CleanupLBs | pkg/clusterdeletion/lb.go:41-72 | on success every listed load balancer service is gone or being deleted and its UID is in the ledger; the flag says whether there was one |
| ClusterDeletion.Deletion.DeleteLoadBalancers | pkg/clusterdeletion/lb.go:55-71 | the loop deletes the load balancer services, all of them, and no other service |
| ClusterDeletion.Deletion.CleanupLB | pkg/clusterdeletion/lb.go:74-111 | on success the service is gone or being deleted, its UID recorded and served by the cache since; on every way out the stored ledger has gained exactly this UID if the patch took effect, which comes after the deletion, and nothing otherwise |
| ClusterDeletion.Deletion.AddToLedger | pkg/clusterdeletion/lb.go:85-96 | the same for the recording alone |
| ClusterDeletion.Deletion.Track | pkg/clusterdeletion/lb.go:81-110 | recording and waiting: success means recorded and then seen in the cache |
| ClusterDeletion.Deletion.AwaitLister | pkg/clusterdeletion/lb.go:98-110 | success only after the cache has served the UID |
| ClusterDeletion.Deletion.WaitForLister | pkg/clusterdeletion/lb.go:98-108 | success means that the cache served a ledger that holds the UID, not merely as a substring, and that it was stored at some time; a timeout comes after exactly 500 looks |
| ClusterDeletion.Deletion.CheckIfAllLoadbalancersAreGone | pkg/clusterdeletion/lb.go:113-163 | the answer is `Verdict` as of the moment the clock was read, and yes whenever that is more than 7200 seconds after the deletion; recorded UIDs taken for confirmed have their event; on "no" the ledger keeps exactly the UIDs without event |
| ClusterDeletion.Deletion.AskEvents | pkg/clusterdeletion/lb.go:139-162 | the part from the events on: the ledger loses exactly the UIDs whose event was found, and the answer follows from what remains |
| ClusterDeletion.Deletion.UnconfirmedLoadBalancers | pkg/clusterdeletion/lb.go:143-154 | every UID of the ledger was looked up and those without a DeletedLoadBalancer event remain |
| ClusterDeletion.Deletion.LookAt | pkg/clusterdeletion/lb.go:143-154 | one round of that loop, whether or not the event is found |
| ClusterDeletion.Deletion.DropIfDeleted | pkg/clusterdeletion/lb.go:149-153 | the UID goes exactly when one of the events has the reason |
| ClusterDeletion.Deletion.RewriteLedger | pkg/clusterdeletion/lb.go:156-160 | the stored ledger becomes the encoding of what remains |
| ClusterDeletion.Deletion.CleanupVolumes | pkg/clusterdeletion/volumes.go:35-84 | on success creation is blocked and all claims and volumes were listed and dealt with, and if there were any also the pods that use claims; "nothing deleted" means that no claim and no volume exists; objects already gone are no error |
| ClusterDeletion.Deletion.RemoveStorage | pkg/clusterdeletion/volumes.go:46-83 | the same once creation is blocked |
| ClusterDeletion.Deletion.ListStorage | pkg/clusterdeletion/volumes.go:46-54 | with creation blocked, listing claims and then volumes misses nothing that exists afterwards |
| ClusterDeletion.Deletion.ListKeys | pkg/clusterdeletion/volumes.go:46-54 | one listing, complete at its moment |
| ClusterDeletion.Deletion.DeleteStorage | pkg/clusterdeletion/volumes.go:61-83 | every listed claim and volume is gone or being deleted, and so is every pod that uses a claim |
| ClusterDeletion.Deletion.DisablePVCreation | pkg/clusterdeletion/volumes.go:86-96 | on success the webhook in place blocks both claims and volumes |
| ClusterDeletion.Deletion.CleanupPVCUsingPods | pkg/clusterdeletion/volumes.go:98-119 | pods were listed and every one that uses a claim is gone or being deleted, found or not |
| ClusterDeletion.Deletion.PodUsesPV | pkg/clusterdeletion/volumes.go:121-128 | true exactly when some volume of the pod is backed by a claim |
| ClusterDeletion.Deletion.CleanupEtcdBackupConfigs | pkg/clusterdeletion/etcdbackupconfig.go:30-54 | if the finalizer stays, every backup config the cache listed is gone or being deleted, and in a calm environment one that existed is among them; otherwise it is off the copy |
| ClusterDeletion.Deletion.DeleteBackupConfigs | pkg/clusterdeletion/etcdbackupconfig.go:35-48 | every backup config the cache lists is gone or being deleted; in a calm environment one that existed is among them |
| ClusterDeletion.Deletion.CleanupNodes | pkg/clusterdeletion/node.go:35-115 | if the finalizer stays, machine objects of the topmost kind left are going away |
| ClusterDeletion.Deletion.DisableEviction | pkg/clusterdeletion/node.go:45-64 | every listed node skips eviction afterwards |
| ClusterDeletion.Deletion.TearDown | pkg/clusterdeletion/node.go:66-110 | one stage: all objects that existed when it listed them are gone or being deleted; an unknown kind is no error, an object not found is one |
| ClusterDeletion.Deletion.Stage | pkg/clusterdeletion/node.go:66-110 | nothing found means none exists; in a calm environment, with nothing left that creates them, something found means fewer |
| ClusterDeletion.Deletion.TearDownInOrder | pkg/clusterdeletion/node.go:66-110 | the three stages in order; nothing found means that all three lists of this reconcile were empty |
| ClusterDeletion.Deletion.DeleteSecret | pkg/clusterdeletion/secret.go:44-69 | on success the credentials secret, if configured, was deleted or not found |
| ClusterDeletion.Deletion.CleanUpCredentialsSecrets | pkg/clusterdeletion/secret.go:34-42 | on success the credentials finalizer is gone from the store |
| ClusterApi.Api.PatchCluster | pkg/clusterdeletion/deletion.go:149-152 | a merge patch: success means that what was dropped was allowed to go and the copy equals the store; a failure leaves the copy alone, and the ledger changes exactly if the patch took effect |
| ClusterApi.PatchIsAllowed | pkg/clusterdeletion/deletion.go:149-152 | what the patch stores is a step that `RunOk` allows, whatever happened since the object was read |
| ClusterApi.Api.EnsureWebhook | pkg/resources/reconciling/ensure.go:64-139 | on success the stored webhook blocks volumes, whether it was created, updated or already right |
| DeletionRuns.RunEvolves | pkg/clusterdeletion/deletion.go:51-153 | between any two points of any run finalizers only shrink, a blocking webhook stays and storage shrinks, time and published events grow |
| DeletionSafety.FinalizerFrame | pkg/kubernetes/helper.go:43-69 | no step of the code adds a finalizer or removes one outside its six, and only patches remove any |
| DeletionSafety.ForeignFinalizersAreLeftAlone | pkg/clusterdeletion/deletion.go:51-153 | a foreign finalizer missing later in a run was dropped by somebody else |
| DeletionSafety.VolumeSafety | pkg/clusterdeletion/volumes.go:35-96 | once the code has dropped the PV finalizer there is no claim and no volume, then and ever after |
| DeletionSafety.LedgerKeeps | pkg/clusterdeletion/lb.go:74-163 | a UID in the ledger stays until the code has seen its DeletedLoadBalancer event, over all later states of every run |
| DeletionSafety.LedgerStep | pkg/clusterdeletion/lb.go:74-163 | a step puts a UID into the ledger only by recording it and takes one out only after its event was seen |
| DeletionSafety.ConfirmedMeans | pkg/clusterdeletion/lb.go:143-154 | what a reconcile takes for confirmed it has seen in a listing of events |
| DeletionSafety.SeenMeansPublished | pkg/clusterdeletion/lb.go:143-154 | and what was seen had been published |
| DeletionSafety.TrackedLoadBalancersAreKept | pkg/clusterdeletion/lb.go:74-111 | the same from every successful return of `cleanupLB` on; an entry that is gone was seen, and so published |
| DeletionSafety.IntendedCheckIsSafe | pkg/clusterdeletion/lb.go:113-163 | with the intended value, at in-tree providers an in-cluster finalizer goes only with an empty ledger or more than 7200 seconds after the deletion |
| DeletionSafety.TrackedLoadBalancersAreGone | pkg/clusterdeletion/deletion.go:136-152 | then the code has seen the event of every load balancer tracked before, or the two hours are over |
| DeletionSafety.AsWrittenDropIsSafeExactly | pkg/clusterdeletion/lb.go:162 | with the value as written a drop is safe if and only if the ledger was the empty string or the wait was over |
| DeletionSafety.ReturnValuesCompared | pkg/clusterdeletion/lb.go:116-163 | for all inputs: the intended value says yes exactly when justified; the two values agree exactly on early returns; when the value as written is not wrongly yes |
| DeletionSafety.AsWrittenIsWrong | pkg/clusterdeletion/lb.go:162 | one recorded UID without event before the deadline: the value as written says yes, which is not justified |
| DeletionSafety.RecordedExactly | pkg/clusterdeletion/lb.go:74-163 | over every run: a UID not in the ledger at one point, whose event the code has not seen by a later one, is in the ledger there if and only if a patch in between recorded it |
| DeletionSafety.CredentialsLast | pkg/clusterdeletion/deletion.go:81-93 | from the deletion of the secret on, no finalizer but the credentials one is stored |
| DeletionSafety.TeardownOrder | pkg/clusterdeletion/node.go:66-115 | no machine object is deleted while an in-cluster finalizer is stored, MachineSets only after an empty list of MachineDeployments, Machines only after both; the node finalizer goes only after three empty lists, all in the same reconcile |
| DeletionSafety.DeletionOrder | pkg/clusterdeletion/deletion.go:54-78 | in every reconcile of every run: constraints go before anything else is deleted or blocked, pods are looked at before claims and volumes go, backup configs before machines go, and a load balancer counts as tracked only after the cache has served it |
| DeletionSafety.KnownFromThisReconcile | pkg/clusterdeletion/deletion.go:51-96 | what a reconcile acts on it has learned itself, not an earlier one |
| DeletionProgress.NeverRaised | pkg/clusterdeletion/deletion.go:51-153 | nothing in a calm environment raises the ten-part lexicographic measure, although Machines may be recreated |
| DeletionProgress.RoundLowers | pkg/clusterdeletion/deletion.go:51-153 | what a successful reconcile achieves, followed by a rest, lowers the measure |
| DeletionProgress.DeletionFinishes | pkg/clusterdeletion/deletion.go:51-153 | every infinite history of worlds in which successful rounds keep coming reaches one without finalizers, with any number of failed reconciles in between; ClusterDeletion.DeleteCluster derives the rounds from the code |
| Webhooks.Configuration.PreventCreation | pkg/clusterdeletion/creation_preventing_webhook.go:30-71 | rewritten in place, the configuration refuses exactly the creation of the given resources that the scope, the selectors and the match policy found admit, and foreign annotations stay |
| Webhooks.CreatedPrevents | pkg/clusterdeletion/creation_preventing_webhook.go:30-71 | the same for every configuration to start from, and rewriting the result changes nothing |
| Webhooks.BlocksVolumesExactly | pkg/clusterdeletion/creation_preventing_webhook.go:30-71 | installed over any configuration it refuses every creation of claims and volumes if and only if the scope found there is absent or `*` and neither selector found there selects |
| Webhooks.LetThrough | pkg/clusterdeletion/creation_preventing_webhook.go:42-67 | in every other case, a creation that gets through |
| Webhooks.BlockedVolumesAreRefused | pkg/clusterdeletion/volumes.go:86-96 | the configuration the code installs, found harmless, refuses every creation of a claim or volume, with any labels |
| Clusters.Cluster.RemoveFinalizer | pkg/kubernetes/helper.go:58-62 | removes all occurrences of one name and nothing else |
| Clusters.Cluster.AddFinalizer | pkg/kubernetes/helper.go:65-69 | adds the names and nothing else |
| Clusters.HasOnlyFinalizerMeans | pkg/kubernetes/helper.go:52-55 | true exactly when the list is not empty and every entry, repeated or not, is this one |
| DeletionWorld.FinalizerNames | pkg/api/v1/types.go:2104-2125 | the six names, all different |
| StringSets.ParseStringSet | pkg/clusterdeletion/lb.go:165-176 | the set of non-empty items between commas |
| StringSets.ParseEncode | pkg/clusterdeletion/lb.go:165-180 | parsing the encoding of a set of non-empty comma-free strings gives the set back |
| StringSets.EncodeParseIsCanonical | pkg/clusterdeletion/lb.go:165-180 | encoding after parsing is a canonical form: idempotent, sorted without duplicates, equal exactly for equal sets |
| StringSets.ListIsSorted | pkg/clusterdeletion/lb.go:178-180 | the list encoded is strictly sorted and has the elements of the set |
| StringSets.SortedListIsUnique | pkg/clusterdeletion/lb.go:178-180 | there is only one such list |
| Strings.LessExactly | pkg/clusterdeletion/lb.go:178-180 | the order of the list is that of the first difference |
| StringSets.ContainsIsMembership | pkg/clusterdeletion/lb.go:98-108 | among entries of equal length the substring test is set membership, for every annotation |
| StringSets.ContainsInEncoding | pkg/clusterdeletion/lb.go:90-108 | in particular for the annotation just written |
| EtcdRing.InvKept | cmd/etcd-launcher/main.go:118-148 | every step of every launcher keeps peer hosts distinct, ids unique, names matching hosts and unnamed members without client URLs |
| EtcdRing.InvAlways | cmd/etcd-launcher/main.go:118-155 | so these hold in every state of every interleaving of any number of launchers, where each request for the member list is a step of its own |
| EtcdRing.BootstrappedIsConsistent | cmd/etcd-launcher/main.go:276-290 | a ring bootstrapped from the initial list satisfies them and has no unwanted member, for every size and namespace |
| EtcdRing.SettledRingIsSmallEnough | cmd/etcd-launcher/main.go:204-226 | when a launcher's loop reports done the ring has at most the wanted number of members |
| EtcdRing.WantedMembersAreFew | cmd/etcd-launcher/main.go:439-458 | members with distinct hosts, all wanted, are at most n, by pigeonhole |
| EtcdRing.StepChangesOneMember | cmd/etcd-launcher/main.go:204-250 | every step adds or removes at most one member id |
| EtcdRing.AdjacentMajoritiesMeet | cmd/etcd-launcher/main.go:204-250 | every majority of one configuration meets every majority of the next |
| EtcdRing.QuorumsOverlap | cmd/etcd-launcher/main.go:126-142 | the same for consecutive states of every interleaving |
| EtcdRing.LeaderNeverRemovesItself | cmd/etcd-launcher/main.go:490-537 | in every interleaving, a cleanup round takes out one member, chosen by a launcher just confirmed as leader; it answered no probe then and is not at the launcher's own host; whatever is at that host stays |
| EtcdRing.LeadingWasConfirmed | cmd/etcd-launcher/main.go:215-221 | a launcher that goes on as leader was told so by its last step, whatever the others did since |
| EtcdRing.ChosenMember | cmd/etcd-launcher/main.go:522-535 | the member chosen has client URLs, so it is named, and not after the launcher |
| EtcdRing.PendingWasChosen | cmd/etcd-launcher/main.go:510-537 | a pending removal goes back to a round of the same launcher, whatever the others did since |
| EtcdMembers.GetMemberByName | cmd/etcd-launcher/main.go:421-437 | the first member that has the pod's name or its peer host, if any |
| EtcdMembers.PlanUpdate | cmd/etcd-launcher/main.go:252-274 | nothing to do exactly when no member of the pod's name has an https URL, otherwise the first one, with its host kept |
| EtcdMembers.ContainsUnwantedMembers | cmd/etcd-launcher/main.go:439-458 | true exactly when some member has not one URL or not a wanted host |
| EtcdMembers.Contains | cmd/etcd-launcher/main.go:460-467 | list membership |
| EtcdMembers.InitialMemberList | cmd/etcd-launcher/main.go:276-282 | one entry per pod, name and URL of the pod with that number |
| EtcdMembers.InitialMembersAreWanted | cmd/etcd-launcher/main.go:276-290 | no initial member is unwanted |
| EtcdMembers.PollHealth | cmd/etcd-launcher/main.go:473-488 | alive exactly when one of the first 30 probes was healthy and none before it failed |
| EtcdMembers.RemoveDeadMembers | cmd/etcd-launcher/main.go:510-537 | the first member that is not the launcher and fails its probes decides; without client URL the code panics |
| EtcdNames.PeerURLsList | cmd/etcd-launcher/main.go:284-290 | the list of wanted hosts |
| EtcdNames.DecimalIsInjective | cmd/etcd-launcher/main.go:276-298 | different numbers have different decimal texts |
| EtcdNames.DecimalMeans | cmd/etcd-launcher/main.go:276-298 | the text of a number is made of digits, stands for the number and has no leading zero |
| EtcdNames.NamesLookLikeThis | cmd/etcd-launcher/main.go:284-290 | the peer host of a pod, spelled out |
| EtcdNames.PeerHostIsInjective | cmd/etcd-launcher/main.go:284-290 | different pods have different peer hosts |
| EtcdNames.WantedHostsAreDistinct | cmd/etcd-launcher/main.go:284-290 | the wanted hosts are pairwise distinct, for every n |
| EtcdLauncher.IsLeader | cmd/etcd-launcher/main.go:490-508 | true exactly when one of ten answers names the answering member as leader |
| EtcdLauncher.MemberUpdate | cmd/etcd-launcher/main.go:269 | etcd's update: fails exactly when there is no such member, otherwise its peer URLs become the given one and nothing else changes |
| EtcdLauncher.MemberRemove | cmd/etcd-launcher/main.go:131 | etcd's removal: fails exactly when there is no such member, otherwise only it goes |
| EtcdLauncher.Launcher.Manage | cmd/etcd-launcher/main.go:118-155 | however the launchers interleave, what happens is a behaviour of the ring, and if the launcher comes to rest it has joined, stayed with its data or left and joined again without, has looked for outdated URLs, and the ring has at most the wanted number of members |
| EtcdLauncher.Launcher.BecomeMember | cmd/etcd-launcher/main.go:118-143 | its requests are find and join, find and stay with the data at hand, or find, leave and join again without; or it restarts because there was nothing to remove |
| EtcdLauncher.Launcher.StayOrRejoin | cmd/etcd-launcher/main.go:122-140 | a member that has lost its data directory, and only such a one, leaves and joins again |
| EtcdLauncher.Launcher.FindSelf | cmd/etcd-launcher/main.go:118-124 | not found means that nobody is at its host; found means that the member is at its host |
| EtcdLauncher.Launcher.CheckDataDir | cmd/etcd-launcher/main.go:122-125 | with the data directory gone, the member it is going to remove is at its own host, even if the list has changed |
| EtcdLauncher.Launcher.Rejoin | cmd/etcd-launcher/main.go:126-140 | its requests are to leave and to join, in this order, with the others moving in between, or it restarts |
| EtcdLauncher.Launcher.RemoveItself | cmd/etcd-launcher/main.go:126-136 | afterwards nobody is at its host, or there was nothing to remove and the pod restarts |
| EtcdLauncher.Launcher.JoinCluster | cmd/etcd-launcher/main.go:228-250 | nobody was at its host, although it looked some steps ago, and now exactly one member is; the others are as before |
| EtcdLauncher.Launcher.FindOutdatedURL | cmd/etcd-launcher/main.go:252-268 | goes on if no member of its name has an https URL, and otherwise plans for one of them the same host with http |
| EtcdLauncher.Launcher.UpdatePeerURL | cmd/etcd-launcher/main.go:268-273 | the member has the new URL, everybody keeps id and host and nobody else changes; without such a member the pod restarts |
| EtcdLauncher.Launcher.UpdateToHTTP | cmd/etcd-launcher/main.go:252-274 | looks for an outdated URL and updates it, with the others moving in between |
| EtcdLauncher.Launcher.DeleteUnwantedDeadMembers | cmd/etcd-launcher/main.go:204-226 | with the others moving between its requests: done means settled with at most the wanted number of members; otherwise it asks who leads, and if it does and can list the members it chooses, and the member chosen is gone afterwards |
| EtcdLauncher.Launcher.CheckMembers | cmd/etcd-launcher/main.go:205-214 | done exactly when nobody is unwanted, and then there are at most the wanted number of members |
| EtcdLauncher.Launcher.AskLeader | cmd/etcd-launcher/main.go:216-220 | goes on exactly when one of ten answers names it as leader |
| EtcdLauncher.Launcher.ChooseDeadMember | cmd/etcd-launcher/main.go:510-531 | on a fresh list, the first member that is not passed over decides; a member chosen is not at its own host |
| EtcdLauncher.Launcher.RemoveDeadMember | cmd/etcd-launcher/main.go:510-537 | if the members can be listed, the first that is neither its own nor answers one of 30 probes is no member afterwards; without client URL the code panics; with nobody silent nothing happens |
| EtcdLauncher.Launcher.RemoveChosenMember | cmd/etcd-launcher/main.go:531-534 | that member is no member afterwards, whether it was taken out now or was gone already; what is at its own host stays |
| EtcdLauncher.Launcher.Reconcile | cmd/etcd-launcher/main.go:150-155 | makes the rounds it is given unless it settles or restarts |
| WorkerPool.PassMeans | cmd/conformance-tests/runner.go:162-180 | for a consistent report, passing means no error, test cases, and none of them failing |
| WorkerPool.StepMoves | cmd/conformance-tests/runner.go:182-258 | no step of a worker or of the collector loses or doubles a scenario |
| WorkerPool.SendNeverBlocks | cmd/conformance-tests/runner.go:182-206 | a worker with a result always finds room in the channel |
| WorkerPool.NoDeadlock | cmd/conformance-tests/runner.go:208-258 | while results are missing and there is a worker, something can happen |
| WorkerPool.InvAlways | cmd/conformance-tests/runner.go:182-258 | in every interleaving each scenario is somewhere exactly as often as it was given, and every interleaving is finite |
| WorkerPool.StuckMeansFinished | cmd/conformance-tests/runner.go:208-258 | an interleaving that cannot go on has collected one result per scenario if and only if there is a worker or nothing to do |
| WorkerPool.Run | cmd/conformance-tests/runner.go:208-258 | waits forever exactly when there are scenarios and no worker; otherwise ends under every scheduler, with one result per scenario, and reports an error exactly when some result did not pass |
| WorkerPool.HadFailure | cmd/conformance-tests/runner.go:232-257 | true exactly when some result did not pass |
| Reports.JUnitTestSuite.AppendReport | cmd/conformance-tests/reports.go:73-78 | joins counters and cases; both surpluses add up |
| Reports.JUnitTestSuite.JunitReporterWrapper | cmd/conformance-tests/runner.go:1457-1485 | lists the step last, failed exactly when its body erred, and adds nothing to the surpluses beyond what the body brings |
| Reports.JUnitTestSuite.Execute | cmd/conformance-tests/runner.go:663-680 | any nesting of wrapped steps and appended reports shifts the surpluses by the sum over the appended reports |
| Reports.ConsistentBringNothing | cmd/conformance-tests/runner.go:1457-1485 | consistent reports sum to zero at any nesting |
| Reports.ScenarioReport | cmd/conformance-tests/runner.go:663-680 | a scenario's counters equal what they count if and only if the appended reports' surpluses sum to zero |
| Reports.CollectReports | cmd/conformance-tests/reports.go:30-71 | succeeds exactly when every report file can be read and removed, and joins exactly those, in order |
| Reports.JoinedAllIsConsistent | cmd/conformance-tests/reports.go:30-78 | joining consistent reports gives a consistent one |
| Shuffle.ShuffleInPlace | cmd/conformance-tests/main.go:566-576 | the result is a permutation of the original input although the input array is overwritten on the way |
| Shuffle.TakeOut | cmd/conformance-tests/main.go:566-576 | the shift in the array leaves the slice without the element and the rest of the array alone |
| Shuffle.ShuffleIsPermutation | cmd/conformance-tests/main.go:566-576 | for all random indices |
| Shuffle.EveryPermutationIsReached | cmd/conformance-tests/main.go:566-576 | every permutation comes out for some random indices |
| Datacenters.DatacenterFromSeedMap | pkg/provider/conversions.go:34-90 | the outcome depends on the set of seeds that show the datacenter and on nothing else: match, not found, ambiguous with its count, invalid address |
| Datacenters.OutcomeIsUnique | pkg/provider/conversions.go:34-90 | so every iteration order gives the same outcome |
| Datacenters.FoundIsAllowed | pkg/provider/conversions.go:53-79 | who is no admin finds a restricted datacenter only with an address of two parts whose domain is the required one or a non-empty entry of the list |
| Datacenters.AdminSeesAll | pkg/provider/conversions.go:92-103 | for an admin the number of seeds that have the name decides |
| Datacenters.AnyDomainMatches | pkg/provider/conversions.go:72-78 | a seed counts once however many of its domains match |
| Features.FeatureGate.Set | pkg/features/features.go:75-96 | items are applied in order up to the first malformed one, whose error is returned |
| Features.NewFeatures | pkg/features/features.go:60-63 | the same on a fresh gate |
| Features.SetInTwoSteps | pkg/features/features.go:75-96 | for all a and b, setting `a,b` is setting a and then b, or stopping with the same gates and the same error as a |
| Features.LastAssignmentDecides | pkg/features/features.go:75-105 | on success the last assignment of a key decides its value and whether it is enabled, and other keys keep their value |
| Features.TwoFeatures | pkg/features/features_test.go:30-36 | of two features set by a flag each is enabled exactly if its text says so |
| Features.BoolSpellings | pkg/features/features.go:89-92 | exactly these spellings are read as true and as false |
| Features.TrimSpaceTrims | pkg/features/features.go:86-87 | white space goes from both ends, all of it and nothing else |
| Features.StringifyFeatureGates | pkg/controller/operator/common/util.go:78-87 | the sorted names, each set to true, joined by commas |
| Features.KeysAreNames | pkg/features/features.go:75-96 | whatever the input, no key holds a comma, an equals sign or outer white space |
| Features.FlagRoundTrip | pkg/controller/operator/common/util.go:78-87 | a component sees exactly the configured features enabled if and only if every configured feature is free of commas, equals signs and outer white space; then parsing succeeds |

## Left out

- Sleeping, logging, metrics and contexts; time is a clock that does not go back.
- The labels, specs and statuses of objects beyond the fields the deletion code reads.
- The delay until API servers honour a webhook, and the namespace scoping of objects beyond their names.
- Reuse of a service name for a new service with another UID between listing and deletion.
- A failed reconcile is not required to leave the copy of the Cluster object in any state, since it is thrown away.
- Whether the reconcile loop calls `CleanupCluster` again; progress assumes that successful rounds keep coming.
- The cloud providers: load balancers exist in the model only through services, ledger and events.
- etcd's consensus, its refusal of unsafe membership changes, leader election and snapshot restore.
- Parsing of peer URLs: a URL is a scheme and a host.
- Peer URLs beyond the first one enter the etcd model only through their number.
- What executing a scenario does, and the printing of reports; a result is arbitrary.
- The wording of error messages; the errors of the feature gates are values with their item.
- Errors of the XML decoder and of file removal beyond the fact that they end the collection.
- The random source of the shuffle: any fitting indices are allowed.
- `strings.EqualFold` is a parameter of the datacenter lookup.
- FeatureGate.String, whose order is arbitrary and whose output is for display only.
- HTTP handlers, other controllers, resource generation, kubeconfig, certificate and version handling.

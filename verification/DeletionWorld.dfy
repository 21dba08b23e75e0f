/** What cluster deletion acts on: the stored Cluster object in the seed, the objects of the
    user cluster, and how everybody but the deletion code may change them.
 */
module DeletionWorld {
  import opened Options
  import opened StringSets
  import opened Webhooks
  import opened Clusters

  datatype Kind =
    | Service | Claim | Volume | Pod | Node | MachineDeployment | MachineSet | Machine
    | BackupConfig | Secret | Constraint

  datatype Key = Key(kind: Kind, name: string)

  /** The fields of an API object that the deletion code looks at. `loadBalancer` is the type
      of a Service, `claims` tells for each volume of a Pod whether it is backed by a claim,
      `skipEviction` is the annotation of a Node, `deleting` an issued DELETE.
   */
  datatype Object = Object(uid: string, loadBalancer: bool, claims: seq<bool>, skipEviction: bool, deleting: bool)

  /** `emitted` holds the UIDs of all services for which a DeletedLoadBalancer event was ever
      published. Finalizers `[]` means that the Cluster object is gone.
   */
  datatype World = World(
    finalizers: seq<string>, annotation: string, webhook: Option<Content>,
    objects: map<Key, Object>, emitted: set<string>, now: int)

  /** `AsWritten` is the return value of lb.go:162, `Intended` what its comment and caller expect. */
  datatype ReturnRule = AsWritten | Intended

  /** `calm` restricts the environment to one that lets deletion finish, see Calm. */
  datatype Config = Config(
    rule: ReturnRule, inTreeProvider: bool, backupController: bool, secretName: string,
    deletionTimestamp: int, calm: bool)
  {
    /** Two hours after the deletion, in seconds. */
    function Deadline(): (t: int)
      ensures t - deletionTimestamp == 7200
    {
      deletionTimestamp + 2 * 60 * 60
    }
  }

  const CONSTRAINTS := "kubermatic.io/cleanup-kubermatic-constraints"
  const LB := "kubermatic.io/cleanup-in-cluster-lb"
  const PV := "kubermatic.io/cleanup-in-cluster-pv"
  const BACKUPS := "kubermatic.io/cleanup-etcdbackupconfigs"
  const NODES := "kubermatic.io/delete-nodes"
  const CREDENTIALS := "kubermatic.io/cleanup-credentials-secrets"

  const OWN := {CONSTRAINTS, LB, PV, BACKUPS, NODES, CREDENTIALS}

  /** The names are those of the API, and no two are the same. */
  lemma FinalizerNames()
    ensures CONSTRAINTS == "kubermatic.io/cleanup-kubermatic-constraints" && BACKUPS == "kubermatic.io/cleanup-etcdbackupconfigs"
    ensures LB == "kubermatic.io/cleanup-in-cluster-lb" && PV == "kubermatic.io/cleanup-in-cluster-pv"
    ensures NODES == "kubermatic.io/delete-nodes" && CREDENTIALS == "kubermatic.io/cleanup-credentials-secrets"
    ensures |OWN| == 6
  {
    assert |LB| == |PV| && LB[|LB| - 1] != PV[|PV| - 1];
    assert |CONSTRAINTS| == 44 && |CREDENTIALS| == 41 && |BACKUPS| == 39 && |LB| == 35 && |NODES| == 26;
  }

  function Fin(w: World): set<string> {
    Elements(w.finalizers)
  }

  /** All objects of one kind. */
  function Of(w: World, kind: Kind): map<Key, Object> {
    map k | k in w.objects && k.kind == kind :: w.objects[k]
  }

  function Keys(w: World, kind: Kind): set<Key> {
    set k | k in w.objects && k.kind == kind
  }

  function LoadBalancers(w: World): set<Key> {
    set k | k in w.objects && k.kind.Service? && w.objects[k].loadBalancer
  }

  function Storage(w: World): set<Key> {
    set k | k in w.objects && (k.kind.Claim? || k.kind.Volume?)
  }

  predicate Blocks(w: World) {
    w.webhook.Some? && BlocksVolumes(w.webhook.value)
  }

  /** Kubernetes UIDs are 36 characters long and hold no comma. */
  predicate IsUid(uid: string) {
    |uid| == 36 && ',' !in uid
  }

  predicate WorldOk(w: World) {
    && (forall k :: k in w.objects && k.kind.Service? ==> IsUid(w.objects[k].uid))
    && (forall uid :: uid in Parse(w.annotation) ==> IsUid(uid))
    && (w.webhook.Some? ==> Harmless(w.webhook.value))
  }

  /** From `a` to `b` no key was added, and what was being deleted still is. */
  predicate Shrinks(w: World, w': World, a: set<Key>, b: set<Key>) {
    && b <= a
    && forall k :: k in b && k in w.objects && k in w'.objects && w.objects[k].deleting ==> w'.objects[k].deleting
  }

  /** An environment under which deletion can finish: nobody creates load balancers, backup
      configs or MachineDeployments, MachineSets come only from MachineDeployments, and Machines
      only from those two. Machines may be recreated freely as long as a MachineSet is left.
   */
  predicate Calm(w: World, w': World) {
    && Shrinks(w, w', LoadBalancers(w), LoadBalancers(w'))
    && (Blocks(w) ==> Shrinks(w, w', Storage(w), Storage(w')))
    && Shrinks(w, w', Keys(w, BackupConfig), Keys(w', BackupConfig))
    && Shrinks(w, w', Keys(w, MachineDeployment), Keys(w', MachineDeployment))
    && (Keys(w, MachineDeployment) == {} ==>
          && Shrinks(w, w', Keys(w, MachineSet), Keys(w', MachineSet))
          && (Keys(w, MachineSet) == {} ==> Shrinks(w, w', Keys(w, Machine), Keys(w', Machine))))
  }

  /** What no step of anybody does: finalizers are never added to an object being deleted,
      the blocking webhook stays and blocks, time and published events do not go back.
   */
  predicate Evolves(cfg: Config, w: World, w': World) {
    && WorldOk(w')
    && Fin(w') <= Fin(w)
    && (Blocks(w) ==> Blocks(w') && Storage(w') <= Storage(w))
    && w.emitted <= w'.emitted
    && w.now <= w'.now
    && (cfg.calm ==> Calm(w, w'))
  }

  /** Any sequence of changes made by users, by the cluster's own controllers and by other
      controllers. Only the deletion code writes its annotation and its webhook.
   */
  predicate Env(cfg: Config, w: World, w': World) {
    && Evolves(cfg, w, w')
    && w'.annotation == w.annotation
    && w'.webhook == w.webhook
  }

  lemma EvolvesReflexive(cfg: Config, w: World)
    requires WorldOk(w)
    ensures Evolves(cfg, w, w) && Env(cfg, w, w)
  {
  }

  lemma CalmTransitive(w: World, w': World, w'': World)
    requires Calm(w, w') && Calm(w', w'')
    requires Blocks(w) ==> Blocks(w')
    ensures Calm(w, w'')
  {
    assert LoadBalancers(w') <= w'.objects.Keys;
    assert Storage(w') <= w'.objects.Keys;
    assert Keys(w', BackupConfig) <= w'.objects.Keys;
    assert Keys(w', MachineDeployment) <= w'.objects.Keys;
    assert Keys(w', MachineSet) <= w'.objects.Keys;
    assert Keys(w', Machine) <= w'.objects.Keys;
  }

  /** One environment step stands for any number of them. */
  lemma EnvTransitive(cfg: Config, w: World, w': World, w'': World)
    requires Evolves(cfg, w, w') && Evolves(cfg, w', w'')
    ensures Evolves(cfg, w, w'')
    ensures Env(cfg, w, w') && Env(cfg, w', w'') ==> Env(cfg, w, w'')
  {
    if cfg.calm {
      CalmTransitive(w, w', w'');
    }
  }
}

/** Runs of cluster deletion: sequences of environment steps and of API calls that took
    effect, over any number of reconciles. `RunOk` says which API calls the deletion code may
    issue when; module ClusterDeletion proves that it issues no others, and the lemmas here
    draw the consequences for whole runs.
 */
module DeletionRuns {
  import opened Locks
  import opened Options
  import opened StringSets
  import opened Webhooks
  import opened DeletionWorld

  datatype Action =
    | Environment
    | Begin                                        // a reconcile starts
    | Listed(kind: Kind, items: map<Key, Object>)  // a listing the code got back
    | Delete(key: Key)
    | DeleteConstraints
    | InstallWebhook
    | SkipEviction(key: Key)
    | SecretMissing                                // the credentials secret was not found
    | ListedEvents(uid: string, reasons: seq<string>)
    | CheckedEvents(remaining: set<string>)        // UIDs in the ledger without an event
    | ReadCluster(annotation: string)              // the Cluster object as the cache serves it
    | Tracked(uid: string)                         // cleanupLB returned without error
    | Patch                                        // of the Cluster object

  datatype Step = Step(pre: World, action: Action, post: World)

  /** What the current reconcile has learned so far. */
  datatype Seen = Seen(
    listings: map<Kind, map<Key, Object>>, constraintsCleared: bool, evictionOff: set<Key>,
    secretSettled: bool, examined: set<string>, confirmed: set<string>, remaining: Option<set<string>>,
    cached: Option<string>)

  const NOTHING_SEEN := Seen(map[], false, {}, false, {}, {}, None, None)
  const DELETED_LOAD_BALANCER := "DeletedLoadBalancer"

  function SawListing(seen: Seen, kind: Kind, items: map<Key, Object>): Seen {
    seen.(listings := seen.listings[kind := items],
          evictionOff := if kind.Node? then set k | k in items && items[k].skipEviction else seen.evictionOff)
  }

  function SawEvents(seen: Seen, uid: string, found: bool): Seen {
    seen.(examined := seen.examined + {uid},
          confirmed := if found then seen.confirmed + {uid} else seen.confirmed - {uid})
  }

  function Observe(seen: Seen, a: Action): Seen {
    match a
    case Begin => NOTHING_SEEN
    case Listed(kind, items) => SawListing(seen, kind, items)
    case Delete(key) => if key.kind.Secret? then seen.(secretSettled := true) else seen
    case DeleteConstraints => seen.(constraintsCleared := true)
    case SkipEviction(key) => seen.(evictionOff := seen.evictionOff + {key})
    case SecretMissing => seen.(secretSettled := true)
    case ListedEvents(uid, reasons) => SawEvents(seen, uid, DELETED_LOAD_BALANCER in reasons)
    case CheckedEvents(remaining) => seen.(remaining := Some(remaining))
    case ReadCluster(annotation) => seen.(cached := Some(annotation))
    case _ => seen
  }

  predicate ListedIn(seen: Seen, key: Key) {
    key.kind in seen.listings && key in seen.listings[key.kind]
  }

  predicate ListedEmpty(seen: Seen, kind: Kind) {
    kind in seen.listings && seen.listings[kind] == map[]
  }

  predicate InClusterDone(w: World) {
    LB !in Fin(w) && PV !in Fin(w)
  }

  /** Every listed node was told not to wait for evictions. */
  predicate NodesPrepared(seen: Seen) {
    Node in seen.listings && seen.listings[Node].Keys <= seen.evictionOff
  }

  /** Backup configs were looked at, as long as their finalizer is stored. */
  predicate BackupsListed(cfg: Config, seen: Seen, w: World) {
    BACKUPS in Fin(w) && cfg.backupController ==> BackupConfig in seen.listings
  }

  /** When a DELETE for the object may be issued: constraints always go first, pods before claims
      and volumes, backup configs before machines.
   */
  predicate MayDelete(cfg: Config, seen: Seen, w: World, key: Key) {
    && seen.constraintsCleared
    && match key.kind
       case Service => ListedIn(seen, key) && seen.listings[Service][key].loadBalancer
       case Pod => Blocks(w) && ListedIn(seen, key) && true in seen.listings[Pod][key].claims
       case Claim => Blocks(w) && Pod in seen.listings && ListedIn(seen, key)
       case Volume => Blocks(w) && Pod in seen.listings && ListedIn(seen, key)
       case BackupConfig => InClusterDone(w) && cfg.backupController && ListedIn(seen, key)
       case MachineDeployment =>
         InClusterDone(w) && BackupsListed(cfg, seen, w) && NodesPrepared(seen) && ListedIn(seen, key)
       case MachineSet =>
         && InClusterDone(w) && BackupsListed(cfg, seen, w) && NodesPrepared(seen)
         && ListedEmpty(seen, MachineDeployment) && ListedIn(seen, key)
       case Machine =>
         && InClusterDone(w) && BackupsListed(cfg, seen, w) && NodesPrepared(seen)
         && ListedEmpty(seen, MachineDeployment) && ListedEmpty(seen, MachineSet) && ListedIn(seen, key)
       case Secret => Fin(w) <= {CREDENTIALS} && key.name == cfg.secretName != ""
       case Node => false
       case Constraint => false
  }

  /** The answer "all load balancers are gone", given what is left in the ledger. */
  predicate Answer(rule: ReturnRule, remaining: set<string>) {
    match rule
    case AsWritten => |remaining| > 0
    case Intended => remaining == {}
  }

  /** The return value of `checkIfAllLoadbalancersAreGone` at time `now` for a ledger of which
      the UIDs in `confirmed` have their event.
   */
  predicate Verdict(cfg: Config, annotation: string, now: int, confirmed: set<string>) {
    || !cfg.inTreeProvider
    || annotation == ""
    || cfg.Deadline() < now
    || Answer(cfg.rule, Parse(annotation) - confirmed)
  }

  /** When `checkIfAllLoadbalancersAreGone` has said yes. */
  predicate LoadBalancersGone(cfg: Config, seen: Seen, w: World) {
    || !cfg.inTreeProvider
    || w.annotation == ""
    || cfg.Deadline() < w.now
    || (seen.remaining.Some? && Parse(w.annotation) == seen.remaining.value && Answer(cfg.rule, seen.remaining.value))
  }

  /** When a finalizer may go. */
  predicate MayRemove(cfg: Config, seen: Seen, w: World, f: string) {
    if f == CONSTRAINTS then
      seen.constraintsCleared
    else if f == LB then
      && Service in seen.listings
      && (forall k :: k in seen.listings[Service] ==> !seen.listings[Service][k].loadBalancer)
      && LoadBalancersGone(cfg, seen, w)
    else if f == PV then
      Blocks(w) && Storage(w) == {} && LoadBalancersGone(cfg, seen, w)
    else if f == BACKUPS then
      InClusterDone(w) && (cfg.backupController ==> ListedEmpty(seen, BackupConfig))
    else if f == NODES then
      && InClusterDone(w) && NodesPrepared(seen)
      && ListedEmpty(seen, MachineDeployment) && ListedEmpty(seen, MachineSet) && ListedEmpty(seen, Machine)
    else if f == CREDENTIALS then
      Fin(w) <= {CREDENTIALS} && (cfg.secretName != "" ==> seen.secretSettled)
    else
      false
  }

  /** How the ledger may change: an entry goes only after this reconcile has seen its event, and
      only UIDs of listed load balancers come in.
   */
  predicate MayRewrite(seen: Seen, w: World, annotation: string) {
    && Parse(w.annotation) - Parse(annotation) <= seen.confirmed
    && Parse(w.annotation) - Parse(annotation) <= w.emitted
    && forall uid :: uid in Parse(annotation) - Parse(w.annotation) ==>
         && Service in seen.listings
         && exists k :: k in seen.listings[Service] && seen.listings[Service][k].loadBalancer && seen.listings[Service][k].uid == uid
  }

  predicate Guard(cfg: Config, seen: Seen, w: World, a: Action, w': World) {
    match a
    case Environment => true
    case Begin => true
    case Listed(_, _) => true
    case DeleteConstraints => true
    case InstallWebhook => seen.constraintsCleared
    case Delete(key) => MayDelete(cfg, seen, w, key)
    case SkipEviction(key) => InClusterDone(w) && key.kind.Node? && ListedIn(seen, key)
    case SecretMissing => Fin(w) <= {CREDENTIALS}
    case ListedEvents(_, _) => true
    case CheckedEvents(remaining) =>
      && Parse(w.annotation) <= seen.examined
      && remaining == Parse(w.annotation) - seen.confirmed
      && Parse(w.annotation) - remaining <= w.emitted
    case ReadCluster(_) => true
    case Tracked(uid) => uid in Parse(w.annotation) && seen.cached.Some? && uid in Parse(seen.cached.value)
    case Patch =>
      && (forall f :: f in Fin(w) - Fin(w') ==> MayRemove(cfg, seen, w, f))
      && MayRewrite(seen, w, w'.annotation)
  }

  /** What a call does to the world, which the API servers decide. A DELETE removes the object
      or marks it; listings of backup configs come from a cache and may be outdated.
   */
  predicate Effect(cfg: Config, w: World, a: Action, w': World) {
    match a
    case Environment => Env(cfg, w, w')
    case Begin => w' == w
    case Listed(kind, items) =>
      w' == w && if kind.BackupConfig? then forall k :: k in items ==> k.kind == kind else items == Of(w, kind)
    case Delete(key) => key in w.objects && (w' == Removed(w, key) || w' == Marked(w, key))
    case DeleteConstraints =>
      && w' == w.(objects := w'.objects)
      && ConstraintsCleared(w.objects, w'.objects)
    case InstallWebhook =>
      w' == w.(webhook := Some(Created(Existing(w), "", VOLUME_RESOURCES)))
    case SkipEviction(key) =>
      key in w.objects && w' == w.(objects := w.objects[key := w.objects[key].(skipEviction := true)])
    case SecretMissing => w' == w
    case ListedEvents(uid, reasons) => w' == w && (DELETED_LOAD_BALANCER in reasons ==> uid in w.emitted)
    case CheckedEvents(_) => w' == w
    case ReadCluster(_) => w' == w
    case Tracked(_) => w' == w
    case Patch =>
      && w.finalizers != [] && Fin(w') <= Fin(w)
      && w' == w.(finalizers := w'.finalizers, annotation := w'.annotation)
      && forall uid :: uid in Parse(w'.annotation) ==> IsUid(uid)
  }

  function Removed(w: World, key: Key): World {
    w.(objects := w.objects - {key})
  }

  function Marked(w: World, key: Key): World
    requires key in w.objects
  {
    w.(objects := w.objects[key := w.objects[key].(deleting := true)])
  }

  predicate ConstraintsCleared(before: map<Key, Object>, after: map<Key, Object>) {
    && after.Keys <= before.Keys
    && (forall k :: k in before && !k.kind.Constraint? ==> k in after && after[k] == before[k])
    && (forall k :: k in after && k.kind.Constraint? ==> after[k] == before[k].(deleting := true))
  }

  function Existing(w: World): Content {
    if w.webhook.Some? then w.webhook.value else Content(map[], [])
  }

  predicate StepOk(cfg: Config, seen: Seen, s: Step) {
    Effect(cfg, s.pre, s.action, s.post) && Guard(cfg, seen, s.pre, s.action, s.post)
  }

  function SeenIn(run: seq<Step>): Seen {
    if run == [] then NOTHING_SEEN else Observe(SeenIn(run[..|run| - 1]), run[|run| - 1].action)
  }

  /** The world after the first i steps. */
  function State(init: World, run: seq<Step>, i: nat): World
    requires i <= |run|
  {
    if i == 0 then init else run[i - 1].post
  }

  ghost predicate RunOk(cfg: Config, init: World, run: seq<Step>) {
    if run == [] then
      WorldOk(init)
    else
      var n := |run| - 1;
      && RunOk(cfg, init, run[..n])
      && run[n].pre == State(init, run[..n], n)
      && StepOk(cfg, SeenIn(run[..n]), run[n])
  }

  /** A run that has come to a certain world and to certain knowledge. */
  ghost predicate RunTo(cfg: Config, init: World, run: seq<Step>, w: World, seen: Seen) {
    forall key :: Unlocks(key) ==>
      RunOk(cfg, init, run) && State(init, run, |run|) == w && SeenIn(run) == seen
  }

  lemma RunExtended(cfg: Config, init: World, run: seq<Step>, s: Step)
    requires RunOk(cfg, init, run)
    requires s.pre == State(init, run, |run|) && StepOk(cfg, SeenIn(run), s)
    ensures RunOk(cfg, init, run + [s])
    ensures SeenIn(run + [s]) == Observe(SeenIn(run), s.action)
    ensures State(init, run + [s], |run| + 1) == s.post
  {
    assert (run + [s])[..|run|] == run;
  }

  lemma {:induction false} StepOfRun(cfg: Config, init: World, run: seq<Step>, i: nat)
    requires RunOk(cfg, init, run) && i < |run|
    ensures RunOk(cfg, init, run[..i])
    ensures run[i].pre == State(init, run, i) && StepOk(cfg, SeenIn(run[..i]), run[i])
  {
    var n := |run| - 1;
    if i < n {
      StepOfRun(cfg, init, run[..n], i);
      assert run[..n][..i] == run[..i];
    }
  }

  /** From step `from` on the Cluster object was not patched. */
  ghost predicate NoPatch(run: seq<Step>, from: nat) {
    forall m :: from <= m < |run| ==> !run[m].action.Patch?
  }

  /** From step `from` on a patch took effect that left this UID in the ledger. */
  ghost predicate Recorded(run: seq<Step>, from: nat, uid: string) {
    exists m :: from <= m < |run| && RecordedAt(run[m], uid)
  }

  predicate RecordedAt(s: Step, uid: string) {
    s.action.Patch? && uid in Parse(s.post.annotation)
  }

  /** Step d deletes the object, before the first patch from step `from` on. */
  ghost predicate DeletedFirst(run: seq<Step>, from: nat, d: nat, key: Key) {
    from <= d < |run| && run[d].action == Delete(key) && NoPatch(run[..d], from)
  }

  lemma DeletedStays(run: seq<Step>, run': seq<Step>, from: nat, d: nat, key: Key)
    requires run <= run' && DeletedFirst(run, from, d, key)
    ensures DeletedFirst(run', from, d, key)
  {
    assert run'[..d] == run[..d];
  }

  lemma RecordedStays(run: seq<Step>, run': seq<Step>, from: nat, uid: string)
    requires run <= run' && Recorded(run, from, uid)
    ensures Recorded(run', from, uid)
  {
    var m :| from <= m < |run| && RecordedAt(run[m], uid);
    assert RecordedAt(run'[m], uid);
  }

  lemma RecordedLater(run: seq<Step>, run': seq<Step>, from: nat, uid: string)
    requires run <= run' && from <= |run| && NoPatch(run, from)
    ensures Recorded(run', from, uid) <==> Recorded(run', |run|, uid)
  {
    assert forall m :: from <= m < |run| ==> run'[m] == run[m];
  }

  /** Objects only went away or got marked. */
  predicate OnlyFewer(w: World, w': World) {
    && w' == w.(objects := w'.objects)
    && forall k :: k in w'.objects ==>
         && k in w.objects
         && w'.objects[k].uid == w.objects[k].uid
         && w'.objects[k].loadBalancer == w.objects[k].loadBalancer
         && (w.objects[k].deleting ==> w'.objects[k].deleting)
  }

  lemma OnlyFewerEvolves(cfg: Config, w: World, w': World)
    requires WorldOk(w) && OnlyFewer(w, w')
    ensures Evolves(cfg, w, w')
  {
    assert Blocks(w') == Blocks(w);
    assert Calm(w, w');
  }

  /** No step of the deletion code does what the environment must not do either. */
  lemma StepEvolves(cfg: Config, seen: Seen, s: Step)
    requires WorldOk(s.pre) && StepOk(cfg, seen, s)
    ensures Evolves(cfg, s.pre, s.post)
  {
    var w, w' := s.pre, s.post;
    if w' == w {
      EvolvesReflexive(cfg, w);
    } else if s.action.InstallWebhook? {
      WebhookEvolves(cfg, w);
    } else if s.action.Patch? {
      PatchEvolves(cfg, w, w');
    } else if !s.action.Environment? {
      DeletionMakesFewer(cfg, w, s.action, w');
      OnlyFewerEvolves(cfg, w, w');
    }
  }

  lemma DeletionMakesFewer(cfg: Config, w: World, a: Action, w': World)
    requires Effect(cfg, w, a, w') && (a.Delete? || a.DeleteConstraints? || a.SkipEviction?)
    ensures OnlyFewer(w, w')
  {
  }

  lemma WebhookEvolves(cfg: Config, w: World)
    requires WorldOk(w)
    ensures Evolves(cfg, w, w.(webhook := Some(Created(Existing(w), "", VOLUME_RESOURCES))))
  {
    BlocksVolumesExactly(Existing(w));
  }

  lemma PatchEvolves(cfg: Config, w: World, w': World)
    requires WorldOk(w) && Fin(w') <= Fin(w)
    requires w' == w.(finalizers := w'.finalizers, annotation := w'.annotation)
    requires forall uid :: uid in Parse(w'.annotation) ==> IsUid(uid)
    ensures Evolves(cfg, w, w')
  {
    assert Blocks(w') == Blocks(w) && w'.objects == w.objects;
  }

  /** Over any stretch of a run. */
  lemma {:induction false} RunEvolves(cfg: Config, init: World, run: seq<Step>, i: nat, j: nat)
    requires RunOk(cfg, init, run) && i <= j <= |run|
    ensures WorldOk(State(init, run, i)) && Evolves(cfg, State(init, run, i), State(init, run, j))
    decreases j
  {
    if j == 0 {
      if run != [] {
        StepOfRun(cfg, init, run, 0);
        assert run[..0] == [];
      }
      EvolvesReflexive(cfg, init);
    } else {
      RunEvolves(cfg, init, run, if i < j then i else j - 1, j - 1);
      StepOfRun(cfg, init, run, j - 1);
      StepEvolves(cfg, SeenIn(run[..j - 1]), run[j - 1]);
      if i < j {
        EnvTransitive(cfg, State(init, run, i), State(init, run, j - 1), State(init, run, j));
      } else {
        EvolvesReflexive(cfg, State(init, run, j));
      }
    }
  }
}

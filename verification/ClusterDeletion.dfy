/** Cluster deletion (`pkg/clusterdeletion`): one reconcile is `CleanupCluster`, which may stop
    with an error after any API call and is then run again on another, possibly outdated,
    copy of the Cluster object.
 */
module ClusterDeletion {
  import opened Options
  import opened Strings
  import opened StringSets
  import opened Clusters
  import opened DeletionWorld
  import opened DeletionRuns
  import opened DeletionProgress
  import opened ClusterApi

  /** All the listed objects have been dealt with. */
  ghost predicate AllHandled(api: Api, from: nat, keys: set<Key>)
    reads api
  {
    forall k :: k in keys ==> Handled(api.init, api.run, from, k)
  }

  lemma AllHandledStays(init: World, run: seq<Step>, run': seq<Step>, from: nat, keys: set<Key>)
    requires run <= run' && forall k :: k in keys ==> Handled(init, run, from, k)
    ensures forall k :: k in keys ==> Handled(init, run', from, k)
  {
    forall k | k in keys ensures Handled(init, run', from, k) {
      HandledStays(init, run, run', from, k);
    }
  }

  /** Of the listed services, those in `done` are load balancers that were dealt with and recorded;
      load balancers that are not in `done` are still to do.
   */
  ghost predicate AllTracked(init: World, run: seq<Step>, from: nat, items: map<Key, Object>, todo: set<Key>, done: set<Key>, ledger: set<string>) {
    && todo <= items.Keys
    && (forall k :: k in items && items[k].loadBalancer ==> k in todo || k in done)
    && forall k :: k in done ==> k in items && items[k].loadBalancer && items[k].uid in ledger && Handled(init, run, from, k)
  }

  lemma TrackedOneMore(init: World, run: seq<Step>, run': seq<Step>, from: nat, items: map<Key, Object>,
                       todo: set<Key>, done: set<Key>, key: Key, ledger: set<string>)
    requires AllTracked(init, run, from, items, todo, done, ledger) && run <= run'
    requires key in items && items[key].loadBalancer && Handled(init, run', from, key)
    ensures AllTracked(init, run', from, items, todo - {key}, done + {key}, ledger + {items[key].uid})
  {
    forall k | k in done ensures Handled(init, run', from, k) {
      HandledStays(init, run, run', from, k);
    }
  }

  /** Every listed load balancer was dealt with and recorded. */
  ghost predicate LoadBalancersTracked(init: World, run: seq<Step>, from: nat, items: map<Key, Object>, ledger: set<string>) {
    forall k :: k in items && items[k].loadBalancer ==> Handled(init, run, from, k) && items[k].uid in ledger
  }

  lemma TrackedAreSwept(init: World, run: seq<Step>, from: nat, earlier: nat, items: map<Key, Object>, ledger: set<string>)
    requires earlier < from <= |run| && run[from - 1].action == Listed(Service, items)
    requires LoadBalancersTracked(init, run, from, items, ledger)
    ensures LoadBalancersTracked(init, run, earlier, items, ledger) && Swept(init, run, earlier, Service)
  {
    forall k | k in items && items[k].loadBalancer ensures Handled(init, run, earlier, k) {
      var i :| from <= i <= |run| && HandledAt(init, run, i, k);
    }
    assert SweptAt(init, run, earlier, from - 1, Service);
  }

  /** All the objects were there at some point. */
  ghost predicate AllThere(api: Api, from: nat, keys: set<Key>)
    reads api
  {
    forall k :: k in keys ==> WasThere(api.init, api.run, from, k)
  }

  lemma AllThereStays(init: World, run: seq<Step>, run': seq<Step>, from: nat, keys: set<Key>)
    requires run <= run' && forall k :: k in keys ==> WasThere(init, run, from, k)
    ensures forall k :: k in keys ==> WasThere(init, run', from, k)
  {
    forall k | k in keys ensures WasThere(init, run', from, k) {
      WasThereStays(init, run, run', from, k);
    }
  }

  /** How far the loop over the ledger is: `todo` is still to be looked at. */
  ghost predicate LookedAt(ledger: set<string>, todo: set<string>, seen: Seen, remaining: set<string>, emitted: set<string>) {
    && todo <= ledger
    && ledger - todo <= seen.examined
    && remaining == ledger - (seen.confirmed - todo)
    && ledger - remaining <= emitted
  }

  /** One more UID of the ledger has been looked at. */
  lemma LookedAtOne(ledger: set<string>, todo: set<string>, uid: string, seen: Seen, remaining: set<string>,
                    emitted: set<string>, found: bool, emitted': set<string>)
    requires LookedAt(ledger, todo, seen, remaining, emitted) && uid in todo
    requires emitted <= emitted' && (found ==> uid in emitted')
    ensures LookedAt(ledger, todo - {uid}, SawEvents(seen, uid, found), if found then remaining - {uid} else remaining, emitted')
  {
  }

  /** What `checkIfAllLoadbalancersAreGone` was asked: the ledger, the time, and the UIDs that had
      their event.
   */
  datatype Checked = Checked(annotation: string, asOf: int, confirmed: set<string>)

  /** The check does not return before it looks at events. */
  predicate AsksEvents(cfg: Config, annotation: string, asOf: int) {
    cfg.inTreeProvider && annotation != "" && asOf <= cfg.Deadline()
  }

  /** No load balancer service is left, and no storage that would be waited for. */
  predicate NothingInside(w: World) {
    LoadBalancers(w) == {} && (PV !in Fin(w) || (Blocks(w) && Storage(w) == {}))
  }

  lemma NothingInsideStays(cfg: Config, w: World, w': World)
    requires cfg.calm && Evolves(cfg, w, w') && NothingInside(w)
    ensures NothingInside(w')
  {
  }

  predicate SaysYes(cfg: Config, checked: Checked) {
    Verdict(cfg, checked.annotation, checked.asOf, checked.confirmed)
  }

  /** It was asked about the ledger stored at first, and at some time in between. */
  predicate CheckedBetween(checked: Checked, w: World, w': World, cfg: Config) {
    && checked.annotation == w.annotation && w.now <= checked.asOf <= w'.now
    && (AsksEvents(cfg, checked.annotation, checked.asOf) ==> Parse(checked.annotation) * checked.confirmed <= w'.emitted)
  }

  class Deletion {
    const api: Api

    constructor (api: Api)
      ensures this.api == api
    {
      this.api := api;
    }

    /** The copy lists every finalizer that is still stored. */
    ghost predicate Covers(cluster: Cluster)
      reads api, cluster
    {
      Fin(api.world) <= Elements(cluster.finalizers)
    }

    /** Besides, its ledger is the stored one. */
    ghost predicate Current(cluster: Cluster)
      reads api, cluster
    {
      Covers(cluster) && cluster.annotation == api.world.annotation
    }

    /** Constraints have been cleared in this reconcile. */
    ghost predicate Ready()
      reads api
    {
      api.Valid() && api.seen.constraintsCleared
    }

    /** Since the run had this length the objects of a kind were listed and dealt with. */
    ghost predicate Sweeps(from: nat, kind: Kind)
      reads api
    {
      Swept(api.init, api.run, from, kind)
    }

    /** Since the run had this length a listing of a kind had these keys. */
    ghost predicate ListedSince(from: nat, kind: Kind, keys: set<Key>)
      reads api
    {
      exists m :: from <= m < |api.run| && api.run[m].action.Listed? && api.run[m].action.kind == kind && api.run[m].action.items.Keys == keys
    }

    lemma AllConcernedAreSwept(from: nat, m: nat, kind: Kind, keys: set<Key>)
      requires from <= m < |api.run| && api.run[m].action.Listed? && api.run[m].action.kind == kind
      requires AllHandled(api, from, keys)
      requires var items := api.run[m].action.items; forall k :: k in items && Concerned(kind, items[k]) ==> k in keys
      ensures Sweeps(from, kind)
    {
      assert SweptAt(api.init, api.run, from, m, kind);
    }

    lemma AllListedAreSwept(from: nat, kind: Kind, keys: set<Key>)
      requires ListedSince(from, kind, keys) && AllHandled(api, from, keys)
      ensures Sweeps(from, kind)
    {
      var m :| from <= m < |api.run| && api.run[m].action.Listed? && api.run[m].action.kind == kind && api.run[m].action.items.Keys == keys;
      assert SweptAt(api.init, api.run, from, m, kind);
    }

    method CleanupConstraints(cluster: Cluster) returns (ok: bool)
      requires api.Valid() && Covers(cluster)
      modifies api, cluster
      ensures api.Valid() && old(api.run) <= api.run
      ensures Exactly(old(api.faults), api.faults, ok)
      ensures ok ==> Ready() && cluster.finalizers == api.world.finalizers && cluster.annotation == api.world.annotation
      ensures ok ==> CONSTRAINTS !in Elements(cluster.finalizers) && api.world.annotation == old(api.world.annotation)
      ensures ok && cluster.finalizers == [] ==> Own(old(api.world)) != {}
    {
      ok := api.DeleteAllConstraints();
      if !ok {
        return false;
      }
      var oldFinalizers := cluster.finalizers;
      cluster.RemoveFinalizer(CONSTRAINTS);
      ok := api.PatchCluster(cluster, oldFinalizers, cluster.annotation);
    }

    // ----- lb.go

    /** What the reconcile knows about one kind of objects is the same. */
    static predicate SameListing(kind: Kind, a: Seen, b: Seen) {
      && (kind in a.listings <==> kind in b.listings)
      && (kind in a.listings ==> b.listings[kind] == a.listings[kind])
    }

    /** Only what is known about pods is new. */
    static predicate OnlyPodsListed(a: Seen, b: Seen) {
      Pod in b.listings && b.listings == a.listings[Pod := b.listings[Pod]]
    }

    /** Polls the lister every 10ms for 5s until the annotation contains the UID. */
    method WaitForLister(uid: string) returns (ok: bool, timedOut: bool)
      requires Ready() && IsUid(uid)
      modifies api
      ensures Ready() && old(api.run) <= api.run && api.seen == old(api.seen).(cached := api.seen.cached)
      ensures Exactly(old(api.faults), api.faults, ok)
      ensures Moved(old(api.world), api.world)
      ensures ok ==> api.seen.cached.Some? && uid in Parse(api.seen.cached.value)
      ensures ok ==> exists i :: 0 <= i <= |api.run| && uid in Parse(State(api.init, api.run, i).annotation)
      ensures timedOut ==> !ok && |api.run| == |old(api.run)| + 2 * 500
    {
      for attempt := 0 to 500
        invariant Ready() && old(api.run) <= api.run && api.seen == old(api.seen).(cached := api.seen.cached)
        invariant Exactly(old(api.faults), api.faults, true) && |api.run| == |old(api.run)| + 2 * attempt
        invariant Moved(old(api.world), api.world)
      {
        var annotation;
        ok, annotation := api.GetCachedAnnotation();
        if !ok {
          return false, false;
        }
        if Contains(annotation, uid) {
          ghost var i :| 0 <= i <= |api.run| && annotation == State(api.init, api.run, i).annotation;
          api.IsRun();
          RunEvolves(api.cfg, api.init, api.run, i, |api.run|);
          ContainsIsMembership(annotation, uid);
          return true, false;
        }
      }
      api.faults := Erred(api.faults, false);
      return false, true;
    }

    static lemma MayAddToLedger(cfg: Config, seen: Seen, w: World, finalizers: seq<string>, uid: string, annotation: string)
      requires WorldOk(w) && Fin(w) <= Elements(finalizers) && IsUid(uid) && Parse(annotation) == Parse(w.annotation) + {uid}
      requires Service in seen.listings
      requires exists k :: k in seen.listings[Service] && seen.listings[Service][k].loadBalancer && seen.listings[Service][k].uid == uid
      ensures MayPatch(cfg, seen, w, finalizers, finalizers, annotation, w.annotation)
    {
    }

    /** The stored ledger gets this UID exactly when the patch takes effect. */
    method AddToLedger(uid: string, cluster: Cluster) returns (ok: bool)
      requires Ready() && Current(cluster) && IsUid(uid) && Service in api.seen.listings
      requires exists k :: k in api.seen.listings[Service] && api.seen.listings[Service][k].loadBalancer && api.seen.listings[Service][k].uid == uid
      modifies api, cluster
      ensures Ready() && old(api.run) <= api.run && api.seen == old(api.seen) && Kept(old(api.world), api.world)
      ensures Exactly(old(api.faults), api.faults, ok)
      ensures Elements(cluster.finalizers) <= old(Elements(cluster.finalizers))
      ensures ok ==> Recorded(api.run, |old(api.run)|, uid) && Current(cluster)
      ensures Parse(api.world.annotation) ==
                Parse(old(api.world.annotation)) + if Recorded(api.run, |old(api.run)|, uid) then {uid} else {}
    {
      api.Since(api.run);
      var oldAnnotation := cluster.annotation;
      var ledger := ParseStringSet(cluster.annotation);
      ledger := ledger + {uid};
      cluster.annotation := Encode(ledger);
      ParsedItems(oldAnnotation);
      ParseEncode(ledger);
      MayAddToLedger(api.cfg, api.seen, api.world, cluster.finalizers, uid, cluster.annotation);
      ok := api.PatchCluster(cluster, cluster.finalizers, oldAnnotation);
      assert api.run[|api.run| - 1].action.Patch? ==> RecordedAt(api.run[|api.run| - 1], uid);
    }

    /** On every way out, successful or not, the stored ledger has got this UID exactly when the
        patch took effect, which comes after the deletion, step d; otherwise it is as it was. Success
        means that the cache has served the UID since.
     */
    method CleanupLB(key: Key, service: Object, cluster: Cluster) returns (ok: bool, ghost d: nat)
      requires Ready() && Current(cluster)
      requires key.kind.Service? && ListedIn(api.seen, key) && api.seen.listings[Service][key] == service
      requires service.loadBalancer && IsUid(service.uid)
      modifies api, cluster
      ensures Ready() && old(api.run) <= api.run && api.seen == old(api.seen).(cached := api.seen.cached) && Kept(old(api.world), api.world)
      ensures Exactly(old(api.faults), api.faults, ok)
      ensures Elements(cluster.finalizers) <= old(Elements(cluster.finalizers))
      ensures ok ==> Current(cluster) && Handled(api.init, api.run, |old(api.run)|, key)
      ensures ok ==> Recorded(api.run, |old(api.run)|, service.uid) && api.run[|api.run| - 1].action == Tracked(service.uid)
      ensures ok ==> Parse(cluster.annotation) == Parse(old(cluster.annotation)) + {service.uid}
      ensures Recorded(api.run, |old(api.run)|, service.uid) ==> DeletedFirst(api.run, |old(api.run)|, d, key)
      ensures Parse(api.world.annotation) ==
                Parse(old(api.world.annotation)) + if Recorded(api.run, |old(api.run)|, service.uid) then {service.uid} else {}
    {
      d := 0;
      var r := api.Delete(key);
      if !r.Deleted? {
        return false, d;
      }
      d := |api.run| - 1;
      ghost var handled, w1 := api.run, api.world;
      ok := Track(service.uid, cluster);
      KeptTransitive(old(api.world), w1, api.world);
      RecordedLater(handled, api.run, |old(api.run)|, service.uid);
      DeletedStays(handled, api.run, |old(api.run)|, d, key);
      HandledStays(api.init, handled, api.run, |old(api.run)|, key);
    }

    /** `cleanupLB` once the service is deleted. */
    method Track(uid: string, cluster: Cluster) returns (ok: bool)
      requires Ready() && Current(cluster) && IsUid(uid) && Service in api.seen.listings
      requires exists k :: k in api.seen.listings[Service] && api.seen.listings[Service][k].loadBalancer && api.seen.listings[Service][k].uid == uid
      modifies api, cluster
      ensures Ready() && old(api.run) <= api.run && api.seen == old(api.seen).(cached := api.seen.cached) && Kept(old(api.world), api.world)
      ensures Exactly(old(api.faults), api.faults, ok)
      ensures Elements(cluster.finalizers) <= old(Elements(cluster.finalizers))
      ensures ok ==> Current(cluster) && Recorded(api.run, |old(api.run)|, uid) && api.run[|api.run| - 1].action == Tracked(uid)
      ensures Parse(api.world.annotation) ==
                Parse(old(api.world.annotation)) + if Recorded(api.run, |old(api.run)|, uid) then {uid} else {}
    {
      ok := AddToLedger(uid, cluster);
      if !ok {
        return;
      }
      ghost var recorded, w := api.run, api.world;
      ok := AwaitLister(uid);
      KeptTransitive(old(api.world), w, api.world);
      RecordedStays(recorded, api.run, |old(api.run)|, uid);
    }

    /** The end of `cleanupLB`. */
    method AwaitLister(uid: string) returns (ok: bool)
      requires Ready() && IsUid(uid) && uid in Parse(api.world.annotation)
      modifies api
      ensures Ready() && old(api.run) <= api.run && api.seen == old(api.seen).(cached := api.seen.cached)
      ensures Exactly(old(api.faults), api.faults, ok)
      ensures Moved(old(api.world), api.world)
      ensures ok ==> api.run != [] && api.run[|api.run| - 1].action == Tracked(uid)
    {
      var timedOut;
      ok, timedOut := WaitForLister(uid);
      if ok {
        api.MarkTracked(uid);
      }
    }

    /** The loop of `cleanupLBs`; only LoadBalancer services cost anything at the cloud provider. */
    method DeleteLoadBalancers(items: map<Key, Object>, cluster: Cluster) returns (ok: bool, deletedSome: bool)
      requires Ready() && Current(cluster)
      requires Service in api.seen.listings && api.seen.listings[Service] == items
      requires forall k :: k in items ==> k.kind.Service? && IsUid(items[k].uid)
      modifies api, cluster
      ensures Ready() && old(api.run) <= api.run && api.seen == old(api.seen).(cached := api.seen.cached) && Kept(old(api.world), api.world)
      ensures Exactly(old(api.faults), api.faults, ok)
      ensures Elements(cluster.finalizers) <= old(Elements(cluster.finalizers))
      ensures ok ==> Current(cluster)
      ensures ok ==> LoadBalancersTracked(api.init, api.run, |old(api.run)|, items, Parse(cluster.annotation))
      ensures ok ==> (deletedSome <==> exists k :: k in items && items[k].loadBalancer)
      ensures ok && !deletedSome ==> cluster.annotation == old(cluster.annotation)
    {
      deletedSome := false;
      var todo := items.Keys;
      ghost var done: set<Key> := {};
      while todo != {}
        invariant Ready() && old(api.run) <= api.run && Current(cluster) && api.seen == old(api.seen).(cached := api.seen.cached)
        invariant Exactly(old(api.faults), api.faults, true) && Kept(old(api.world), api.world)
        invariant Elements(cluster.finalizers) <= old(Elements(cluster.finalizers))
        invariant AllTracked(api.init, api.run, |old(api.run)|, items, todo, done, Parse(cluster.annotation))
        invariant if deletedSome then done != {} else done == {} && cluster.annotation == old(cluster.annotation)
        decreases |todo|
      {
        var k :| k in todo;
        ghost var before, ledger := api.run, Parse(cluster.annotation);
        if items[k].loadBalancer {
          ghost var d;
          ok, d := CleanupLB(k, items[k], cluster);
          if !ok {
            return;
          }
          deletedSome := true;
          TrackedOneMore(api.init, before, api.run, |old(api.run)|, items, todo, done, k, ledger);
          done := done + {k};
        }
        todo := todo - {k};
      }
      ok := true;
    }

    method CleanupLBs(cluster: Cluster) returns (ok: bool, deletedSome: bool)
      requires Ready() && Current(cluster)
      modifies api, cluster
      ensures Ready() && old(api.run) <= api.run && Kept(old(api.world), api.world)
      ensures Exactly(old(api.faults), api.faults, ok)
      ensures Elements(cluster.finalizers) <= old(Elements(cluster.finalizers))
      ensures ok ==> Current(cluster) && Service in api.seen.listings && Sweeps(|old(api.run)|, Service)
      ensures ok ==> LoadBalancersTracked(api.init, api.run, |old(api.run)|, api.seen.listings[Service], Parse(cluster.annotation))
      ensures ok && !deletedSome ==>
                && cluster.annotation == old(cluster.annotation)
                && forall k :: k in api.seen.listings[Service] ==> !api.seen.listings[Service][k].loadBalancer
      ensures ok && deletedSome && api.cfg.calm ==>
                Hit(LoadBalancers(old(api.world)), LoadBalancers(api.world), api.world)
    {
      ok := api.UserClusterClient();
      if !ok {
        return false, false;
      }
      var r := api.List(Service);
      if !r.Items? {
        return false, false;
      }
      api.Since(old(api.run));
      ghost var listed := api.world;
      var items := r.items;
      ghost var from := |api.run|;
      ok, deletedSome := DeleteLoadBalancers(items, cluster);
      if ok {
        TrackedAreSwept(api.init, api.run, from, |old(api.run)|, items, Parse(cluster.annotation));
      }
      if ok && deletedSome && api.cfg.calm {
        var k :| k in items && items[k].loadBalancer;
        assert k in LoadBalancers(listed);
        api.LoadBalancerHit(old(api.run), k);
      }
    }

    /** The inner loop over the events of one UID. */
    static method DropIfDeleted(before: set<string>, uid: string, reasons: seq<string>) returns (remaining: set<string>)
      ensures remaining == if DELETED_LOAD_BALANCER in reasons then before - {uid} else before
    {
      remaining := before;
      for i := 0 to |reasons|
        invariant remaining == if DELETED_LOAD_BALANCER in reasons[..i] then before - {uid} else before
      {
        assert reasons[..i + 1] == reasons[..i] + [reasons[i]];
        if reasons[i] == DELETED_LOAD_BALANCER {
          remaining := remaining - {uid};
        }
      }
      assert reasons[..|reasons|] == reasons;
    }

    /** The loop over the recorded UIDs: those without a DeletedLoadBalancer event remain. */
    method UnconfirmedLoadBalancers(cluster: Cluster, ledger: set<string>) returns (ok: bool, remaining: set<string>)
      requires Ready() && Current(cluster) && ledger == Parse(cluster.annotation)
      modifies api
      ensures Ready() && old(api.run) <= api.run && Current(cluster) && Kept(old(api.world), api.world)
      ensures Exactly(old(api.faults), api.faults, ok)
      ensures SameListing(Service, old(api.seen), api.seen)
      ensures ok ==> Guard(api.cfg, api.seen, api.world, CheckedEvents(remaining), api.world)
    {
      var todo := ledger;
      remaining := ledger;
      while todo != {}
        invariant Ready() && old(api.run) <= api.run && Current(cluster) && Kept(old(api.world), api.world)
        invariant Exactly(old(api.faults), api.faults, true)
        invariant SameListing(Service, old(api.seen), api.seen)
        invariant LookedAt(ledger, todo, api.seen, remaining, api.world.emitted)
        decreases |todo|
      {
        var uid :| uid in todo;
        ok, remaining := LookAt(ledger, todo, uid, remaining);
        if !ok {
          return;
        }
        todo := todo - {uid};
      }
      ok := true;
    }

    /** The body of that loop. */
    method LookAt(ghost ledger: set<string>, ghost todo: set<string>, uid: string, before: set<string>)
      returns (ok: bool, remaining: set<string>)
      requires Ready() && uid in todo && LookedAt(ledger, todo, api.seen, before, api.world.emitted)
      modifies api
      ensures Ready() && old(api.run) <= api.run && Moved(old(api.world), api.world)
      ensures Exactly(old(api.faults), api.faults, ok)
      ensures SameListing(Service, old(api.seen), api.seen)
      ensures ok ==> LookedAt(ledger, todo - {uid}, api.seen, remaining, api.world.emitted)
    {
      remaining := before;
      var reasons;
      ok, reasons := api.ListEvents(uid);
      if !ok {
        return;
      }
      remaining := DropIfDeleted(before, uid, reasons);
      LookedAtOne(ledger, todo, uid, old(api.seen), before, old(api.world).emitted, DELETED_LOAD_BALANCER in reasons, api.world.emitted);
    }

    /** Stores what is left of the ledger. */
    method RewriteLedger(cluster: Cluster, remaining: set<string>) returns (ok: bool)
      requires Ready() && Current(cluster)
      requires Guard(api.cfg, api.seen, api.world, CheckedEvents(remaining), api.world)
      modifies api, cluster
      ensures Ready() && old(api.run) <= api.run && Kept(old(api.world), api.world)
      ensures Exactly(old(api.faults), api.faults, ok)
      ensures api.seen == old(api.seen).(remaining := Some(remaining))
      ensures Elements(cluster.finalizers) <= old(Elements(cluster.finalizers))
      ensures ok ==> Current(cluster) && Parse(cluster.annotation) == remaining
    {
      var ids := cluster.annotation;
      api.MarkChecked(remaining);
      api.Since(api.run);
      ParsedItems(ids);
      ParseEncode(remaining);
      cluster.annotation := Encode(remaining);
      ok := api.PatchCluster(cluster, cluster.finalizers, ids);
    }

    /** Asks the events whether the cloud provider has removed every recorded load balancer. The
        answer is Verdict as of the moment the clock was read, and the ledger keeps the UIDs
        without an event.
     */
    method CheckIfAllLoadbalancersAreGone(cluster: Cluster) returns (ok: bool, gone: bool, ghost asOf: int)
      requires Ready() && Current(cluster)
      modifies api, cluster
      ensures Ready() && old(api.run) <= api.run && Kept(old(api.world), api.world)
      ensures Exactly(old(api.faults), api.faults, ok)
      ensures SameListing(Service, old(api.seen), api.seen)
      ensures Elements(cluster.finalizers) <= old(Elements(cluster.finalizers))
      ensures ok ==> Current(cluster)
      ensures ok ==> old(api.world).now <= asOf <= api.world.now
      ensures ok ==> (gone <==> Verdict(api.cfg, old(cluster.annotation), asOf, api.seen.confirmed))
      ensures ok && AsksEvents(api.cfg, old(cluster.annotation), asOf) ==>
                Parse(old(cluster.annotation)) * api.seen.confirmed <= api.world.emitted
      ensures ok && asOf - api.cfg.deletionTimestamp > 7200 ==> gone
      ensures ok && gone ==> LoadBalancersGone(api.cfg, api.seen, api.world)
      ensures ok && !gone ==> Parse(cluster.annotation) == Parse(old(cluster.annotation)) - api.seen.confirmed
    {
      asOf := api.world.now;
      if !api.cfg.inTreeProvider {
        return true, true, asOf;
      }
      var ids := cluster.annotation;
      if ids == "" {
        return true, true, asOf;
      }
      var ledger := ParseStringSet(ids);
      var now := api.Now();
      asOf := now;
      if api.cfg.Deadline() < now {
        return true, true, asOf;
      }
      ghost var w := api.world;
      ok, gone := AskEvents(cluster, ledger);
      KeptTransitive(old(api.world), w, api.world);
    }

    /** `checkIfAllLoadbalancersAreGone` from the events on. */
    method AskEvents(cluster: Cluster, ledger: set<string>) returns (ok: bool, gone: bool)
      requires Ready() && Current(cluster) && ledger == Parse(cluster.annotation)
      modifies api, cluster
      ensures Ready() && old(api.run) <= api.run && Kept(old(api.world), api.world)
      ensures Exactly(old(api.faults), api.faults, ok)
      ensures SameListing(Service, old(api.seen), api.seen)
      ensures Elements(cluster.finalizers) <= old(Elements(cluster.finalizers))
      ensures ok ==> Current(cluster) && Parse(cluster.annotation) == ledger - api.seen.confirmed && api.seen.remaining == Some(ledger - api.seen.confirmed)
      ensures ok ==> ledger * api.seen.confirmed <= api.world.emitted && (gone <==> Answer(api.cfg.rule, ledger - api.seen.confirmed))
    {
      ok := api.UserClusterClient();
      if !ok {
        return false, false;
      }
      var remaining;
      ok, remaining := UnconfirmedLoadBalancers(cluster, ledger);
      if !ok {
        return false, false;
      }
      ghost var w := api.world;
      ok := RewriteLedger(cluster, remaining);
      KeptTransitive(old(api.world), w, api.world);
      gone := match api.cfg.rule case AsWritten => |remaining| > 0 case Intended => remaining == {};
    }

    // ----- volumes.go

    /** A loop that issues a DELETE for each listed object. */
    method DeleteEach(keys: set<Key>, ignoreNotFound: bool) returns (ok: bool)
      requires Ready()
      requires forall k :: k in keys ==> !k.kind.Secret? && MayDelete(api.cfg, api.seen, api.world, k)
      modifies api
      ensures Ready() && old(api.run) <= api.run && Moved(old(api.world), api.world) && api.seen == old(api.seen)
      ensures ExactlyUnless(old(api.faults), api.faults, ok, ignoreNotFound, true) && api.faults.noMatch == old(api.faults).noMatch
      ensures ok ==> AllHandled(api, |old(api.run)|, keys)
      ensures ok && !ignoreNotFound ==> AllThere(api, |old(api.run)|, keys)
    {
      var todo := keys;
      while todo != {}
        invariant todo <= keys
        invariant Ready() && old(api.run) <= api.run && Moved(old(api.world), api.world) && api.seen == old(api.seen)
        invariant ExactlyUnless(old(api.faults), api.faults, true, ignoreNotFound, true) && api.faults.noMatch == old(api.faults).noMatch
        invariant AllHandled(api, |old(api.run)|, keys - todo)
        invariant !ignoreNotFound ==> AllThere(api, |old(api.run)|, keys - todo)
        decreases |todo|
      {
        var k :| k in todo;
        assert MayDelete(api.cfg, api.seen, api.world, k) by {
          PermissionsAreStable(api.cfg, api.seen, old(api.world), api.world);
        }
        ghost var before := api.run;
        var r := api.Delete(k);
        if r.DeleteFailed? || (r.NotFound? && !ignoreNotFound) {
          return false;
        }
        AllHandledStays(api.init, before, api.run, |old(api.run)|, keys - todo);
        if !ignoreNotFound {
          AllThereStays(api.init, before, api.run, |old(api.run)|, keys - todo);
        }
        todo := todo - {k};
      }
      ok := true;
    }

    static method PodUsesPV(pod: Object) returns (uses: bool)
      ensures uses <==> true in pod.claims
    {
      for i := 0 to |pod.claims|
        invariant true !in pod.claims[..i]
      {
        if pod.claims[i] {
          return true;
        }
      }
      assert pod.claims[..|pod.claims|] == pod.claims;
      uses := false;
    }

    static method PodsUsingPVs(items: map<Key, Object>) returns (keys: set<Key>)
      ensures keys == set k | k in items && true in items[k].claims
    {
      var todo := items.Keys;
      keys := {};
      while todo != {}
        invariant todo <= items.Keys
        invariant keys == set k | k in items && k !in todo && true in items[k].claims
        decreases |todo|
      {
        var k :| k in todo;
        todo := todo - {k};
        var uses := PodUsesPV(items[k]);
        if uses {
          keys := keys + {k};
        }
      }
    }

    /** Deletes every pod that uses a claim, and no other. */
    method CleanupPVCUsingPods() returns (ok: bool)
      requires Ready() && Blocks(api.world)
      modifies api
      ensures Ready() && old(api.run) <= api.run && Moved(old(api.world), api.world)
      ensures ExactlyUnless(old(api.faults), api.faults, ok, true, false)
      ensures ok ==> OnlyPodsListed(old(api.seen), api.seen) && Sweeps(|old(api.run)|, Pod)
    {
      var r := api.List(Pod);
      if !r.Items? {
        return false;
      }
      var items := r.items;
      ghost var m := |api.run| - 1;
      var keys := PodsUsingPVs(items);
      ok := DeleteEach(keys, true);
      if ok {
        AllConcernedAreSwept(|old(api.run)|, m, Pod, keys);
      }
    }

    method DisablePVCreation() returns (ok: bool)
      requires Ready()
      modifies api
      ensures Ready() && old(api.run) <= api.run && Moved(old(api.world), api.world) && api.seen == old(api.seen)
      ensures api.faults == Erred(old(api.faults), ok)
      ensures ok ==> Blocks(api.world)
    {
      ok := api.EnsureWebhook();
    }

    /** The second half of `cleanupVolumes`: pods first, then claims, then volumes. */
    method DeleteStorage(claims: set<Key>, volumes: set<Key>) returns (ok: bool, deletedSome: bool)
      requires Ready() && Blocks(api.world)
      requires Claim in api.seen.listings && api.seen.listings[Claim].Keys == claims
      requires Volume in api.seen.listings && api.seen.listings[Volume].Keys == volumes
      requires (forall k :: k in claims ==> k.kind == Claim) && (forall k :: k in volumes ==> k.kind == Volume)
      modifies api
      ensures Ready() && old(api.run) <= api.run && Moved(old(api.world), api.world)
      ensures ExactlyUnless(old(api.faults), api.faults, ok, true, false)
      ensures ok ==> OnlyPodsListed(old(api.seen), api.seen)
      ensures ok ==> forall k :: k in claims + volumes ==> Handled(api.init, api.run, |old(api.run)|, k)
      ensures ok ==> Sweeps(|old(api.run)|, Pod)
      ensures ok ==> (deletedSome <==> claims + volumes != {})
    {
      deletedSome := false;
      ok := CleanupPVCUsingPods();
      if !ok {
        return;
      }
      ghost var swept := api.run;
      ok := DeleteEach(claims, true);
      if !ok {
        return;
      }
      deletedSome := claims != {};
      ghost var before := api.run;
      ok := DeleteEach(volumes, true);
      if !ok {
        return;
      }
      deletedSome := deletedSome || volumes != {};
      AllHandledStays(api.init, before, api.run, |old(api.run)|, claims);
      SweptStays(api.init, swept, api.run, |old(api.run)|, |old(api.run)|, Pod);
    }

    /** The listings of `cleanupVolumes`, claims before volumes. */
    method ListStorage() returns (ok: bool, claims: set<Key>, volumes: set<Key>)
      requires Ready() && Blocks(api.world)
      modifies api
      ensures Ready() && old(api.run) <= api.run && Moved(old(api.world), api.world)
      ensures ExactlyUnless(old(api.faults), api.faults, ok, true, false)
      ensures ok ==> SameListing(Service, old(api.seen), api.seen)
      ensures ok ==> Claim in api.seen.listings && api.seen.listings[Claim].Keys == claims
      ensures ok ==> Volume in api.seen.listings && api.seen.listings[Volume].Keys == volumes
      ensures ok ==> (forall k :: k in claims ==> k.kind == Claim) && (forall k :: k in volumes ==> k.kind == Volume)
      ensures ok ==> ListedSince(|old(api.run)|, Claim, claims) && ListedSince(|old(api.run)|, Volume, volumes)
      ensures ok ==> Storage(api.world) <= claims + volumes <= Storage(old(api.world))
    {
      volumes := {};
      ok, claims := ListKeys(Claim);
      if !ok {
        return;
      }
      ghost var claimed, before := api.world, api.run;
      ok, volumes := ListKeys(Volume);
      if ok {
        StorageListed(claimed, api.world);
        ListedStays(before, |old(api.run)|, Claim, claims);
      }
    }

    /** One of these listings. */
    method ListKeys(kind: Kind) returns (ok: bool, keys: set<Key>)
      requires Ready() && !kind.BackupConfig? && !kind.Node?
      modifies api
      ensures Ready() && old(api.run) <= api.run && Moved(old(api.world), api.world)
      ensures ExactlyUnless(old(api.faults), api.faults, ok, true, false)
      ensures ok ==> kind in api.seen.listings && api.seen.listings == old(api.seen.listings)[kind := api.seen.listings[kind]]
      ensures ok ==> api.seen.listings[kind].Keys == keys && ListedSince(|old(api.run)|, kind, keys)
      ensures ok ==> keys == Keys(api.world, kind)
    {
      keys := {};
      var r := api.List(kind);
      ok := r.Items?;
      if ok {
        keys := r.items.Keys;
      }
    }

    lemma ListedStays(run: seq<Step>, from: nat, kind: Kind, keys: set<Key>)
      requires run <= api.run
      requires exists m :: from <= m < |run| && run[m].action.Listed? && run[m].action.kind == kind && run[m].action.items.Keys == keys
      ensures ListedSince(from, kind, keys)
    {
      var m :| from <= m < |run| && run[m].action.Listed? && run[m].action.kind == kind && run[m].action.items.Keys == keys;
      assert api.run[m] == run[m];
    }

    /** `cleanupVolumes` once creation is blocked. */
    method RemoveStorage() returns (ok: bool, deletedSome: bool)
      requires Ready() && Blocks(api.world)
      modifies api
      ensures Ready() && old(api.run) <= api.run && Moved(old(api.world), api.world)
      ensures ExactlyUnless(old(api.faults), api.faults, ok, true, false)
      ensures ok ==> SameListing(Service, old(api.seen), api.seen)
      ensures ok ==> Sweeps(|old(api.run)|, Claim) && Sweeps(|old(api.run)|, Volume) && (deletedSome ==> Sweeps(|old(api.run)|, Pod))
      ensures ok && !deletedSome ==> Storage(api.world) == {}
      ensures ok && deletedSome && api.cfg.calm ==> Hit(Storage(old(api.world)), Storage(api.world), api.world)
    {
      var claims, volumes;
      ok, claims, volumes := ListStorage();
      if !ok {
        return false, false;
      }
      if claims == {} && volumes == {} {
        AllListedAreSwept(|old(api.run)|, Claim, claims);
        AllListedAreSwept(|old(api.run)|, Volume, volumes);
        return true, false;
      }
      ghost var listed := api.run;
      ok, deletedSome := DeleteStorage(claims, volumes);
      if ok {
        StorageIsSwept(listed, |old(api.run)|, claims, volumes);
      }
      if ok && api.cfg.calm {
        api.StorageHit(old(api.run), claims + volumes);
      }
    }

    lemma StorageIsSwept(listed: seq<Step>, from: nat, claims: set<Key>, volumes: set<Key>)
      requires from <= |listed| && listed <= api.run && Sweeps(|listed|, Pod)
      requires ListedSince(from, Claim, claims) && ListedSince(from, Volume, volumes)
      requires forall k :: k in claims + volumes ==> Handled(api.init, api.run, |listed|, k)
      ensures Sweeps(from, Claim) && Sweeps(from, Volume) && Sweeps(from, Pod)
    {
      forall k | k in claims + volumes ensures Handled(api.init, api.run, from, k) {
        var i :| |listed| <= i <= |api.run| && HandledAt(api.init, api.run, i, k);
      }
      AllListedAreSwept(from, Claim, claims);
      AllListedAreSwept(from, Volume, volumes);
      SweptStays(api.init, api.run, api.run, |listed|, from, Pod);
    }

    method CleanupVolumes() returns (ok: bool, deletedSome: bool)
      requires Ready()
      modifies api
      ensures Ready() && old(api.run) <= api.run && Moved(old(api.world), api.world)
      ensures ExactlyUnless(old(api.faults), api.faults, ok, true, false)
      ensures ok ==> SameListing(Service, old(api.seen), api.seen) && Blocks(api.world)
      ensures ok ==> Sweeps(|old(api.run)|, Claim) && Sweeps(|old(api.run)|, Volume) && (deletedSome ==> Sweeps(|old(api.run)|, Pod))
      ensures ok && !deletedSome ==> Storage(api.world) == {}
      ensures ok && deletedSome && api.cfg.calm && Blocks(old(api.world)) ==>
                Hit(Storage(old(api.world)), Storage(api.world), api.world)
    {
      ok := api.UserClusterClient();
      if !ok {
        return false, false;
      }
      ok := DisablePVCreation();
      if !ok {
        return false, false;
      }
      ghost var from := |api.run|;
      ok, deletedSome := RemoveStorage();
      if ok {
        SweptStays(api.init, api.run, api.run, from, |old(api.run)|, Claim);
        SweptStays(api.init, api.run, api.run, from, |old(api.run)|, Volume);
        if deletedSome {
          SweptStays(api.init, api.run, api.run, from, |old(api.run)|, Pod);
        }
      }
    }

    // ----- deletion.go, the part inside the user cluster

    /** Volumes are blocked, all that were there were dealt with, and so were the pods that use
        them unless there is no storage left.
     */
    ghost predicate StorageSwept(from: nat)
      reads api
    {
      Blocks(api.world) && Sweeps(from, Claim) && Sweeps(from, Volume) && (Storage(api.world) == {} || Sweeps(from, Pod))
    }

    /** It stays so. */
    lemma StorageSweptStays(w: World, run: seq<Step>, from: nat, earlier: nat)
      requires earlier <= from && run <= api.run && Kept(w, api.world) && Blocks(w)
      requires Swept(api.init, run, from, Claim) && Swept(api.init, run, from, Volume)
      requires Storage(w) == {} || Swept(api.init, run, from, Pod)
      ensures StorageSwept(earlier)
    {
      SweptStays(api.init, run, api.run, from, earlier, Claim);
      SweptStays(api.init, run, api.run, from, earlier, Volume);
      if Storage(w) != {} {
        SweptStays(api.init, run, api.run, from, earlier, Pod);
      }
    }

    /** The first half of `cleanupInClusterResources`. */
    method DeleteInClusterResources(cluster: Cluster, lbs: bool, pvs: bool) returns (ok: bool, deletedSome: bool)
      requires Ready() && Current(cluster)
      modifies api, cluster
      ensures Ready() && old(api.run) <= api.run && Kept(old(api.world), api.world)
      ensures Overall(old(api.faults), api.faults, ok)
      ensures ok ==> Current(cluster) && Elements(cluster.finalizers) <= old(Elements(cluster.finalizers))
      ensures ok && !deletedSome && lbs ==>
                && Service in api.seen.listings
                && forall k :: k in api.seen.listings[Service] ==> !api.seen.listings[Service][k].loadBalancer
      ensures ok && lbs ==> Sweeps(|old(api.run)|, Service)
      ensures ok && pvs ==> StorageSwept(|old(api.run)|)
      ensures ok && !deletedSome ==> cluster.annotation == old(cluster.annotation)
      ensures ok && !deletedSome && pvs ==> Blocks(api.world) && Storage(api.world) == {}
      ensures ok && deletedSome && api.cfg.calm ==>
                || (lbs && Hit(LoadBalancers(old(api.world)), LoadBalancers(api.world), api.world))
                || (pvs && Blocks(api.world) && !Blocks(old(api.world)))
                || (pvs && Blocks(old(api.world)) && Hit(Storage(old(api.world)), Storage(api.world), api.world))
    {
      deletedSome := false;
      if lbs {
        var deletedSomeLBs;
        ok, deletedSomeLBs := CleanupLBs(cluster);
        if !ok {
          return;
        }
        deletedSome := deletedSome || deletedSomeLBs;
      }
      ghost var between, before := api.world, api.run;
      if pvs {
        var deletedSomeVolumes;
        ok, deletedSomeVolumes := CleanupVolumes();
        if !ok {
          return;
        }
        deletedSome := deletedSome || deletedSomeVolumes;
        StorageSweptStays(api.world, api.run, |before|, |old(api.run)|);
      }
      ok := true;
      if lbs {
        SweptStays(api.init, before, api.run, |old(api.run)|, |old(api.run)|, Service);
      }
      if api.cfg.calm {
        api.Since(before);
        HitStays(old(api.world), between, api.world);
      }
    }

    /** Either both in-cluster finalizers are off the copy afterwards, or work was found to do. If
        it came to the check and the answer was yes, they are off. It comes to the check unless
        something was deleted; `checked` holds what the check was asked and what it knew.
     */
    method CleanupInClusterResources(cluster: Cluster) returns (ok: bool, ghost checked: Option<Checked>)
      requires Ready() && Current(cluster) && cluster.finalizers == api.world.finalizers
      modifies api, cluster
      ensures Ready() && old(api.run) <= api.run && Kept(old(api.world), api.world)
      ensures Overall(old(api.faults), api.faults, ok)
      ensures ok ==> Current(cluster) && Elements(cluster.finalizers) <= old(Elements(cluster.finalizers))
      ensures ok && cluster.finalizers == [] && old(cluster.finalizers) != [] ==> Own(old(api.world)) != {}
      ensures ok && api.cfg.calm && HasAnyFinalizer(cluster.finalizers, {LB, PV}) ==>
                InClusterWork(api.cfg, old(api.world), api.world) || Own(api.world) < Own(old(api.world))
      ensures ok && checked.Some? ==> CheckedBetween(checked.value, old(api.world), api.world, api.cfg)
      ensures ok && checked.Some? && SaysYes(api.cfg, checked.value) ==> !HasAnyFinalizer(cluster.finalizers, {LB, PV})
      ensures ok && checked.None? && api.cfg.calm && NothingInside(old(api.world)) ==> !HasAnyFinalizer(cluster.finalizers, {LB, PV})
      ensures ok && HasFinalizer(old(cluster.finalizers), LB) ==> Sweeps(|old(api.run)|, Service)
      ensures ok && HasFinalizer(old(cluster.finalizers), PV) ==> StorageSwept(|old(api.run)|)
    {
      checked := None;
      var shouldDeleteLBs := HasFinalizer(cluster.finalizers, LB);
      var shouldDeletePVs := HasFinalizer(cluster.finalizers, PV);
      if !shouldDeleteLBs && !shouldDeletePVs {
        return true, None;
      }
      assert Own(old(api.world)) != {} by {
        assert LB in Own(old(api.world)) || PV in Own(old(api.world));
      }
      var deletedSomeResource;
      ok, deletedSomeResource := DeleteInClusterResources(cluster, shouldDeleteLBs, shouldDeletePVs);
      if !ok {
        return false, None;
      }
      if deletedSomeResource {
        GoneOrOwnFell(old(api.world), api.world);
        return true, None;
      }
      ghost var swept, w := api.run, api.world;
      ok, checked := FinishInside(cluster);
      GoneOrOwnFell(old(api.world), api.world);
      if shouldDeleteLBs {
        SweptStays(api.init, swept, api.run, |old(api.run)|, |old(api.run)|, Service);
      }
      if shouldDeletePVs {
        StorageSweptStays(w, swept, |old(api.run)|, |old(api.run)|);
      }
    }

    /** `cleanupInClusterResources` from the check on. */
    method FinishInside(cluster: Cluster) returns (ok: bool, ghost checked: Option<Checked>)
      requires Ready() && Current(cluster)
      requires LB in Fin(api.world) ==>
                 && Service in api.seen.listings
                 && forall k :: k in api.seen.listings[Service] ==> !api.seen.listings[Service][k].loadBalancer
      requires PV in Fin(api.world) ==> Blocks(api.world) && Storage(api.world) == {}
      modifies api, cluster
      ensures Ready() && old(api.run) <= api.run && Kept(old(api.world), api.world)
      ensures Exactly(old(api.faults), api.faults, ok)
      ensures ok ==> Current(cluster) && Elements(cluster.finalizers) <= old(Elements(cluster.finalizers))
      ensures ok ==> checked.Some? && CheckedBetween(checked.value, old(api.world), api.world, api.cfg)
      ensures ok && SaysYes(api.cfg, checked.value) ==> !HasAnyFinalizer(cluster.finalizers, {LB, PV})
    {
      var lbsAreGone;
      ghost var asOf;
      ok, lbsAreGone, asOf := CheckIfAllLoadbalancersAreGone(cluster);
      checked := Some(Checked(old(cluster.annotation), asOf, api.seen.confirmed));
      if !ok || !lbsAreGone {
        return;
      }
      ok := DropInClusterFinalizers(cluster);
    }

    /** The end of `cleanupInClusterResources`. */
    method DropInClusterFinalizers(cluster: Cluster) returns (ok: bool)
      requires Ready() && Current(cluster)
      requires LB in Fin(api.world) ==> MayRemove(api.cfg, api.seen, api.world, LB)
      requires PV in Fin(api.world) ==> MayRemove(api.cfg, api.seen, api.world, PV)
      modifies api, cluster
      ensures Ready() && old(api.run) <= api.run && Kept(old(api.world), api.world)
      ensures Exactly(old(api.faults), api.faults, ok)
      ensures ok ==> Current(cluster) && Elements(cluster.finalizers) <= old(Elements(cluster.finalizers))
      ensures ok ==> !HasAnyFinalizer(cluster.finalizers, {LB, PV})
      ensures HasAnyFinalizer(old(cluster.finalizers), {LB, PV}) ==>
                Elements(cluster.finalizers) == old(Elements(cluster.finalizers)) - {LB, PV}
    {
      var oldFinalizers := cluster.finalizers;
      cluster.RemoveFinalizer(LB);
      cluster.RemoveFinalizer(PV);
      ok := api.PatchCluster(cluster, oldFinalizers, cluster.annotation);
    }

    // ----- etcdbackupconfig.go

    /** Lists the backup configs and deletes all it finds. */
    method DeleteBackupConfigs() returns (ok: bool, found: bool)
      requires Ready() && InClusterDone(api.world) && api.cfg.backupController
      modifies api
      ensures Ready() && old(api.run) <= api.run && Moved(old(api.world), api.world)
      ensures Exactly(old(api.faults), api.faults, ok)
      ensures ok ==> BackupConfig in api.seen.listings && (found <==> api.seen.listings[BackupConfig] != map[])
      ensures ok ==> AllHandled(api, |old(api.run)|, api.seen.listings[BackupConfig].Keys) && Sweeps(|old(api.run)|, BackupConfig)
      ensures ok && found && api.cfg.calm ==> Hit(Keys(old(api.world), BackupConfig), Keys(api.world, BackupConfig), api.world)
    {
      var r := api.List(BackupConfig);
      if !r.Items? {
        return false, false;
      }
      found := |r.items| > 0;
      ghost var m := |api.run| - 1;
      ok := true;
      if found {
        ok := DeleteEach(r.items.Keys, false);
        if ok && api.cfg.calm {
          var k :| k in r.items;
          api.BackupHit(old(api.run), k);
        }
      }
      assert ok ==> SweptAt(api.init, api.run, |old(api.run)|, m, BackupConfig);
    }

    method CleanupEtcdBackupConfigs(cluster: Cluster) returns (ok: bool)
      requires Ready() && Current(cluster) && !HasAnyFinalizer(cluster.finalizers, {LB, PV})
      modifies api, cluster
      ensures Ready() && old(api.run) <= api.run
      ensures Exactly(old(api.faults), api.faults, ok)
      ensures ok ==> Current(cluster) && Elements(cluster.finalizers) <= old(Elements(cluster.finalizers))
      ensures ok && cluster.finalizers == [] && old(cluster.finalizers) != [] ==> Own(old(api.world)) != {}
      ensures ok ==> BackupsListed(api.cfg, api.seen, api.world)
      ensures ok && HasFinalizer(cluster.finalizers, BACKUPS) ==> Sweeps(|old(api.run)|, BackupConfig)
      ensures ok && HasFinalizer(cluster.finalizers, BACKUPS) ==>
                && api.cfg.backupController && BackupConfig in api.seen.listings && api.seen.listings[BackupConfig] != map[]
                && AllHandled(api, |old(api.run)|, api.seen.listings[BackupConfig].Keys)
      ensures ok && api.cfg.calm && HasFinalizer(cluster.finalizers, BACKUPS) ==>
                Hit(Keys(old(api.world), BackupConfig), Keys(api.world, BackupConfig), api.world)
    {
      if !HasFinalizer(cluster.finalizers, BACKUPS) {
        return true;
      }
      if api.cfg.backupController {
        var found;
        ok, found := DeleteBackupConfigs();
        if !ok || found {
          return;
        }
      }
      var oldFinalizers := cluster.finalizers;
      cluster.RemoveFinalizer(BACKUPS);
      ok := api.PatchCluster(cluster, oldFinalizers, cluster.annotation);
    }

    // ----- node.go

    /** Disables eviction on every node that still has it. */
    method DisableEviction() returns (ok: bool)
      requires Ready() && InClusterDone(api.world)
      modifies api
      ensures Ready() && old(api.run) <= api.run && Moved(old(api.world), api.world)
      ensures Exactly(old(api.faults), api.faults, ok)
      ensures ok ==> NodesPrepared(api.seen) && SameListing(BackupConfig, old(api.seen), api.seen)
    {
      var r := api.List(Node);
      if !r.Items? {
        return false;
      }
      var items := r.items;
      var todo := items.Keys;
      while todo != {}
        invariant todo <= items.Keys
        invariant Ready() && old(api.run) <= api.run && Moved(old(api.world), api.world)
        invariant Exactly(old(api.faults), api.faults, true)
        invariant Node in api.seen.listings && api.seen.listings[Node] == items && SameListing(BackupConfig, old(api.seen), api.seen)
        invariant items.Keys - todo <= api.seen.evictionOff
        invariant forall k :: k in items && items[k].skipEviction ==> k in api.seen.evictionOff
        decreases |todo|
      {
        var k :| k in todo;
        todo := todo - {k};
        if items[k].skipEviction {
          continue;
        }
        ok := api.PatchSkipEviction(k);
        if !ok {
          return;
        }
      }
      ok := true;
    }

    /** Objects of one kind, given that what creates them was listed as gone. */
    static predicate MayTearDown(seen: Seen, kind: Kind) {
      && NodesPrepared(seen)
      && (kind == MachineDeployment || (kind in {MachineSet, Machine} && ListedEmpty(seen, MachineDeployment)))
      && (kind == Machine ==> ListedEmpty(seen, MachineSet))
    }

    static ghost predicate NothingAbove(w: World, kind: Kind) {
      && (kind in {MachineSet, Machine} ==> Keys(w, MachineDeployment) == {})
      && (kind == Machine ==> Keys(w, MachineSet) == {})
    }

    /** One stage of `cleanupNodes`: list the objects of a kind and, if there are any, delete
        them all. A kind the API server does not know counts as an empty list. `listed` is the
        run up to the listing.
     */
    method TearDown(kind: Kind) returns (ok: bool, found: bool, ghost listed: seq<Step>)
      requires Ready() && InClusterDone(api.world) && BackupsListed(api.cfg, api.seen, api.world) && MayTearDown(api.seen, kind)
      modifies api
      ensures Ready() && old(api.run) <= listed <= api.run && Moved(old(api.world), api.world)
      ensures ExactlyUnless(old(api.faults), api.faults, ok, false, true)
      ensures ok ==> kind in api.seen.listings && api.seen == SawListing(old(api.seen), kind, api.seen.listings[kind])
      ensures ok ==> api.seen.listings[kind].Keys == Keys(State(api.init, listed, |listed|), kind)
      ensures ok && found ==> api.seen.listings[kind] != map[] && AllHandled(api, |old(api.run)|, api.seen.listings[kind].Keys)
      ensures ok && !found ==> ListedEmpty(api.seen, kind) && listed == api.run
    {
      var r := api.List(kind);
      listed := api.run;
      if r.ListFailed? {
        return false, false, listed;
      }
      var items := if r.NoMatch? then map[] else r.items;
      assert items.Keys == Keys(api.world, kind);
      found := |items| > 0;
      ok := true;
      if found {
        MayTearDownAll(api.cfg, api.seen, old(api.seen), api.world, kind);
        ok := DeleteEach(items.Keys, false);
      }
    }

    static lemma MayTearDownAll(cfg: Config, seen: Seen, before: Seen, w: World, kind: Kind)
      requires seen.constraintsCleared && InClusterDone(w) && BackupsListed(cfg, before, w) && MayTearDown(before, kind)
      requires kind in seen.listings && seen == SawListing(before, kind, seen.listings[kind])
      requires forall k :: k in seen.listings[kind] ==> k.kind == kind
      ensures forall k :: k in seen.listings[kind] ==> MayDelete(cfg, seen, w, k)
    {
    }

    /** A stage with what it achieves in a calm environment, when nothing is left that would
        create objects of the kind.
     */
    method Stage(kind: Kind) returns (ok: bool, found: bool)
      requires Ready() && InClusterDone(api.world) && BackupsListed(api.cfg, api.seen, api.world) && MayTearDown(api.seen, kind)
      modifies api
      ensures Ready() && old(api.run) <= api.run && Moved(old(api.world), api.world)
      ensures ExactlyUnless(old(api.faults), api.faults, ok, false, true)
      ensures ok ==> kind in api.seen.listings && api.seen == SawListing(old(api.seen), kind, api.seen.listings[kind])
      ensures ok ==> BackupsListed(api.cfg, api.seen, api.world)
      ensures ok && !found ==> ListedEmpty(api.seen, kind) && Keys(api.world, kind) == {}
      ensures ok && api.cfg.calm && NothingAbove(old(api.world), kind) ==>
                if found then MachineWork(old(api.world), api.world) else NothingAbove(api.world, kind)
    {
      ghost var listed;
      ok, found, listed := TearDown(kind);
      if ok && api.cfg.calm && NothingAbove(old(api.world), kind) {
        if found {
          TearDownWorks(old(api.run), listed, kind, api.seen.listings[kind].Keys);
        } else {
          api.Since(old(api.run));
        }
      }
    }

    lemma TearDownWorks(earlier: seq<Step>, listed: seq<Step>, kind: Kind, keys: set<Key>)
      requires api.Valid() && earlier <= listed <= api.run && api.cfg.calm
      requires kind in {MachineDeployment, MachineSet, Machine} && NothingAbove(State(api.init, earlier, |earlier|), kind)
      requires keys != {} && keys == Keys(State(api.init, listed, |listed|), kind)
      requires forall k :: k in keys ==> Handled(api.init, api.run, |earlier|, k)
      ensures MachineWork(State(api.init, earlier, |earlier|), api.world)
    {
      api.Between(earlier, listed);
      var k :| k in keys;
      api.MachineHit(earlier, k);
    }

    /** MachineDeployments, then MachineSets, then Machines; stops at the first kind of which
        objects are left.
     */
    method TearDownInOrder() returns (ok: bool, found: bool)
      requires Ready() && InClusterDone(api.world) && BackupsListed(api.cfg, api.seen, api.world) && NodesPrepared(api.seen)
      modifies api
      ensures Ready() && old(api.run) <= api.run && Moved(old(api.world), api.world)
      ensures ExactlyUnless(old(api.faults), api.faults, ok, false, true)
      ensures ok && !found ==>
                && NodesPrepared(api.seen) && ListedEmpty(api.seen, MachineDeployment)
                && ListedEmpty(api.seen, MachineSet) && ListedEmpty(api.seen, Machine)
      ensures ok && found && api.cfg.calm ==> MachineWork(old(api.world), api.world)
    {
      ok, found := Stage(MachineDeployment);
      if !ok || found {
        return;
      }
      ghost var r1 := api.run;
      ok, found := Stage(MachineSet);
      if !ok || found {
        if ok && api.cfg.calm {
          api.MachineWorkSince(old(api.run), r1);
        }
        return;
      }
      ghost var r2 := api.run;
      ok, found := Stage(Machine);
      if ok && found && api.cfg.calm {
        api.MachineWorkSince(old(api.run), r2);
      }
    }

    method CleanupNodes(cluster: Cluster) returns (ok: bool)
      requires Ready() && Current(cluster) && !HasAnyFinalizer(cluster.finalizers, {LB, PV})
      requires BackupsListed(api.cfg, api.seen, api.world)
      modifies api, cluster
      ensures Ready() && old(api.run) <= api.run
      ensures Overall(old(api.faults), api.faults, ok)
      ensures ok ==> Current(cluster) && Elements(cluster.finalizers) <= old(Elements(cluster.finalizers))
      ensures ok && cluster.finalizers == [] && old(cluster.finalizers) != [] ==> Own(old(api.world)) != {}
      ensures ok && api.cfg.calm && HasFinalizer(cluster.finalizers, NODES) ==> MachineWork(old(api.world), api.world)
    {
      if !HasFinalizer(cluster.finalizers, NODES) {
        return true;
      }
      ok := api.UserClusterClient();
      if !ok {
        return false;
      }
      ok := DisableEviction();
      if !ok {
        return false;
      }
      ghost var before := api.run;
      var found;
      ok, found := TearDownInOrder();
      if !ok || found {
        if ok && api.cfg.calm {
          api.MachineWorkSince(old(api.run), before);
        }
        return;
      }
      var oldFinalizers := cluster.finalizers;
      cluster.RemoveFinalizer(NODES);
      ok := api.PatchCluster(cluster, oldFinalizers, cluster.annotation);
    }

    // ----- secret.go

    method DeleteSecret() returns (ok: bool)
      requires Ready() && Fin(api.world) <= {CREDENTIALS}
      modifies api
      ensures Ready() && old(api.run) <= api.run && Moved(old(api.world), api.world)
      ensures Exactly(old(api.faults), api.faults, ok)
      ensures ok ==> api.cfg.secretName != "" ==> api.seen.secretSettled
    {
      if api.cfg.secretName == "" {
        return true;
      }
      var r := api.GetSecret();
      match r {
        case SecretNotFound => return true;
        case SecretFailed => return false;
        case SecretFound =>
          var d := api.Delete(Key(Secret, api.cfg.secretName));
          return d.Deleted?;
      }
    }

    method CleanUpCredentialsSecrets(cluster: Cluster) returns (ok: bool)
      requires Ready() && Current(cluster) && HasOnlyFinalizer(cluster.finalizers, CREDENTIALS)
      modifies api, cluster
      ensures Ready() && old(api.run) <= api.run
      ensures Exactly(old(api.faults), api.faults, ok)
      ensures ok ==> Current(cluster) && CREDENTIALS !in Fin(api.world)
    {
      OnlyFinalizerCovers(cluster.finalizers, CREDENTIALS);
      ok := DeleteSecret();
      if !ok {
        return false;
      }
      var oldFinalizers := cluster.finalizers;
      cluster.RemoveFinalizer(CREDENTIALS);
      ok := api.PatchCluster(cluster, oldFinalizers, cluster.annotation);
    }

    // ----- deletion.go

    /** The second half of `CleanupCluster`, when nothing inside the user cluster is left.
        `start` is the run when the reconcile started.
     */
    method CleanupOutside(cluster: Cluster, ghost start: seq<Step>) returns (ok: bool)
      requires Ready() && Current(cluster) && start <= api.run
      requires !HasAnyFinalizer(cluster.finalizers, {LB, PV, CONSTRAINTS})
      requires Elements(cluster.finalizers) <= Fin(State(api.init, start, |start|))
      requires cluster.finalizers == [] ==> Own(State(api.init, start, |start|)) != {}
      modifies api, cluster
      ensures Ready() && old(api.run) <= api.run
      ensures Overall(old(api.faults), api.faults, ok)
      ensures ok && api.cfg.calm ==> Work(api.cfg, State(api.init, start, |start|), api.world)
      ensures ok && BACKUPS in Fin(api.world) ==> Sweeps(|old(api.run)|, BackupConfig)
    {
      ok := CleanupEtcdBackupConfigs(cluster);
      if !ok {
        return;
      }
      ghost var r3, backups := api.run, HasFinalizer(cluster.finalizers, BACKUPS);
      assert cluster.finalizers == [] ==> Own(State(api.init, start, |start|)) != {} by {
        api.Between(start, old(api.run));
      }
      ok := CleanupLast(cluster, start, old(api.run));
      if ok && backups {
        SweptStays(api.init, r3, api.run, |old(api.run)|, |old(api.run)|, BackupConfig);
      }
    }

    /** `CleanupCluster` from the nodes on; `r2` is the run when backup configs were looked at. */
    method CleanupLast(cluster: Cluster, ghost start: seq<Step>, ghost r2: seq<Step>) returns (ok: bool)
      requires Ready() && Current(cluster) && start <= r2 <= api.run && BackupsListed(api.cfg, api.seen, api.world)
      requires !HasAnyFinalizer(cluster.finalizers, {LB, PV, CONSTRAINTS})
      requires Elements(cluster.finalizers) <= Fin(State(api.init, start, |start|))
      requires cluster.finalizers == [] ==> Own(State(api.init, start, |start|)) != {}
      requires api.cfg.calm && HasFinalizer(cluster.finalizers, BACKUPS) ==>
                 Hit(Keys(State(api.init, r2, |r2|), BackupConfig), Keys(api.world, BackupConfig), api.world)
      modifies api, cluster
      ensures Ready() && old(api.run) <= api.run && Fin(api.world) <= Fin(old(api.world))
      ensures Overall(old(api.faults), api.faults, ok)
      ensures ok && api.cfg.calm ==> Work(api.cfg, State(api.init, start, |start|), api.world)
    {
      ok := CleanupNodes(cluster);
      if !ok {
        api.Since(old(api.run));
        return;
      }
      if HasFinalizer(cluster.finalizers, NODES) {
        if api.cfg.calm {
          NodesStepWorks(start, old(api.run));
        }
        api.Since(old(api.run));
        return;
      }
      if HasOnlyFinalizer(cluster.finalizers, CREDENTIALS) {
        ok := CleanUpCredentialsSecrets(cluster);
        if ok && api.cfg.calm {
          api.OwnFell(start, CREDENTIALS);
        }
      } else if api.cfg.calm {
        api.Between(start, old(api.run));
        LastStepWorks(cluster, start, r2, old(api.run));
      }
      api.Since(old(api.run));
    }

    lemma NodesStepWorks(start: seq<Step>, r3: seq<Step>)
      requires api.Valid() && api.cfg.calm && start <= r3 <= api.run
      requires NODES in Fin(State(api.init, start, |start|))
      requires MachineWork(State(api.init, r3, |r3|), api.world)
      ensures Work(api.cfg, State(api.init, start, |start|), api.world)
    {
      if NODES in Fin(api.world) {
        api.MachineWorkSince(start, r3);
      } else {
        api.OwnFell(start, NODES);
      }
    }

    /** Nothing was left to do but to wait for backup configs or for other controllers. */
    lemma LastStepWorks(cluster: Cluster, start: seq<Step>, r2: seq<Step>, r3: seq<Step>)
      requires api.Valid() && api.cfg.calm && Covers(cluster) && start <= r2 <= r3 <= api.run
      requires !HasAnyFinalizer(cluster.finalizers, {LB, PV, CONSTRAINTS, NODES})
      requires !HasOnlyFinalizer(cluster.finalizers, CREDENTIALS)
      requires Elements(cluster.finalizers) <= Fin(State(api.init, start, |start|))
      requires cluster.finalizers == [] ==> Own(State(api.init, start, |start|)) != {}
      requires HasFinalizer(cluster.finalizers, BACKUPS) ==>
                 Hit(Keys(State(api.init, r2, |r2|), BackupConfig), Keys(State(api.init, r3, |r3|), BackupConfig), State(api.init, r3, |r3|))
      ensures Work(api.cfg, State(api.init, start, |start|), api.world)
    {
      api.Since(start);
      if HasFinalizer(cluster.finalizers, BACKUPS) {
        if BACKUPS in Fin(api.world) {
          api.Between(start, r2);
          api.Since(r3);
          BackupHitStays(State(api.init, start, |start|), State(api.init, r2, |r2|), State(api.init, r3, |r3|), api.world);
        } else {
          api.OwnFell(start, BACKUPS);
        }
      } else {
        OthersLeft(api.cfg, State(api.init, start, |start|), api.world, cluster.finalizers);
      }
    }

    /** The first half of `CleanupCluster`: constraints and what is inside the user cluster. */
    method CleanupInside(cluster: Cluster) returns (ok: bool, ghost checked: Option<Checked>)
      requires api.Valid() && Covers(cluster)
      modifies api, cluster
      ensures api.Valid() && old(api.run) < api.run && api.run[|old(api.run)|].action.Begin?
      ensures Overall(old(api.faults), api.faults, ok)
      ensures ok ==> Ready() && Current(cluster) && Elements(cluster.finalizers) <= Fin(old(api.world)) && CONSTRAINTS !in Elements(cluster.finalizers)
      ensures ok && cluster.finalizers == [] ==> Own(old(api.world)) != {}
      ensures ok && api.cfg.calm && HasAnyFinalizer(cluster.finalizers, {LB, PV}) ==> Work(api.cfg, old(api.world), api.world)
      ensures ok && checked.Some? ==> CheckedBetween(checked.value, old(api.world), api.world, api.cfg)
      ensures ok && checked.Some? && SaysYes(api.cfg, checked.value) ==> !HasAnyFinalizer(cluster.finalizers, {LB, PV})
      ensures ok && checked.None? && api.cfg.calm && NothingInside(old(api.world)) ==> !HasAnyFinalizer(cluster.finalizers, {LB, PV})
      ensures ok && LB in Fin(api.world) ==> Sweeps(|old(api.run)|, Service)
      ensures ok && PV in Fin(api.world) ==> StorageSwept(|old(api.run)|)
    {
      ok := BeginReconcile(cluster);
      if !ok {
        return false, None;
      }
      ghost var r1 := api.run;
      ok, checked := CleanupInClusterResources(cluster);
      if ok {
        if api.cfg.calm && HasAnyFinalizer(cluster.finalizers, {LB, PV}) {
          api.WorkSince(old(api.run), r1);
        }
        InsideIsSwept(r1, |old(api.run)|);
      }
    }

    /** The start of a reconcile, up to the constraints. */
    method BeginReconcile(cluster: Cluster) returns (ok: bool)
      requires api.Valid() && Covers(cluster)
      modifies api, cluster
      ensures api.Valid() && old(api.run) < api.run && api.run[|old(api.run)|].action.Begin?
      ensures Exactly(old(api.faults), api.faults, ok)
      ensures ok ==> Ready() && cluster.finalizers == api.world.finalizers && cluster.annotation == api.world.annotation
      ensures ok ==> Fin(api.world) <= Fin(old(api.world)) - {CONSTRAINTS} && api.world.annotation == old(api.world.annotation)
      ensures ok ==> old(api.world).now <= api.world.now
      ensures ok && cluster.finalizers == [] ==> Own(old(api.world)) != {}
      ensures ok && api.cfg.calm && NothingInside(old(api.world)) ==> NothingInside(api.world)
    {
      api.StartReconcile();
      ok := CleanupConstraints(cluster);
      api.Since(old(api.run));
      if api.cfg.calm && NothingInside(old(api.world)) {
        NothingInsideStays(api.cfg, old(api.world), api.world);
      }
    }

    lemma InsideIsSwept(r1: seq<Step>, from: nat)
      requires from <= |r1| && r1 <= api.run
      requires LB in Fin(api.world) ==> Sweeps(|r1|, Service)
      requires PV in Fin(api.world) ==> StorageSwept(|r1|)
      ensures LB in Fin(api.world) ==> Sweeps(from, Service)
      ensures PV in Fin(api.world) ==> StorageSwept(from)
    {
      if LB in Fin(api.world) {
        SweptStays(api.init, api.run, api.run, |r1|, from, Service);
      }
      if PV in Fin(api.world) {
        StorageSweptStays(api.world, api.run, |r1|, from);
      }
    }

    /** One reconcile. It may be given any copy of the Cluster object that some earlier state of
        the store agrees with, and may fail anywhere. Every API call it makes is allowed by
        RunOk (that is what Valid keeps). It fails only if one of its calls returned an error or
        the wait for the lister timed out, and when it succeeds in a calm environment it has
        achieved something. If it came to the check for load balancers and the answer was yes,
        the in-cluster finalizers are gone; in a calm environment it comes to the check, unless
        they are gone anyway, when nothing inside the cluster is left.
     */
    method CleanupCluster(cluster: Cluster) returns (ok: bool, ghost checked: Option<Checked>)
      requires api.Valid() && Covers(cluster)
      modifies api, cluster
      ensures api.Valid() && old(api.run) < api.run && api.run[|old(api.run)|].action.Begin?
      ensures Overall(old(api.faults), api.faults, ok)
      ensures ok && api.cfg.calm ==> Work(api.cfg, old(api.world), api.world)
      ensures ok && checked.Some? ==> CheckedBetween(checked.value, old(api.world), api.world, api.cfg)
      ensures ok && checked.Some? && SaysYes(api.cfg, checked.value) ==> InClusterDone(api.world)
      ensures ok && checked.None? && api.cfg.calm && NothingInside(old(api.world)) ==> InClusterDone(api.world)
      ensures ok && LB in Fin(api.world) ==> Sweeps(|old(api.run)|, Service)
      ensures ok && PV in Fin(api.world) ==> StorageSwept(|old(api.run)|)
    {
      ok, checked := CleanupInside(cluster);
      if !ok || HasAnyFinalizer(cluster.finalizers, {LB, PV}) {
        return;
      }
      ghost var r2 := api.run;
      ok := CleanupOutside(cluster, old(api.run));
      api.Since(r2);
    }
  }

  /** A reconcile and what happens until the next one. Nothing raises the measure; a
      successful reconcile after which the world settles lowers it.
   */
  method ReconcileAndRest(deletion: Deletion, cluster: Cluster) returns (ok: bool, settled: bool)
    requires deletion.api.Valid() && deletion.Covers(cluster)
    modifies deletion.api, cluster
    ensures deletion.api.Valid() && old(deletion.api.run) <= deletion.api.run
    ensures Overall(old(deletion.api.faults), deletion.api.faults, ok)
    ensures deletion.api.cfg.calm ==>
              NotAbove(Rank(deletion.api.cfg, deletion.api.world), Rank(deletion.api.cfg, old(deletion.api.world)))
    ensures deletion.api.cfg.calm && ok && settled ==>
              Below(Rank(deletion.api.cfg, deletion.api.world), Rank(deletion.api.cfg, old(deletion.api.world)))
  {
    var api := deletion.api;
    ghost var checked;
    ok, checked := deletion.CleanupCluster(cluster);
    ghost var r := api.run;
    var reconciled := api.world;
    api.Interfere();
    settled := Settles(api.cfg, reconciled, api.world);
    if api.cfg.calm {
      api.Since(old(api.run));
      NeverRaised(api.cfg, old(api.world), api.world);
      if ok && settled {
        api.Between(old(api.run), r);
        RoundLowers(api.cfg, old(api.world), reconciled, api.world);
      }
    }
  }

  lemma OnlyFinalizerCovers(l: seq<string>, name: string)
    requires HasOnlyFinalizer(l, name)
    ensures Elements(l) == {name}
  {
    HasOnlyFinalizerMeans(l, name);
  }

  /** A finalizer of ours that was there at the start still is, or the count of ours fell. */
  lemma GoneOrOwnFell(w: World, w': World)
    requires Fin(w') <= Fin(w)
    ensures forall f :: f in OWN && f in Fin(w) ==> f in Fin(w') || Own(w') < Own(w)
  {
    forall f | f in OWN && f in Fin(w) && f !in Fin(w') ensures Own(w') < Own(w) {
      assert f in Own(w) && f !in Own(w');
    }
  }

  lemma HitStays(w: World, w': World, w'': World)
    requires Calm(w', w'')
    ensures Hit(LoadBalancers(w), LoadBalancers(w'), w') ==> Hit(LoadBalancers(w), LoadBalancers(w''), w'')
    ensures Hit(Storage(w'), Storage(w''), w'') && Storage(w') <= Storage(w) ==> Hit(Storage(w), Storage(w''), w'')
  {
  }

  lemma BackupHitStays(w0: World, w: World, w': World, w'': World)
    requires Calm(w0, w) && Calm(w', w'') && Hit(Keys(w, BackupConfig), Keys(w', BackupConfig), w')
    ensures Hit(Keys(w0, BackupConfig), Keys(w'', BackupConfig), w'')
  {
  }

  /** If the copy lists nothing of ours but perhaps the credentials finalizer, and not just
      that one, then it lists somebody else's, or nothing at all.
   */
  lemma OthersLeft(cfg: Config, w: World, w': World, l: seq<string>)
    requires Fin(w') <= Elements(l) <= Fin(w)
    requires !HasAnyFinalizer(l, {LB, PV, CONSTRAINTS, NODES, BACKUPS}) && !HasOnlyFinalizer(l, CREDENTIALS)
    requires l == [] ==> Own(w) != {}
    ensures Work(cfg, w, w')
  {
    assert Own(w') <= {CREDENTIALS};
    HasOnlyFinalizerMeans(l, CREDENTIALS);
    if l == [] {
      assert Own(w') == {};
    } else {
      var i :| 0 <= i < |l| && l[i] != CREDENTIALS;
      assert l[i] in Elements(l) && l[i] in Foreign(w);
      assert Foreign(w') <= Foreign(w);
    }
  }

  /** With creation blocked, listing the claims and then the volumes misses nothing. */
  lemma StorageListed(w: World, w': World)
    requires Storage(w') <= Storage(w)
    ensures Storage(w') <= Keys(w, Claim) + Keys(w', Volume) <= Storage(w)
  {
    assert Keys(w', Volume) <= Storage(w');
  }

  /** What the two return values of the check come to, for every copy of the Cluster object and
      every course of events in a calm environment, when nothing inside the cluster is left. With
      an empty ledger a successful reconcile leaves the in-cluster finalizers dropped, so a UID
      that was never recorded is forgotten. With the return value as written it does so also
      whenever the ledger holds a UID whose event has not been published by the end of the
      reconcile.
   */
  method ReconcileWithoutServices(deletion: Deletion, cluster: Cluster) returns (ok: bool)
    requires deletion.api.Valid() && deletion.Covers(cluster) && deletion.api.cfg.calm
    requires NothingInside(deletion.api.world)
    modifies deletion.api, cluster
    ensures deletion.api.Valid() && old(deletion.api.run) <= deletion.api.run
    ensures Overall(old(deletion.api.faults), deletion.api.faults, ok)
    ensures ok && old(deletion.api.world.annotation) == "" ==> InClusterDone(deletion.api.world)
    ensures ok && deletion.api.cfg.rule.AsWritten? && !(Parse(old(deletion.api.world.annotation)) <= deletion.api.world.emitted) ==>
              InClusterDone(deletion.api.world)
  {
    ghost var checked;
    ok, checked := deletion.CleanupCluster(cluster);
    if ok && checked.Some? {
      UnpublishedMeansYes(deletion.api.cfg, checked.value, deletion.api.world.emitted);
    }
  }

  lemma UnpublishedMeansYes(cfg: Config, checked: Checked, emitted: set<string>)
    requires AsksEvents(cfg, checked.annotation, checked.asOf) ==> Parse(checked.annotation) * checked.confirmed <= emitted
    ensures checked.annotation == "" ==> SaysYes(cfg, checked)
    ensures cfg.rule.AsWritten? && !(Parse(checked.annotation) <= emitted) ==> SaysYes(cfg, checked)
  {
    if AsksEvents(cfg, checked.annotation, checked.asOf) && !(Parse(checked.annotation) <= emitted) {
      var uid :| uid in Parse(checked.annotation) && uid !in emitted;
      assert uid !in Parse(checked.annotation) * checked.confirmed;
      assert uid in Parse(checked.annotation) - checked.confirmed;
    }
  }

  /** The copy of the Cluster object that the cache serves: some version of it. */
  method CachedCluster(deletion: Deletion) returns (cluster: Cluster)
    requires deletion.api.Valid()
    ensures fresh(cluster) && deletion.Covers(cluster)
  {
    var api := deletion.api;
    var version: nat :| version <= |api.run|;
    var cached := State(api.init, api.run, version);
    cluster := new Cluster(cached.finalizers, cached.annotation);
    api.IsRun();
    RunEvolves(api.cfg, api.init, api.run, version, |api.run|);
  }

  /** The controller: reconciles again and again, each time on some version of the Cluster
      object that its cache serves. Whatever fails and whatever else happens, all that ever
      takes effect is a run in the sense of RunOk, in which every reconcile has its start.
   */
  method Controller(cfg: Config, init: World, reconciles: nat) returns (run: seq<Step>, starts: seq<nat>)
    requires WorldOk(init)
    ensures RunOk(cfg, init, run)
    ensures |starts| == reconciles && forall i :: 0 <= i < reconciles ==> starts[i] < |run| && run[starts[i]].action.Begin?
    ensures forall i, j :: 0 <= i < j < reconciles ==> starts[i] < starts[j]
  {
    var api := new Api(cfg, init);
    var deletion := new Deletion(api);
    starts := [];
    for i := 0 to reconciles
      invariant api.Valid() && api.cfg == cfg && api.init == init && deletion.api == api && fresh(api)
      invariant |starts| == i && forall j :: 0 <= j < i ==> starts[j] < |api.run| && api.run[starts[j]].action.Begin?
      invariant forall j, k :: 0 <= j < k < i ==> starts[j] < starts[k]
    {
      api.Interfere();
      var cluster := CachedCluster(deletion);
      starts := starts + [|api.run|];
      ghost var checked;
      var ok;
      ok, checked := deletion.CleanupCluster(cluster);
    }
    api.IsRun();
    run := api.run;
  }

  /** In a calm environment the Cluster object is gone after finitely many rounds, unless more
      than `budget` of them fail or are not followed by a rest.
   */
  method DeleteCluster(deletion: Deletion, budget: nat) returns (gone: bool, wasted: nat)
    requires deletion.api.Valid() && deletion.api.cfg.calm
    modifies deletion.api
    ensures deletion.api.Valid() && old(deletion.api.run) <= deletion.api.run
    ensures gone <==> deletion.api.world.finalizers == []
    ensures gone || wasted > budget
  {
    var api := deletion.api;
    wasted := 0;
    ghost var m := Rank(api.cfg, api.world);
    while api.world.finalizers != [] && wasted <= budget
      invariant api.Valid() && old(api.run) <= api.run && m == Rank(api.cfg, api.world)
      decreases m.own, m.unblocked, m.loadBalancers, m.storage, m.wait, m.backups,
                m.deployments, m.sets, m.machines, m.foreign, budget + 1 - wasted
    {
      var cluster := CachedCluster(deletion);
      var ok, settled := ReconcileAndRest(deletion, cluster);
      if !ok || !settled {
        wasted := wasted + 1;
      }
      m := Rank(api.cfg, api.world);
    }
    gone := api.world.finalizers == [];
  }
}

/** The API servers as the deletion code meets them: before every call the environment may
    have changed anything it can, and every call may fail, with or without having taken
    effect. Each call that took effect is recorded in `run`; calls that returned an error are
    counted in `faults`.
 */
module ClusterApi {
  import opened Locks
  import opened Options
  import opened StringSets
  import opened Webhooks
  import opened Clusters
  import opened DeletionWorld
  import opened DeletionRuns
  import opened DeletionProgress

  datatype ListResult = Items(items: map<Key, Object>) | NoMatch | ListFailed
  datatype DeleteResult = Deleted | NotFound | DeleteFailed
  datatype SecretResult = SecretFound | SecretNotFound | SecretFailed

  /** Errors returned so far: objects that were not found, kinds the server does not know, and all
      others.
   */
  datatype Faults = Faults(errors: nat, notFound: nat, noMatch: nat)

  /** One more error unless the call succeeded. */
  function Erred(f: Faults, ok: bool): Faults {
    f.(errors := f.errors + if ok then 0 else 1)
  }

  predicate NoFewer(f: Faults, f': Faults) {
    f.errors <= f'.errors && f.notFound <= f'.notFound && f.noMatch <= f'.noMatch
  }

  /** Success exactly when no call returned an error, except for those tolerated. */
  predicate ExactlyUnless(f: Faults, f': Faults, ok: bool, notFoundIsFine: bool, noMatchIsFine: bool) {
    && NoFewer(f, f')
    && (ok <==> f'.errors == f.errors && (notFoundIsFine || f'.notFound == f.notFound) && (noMatchIsFine || f'.noMatch == f.noMatch))
  }

  /** Success exactly when no call returned an error. */
  predicate Exactly(f: Faults, f': Faults, ok: bool) {
    ExactlyUnless(f, f', ok, false, false)
  }

  /** Success only without errors, apart from some that are tolerated on the way, and failure only
      because of one.
   */
  predicate Overall(f: Faults, f': Faults, ok: bool) {
    NoFewer(f, f') && (ok ==> f'.errors == f.errors) && (!ok ==> f' != f)
  }

  /** Since step `from` the object was seen gone or being deleted. */
  ghost predicate Handled(init: World, run: seq<Step>, from: nat, key: Key) {
    exists i :: from <= i <= |run| && HandledAt(init, run, i, key)
  }

  ghost predicate HandledAt(init: World, run: seq<Step>, i: nat, key: Key)
    requires i <= |run|
  {
    key !in State(init, run, i).objects || State(init, run, i).objects[key].deleting
  }

  /** Which of the listed objects the code deals with. */
  predicate Concerned(kind: Kind, o: Object) {
    match kind
    case Service => o.loadBalancer
    case Pod => true in o.claims
    case _ => true
  }

  /** Since step `from` the objects of a kind were listed, and all that matter were dealt with. */
  ghost predicate Swept(init: World, run: seq<Step>, from: nat, kind: Kind) {
    exists m :: from <= m < |run| && SweptAt(init, run, from, m, kind)
  }

  ghost predicate SweptAt(init: World, run: seq<Step>, from: nat, m: nat, kind: Kind)
    requires m < |run|
  {
    && run[m].action.Listed? && run[m].action.kind == kind
    && forall k :: k in run[m].action.items && Concerned(kind, run[m].action.items[k]) ==> Handled(init, run, from, k)
  }

  lemma SweptStays(init: World, run: seq<Step>, run': seq<Step>, from: nat, earlier: nat, kind: Kind)
    requires run <= run' && earlier <= from && Swept(init, run, from, kind)
    ensures Swept(init, run', earlier, kind)
  {
    var m :| from <= m < |run| && SweptAt(init, run, from, m, kind);
    var items := run[m].action.items;
    forall k | k in items && Concerned(kind, items[k]) ensures Handled(init, run', earlier, k) {
      HandledStays(init, run, run', from, k);
      var i :| from <= i <= |run'| && HandledAt(init, run', i, k);
    }
    assert SweptAt(init, run', earlier, m, kind);
  }

  /** At some point since step `from` the object was there. */
  ghost predicate WasThere(init: World, run: seq<Step>, from: nat, key: Key) {
    exists i :: from <= i <= |run| && key in State(init, run, i).objects
  }

  lemma WasThereStays(init: World, run: seq<Step>, run': seq<Step>, from: nat, key: Key)
    requires run <= run' && WasThere(init, run, from, key)
    ensures WasThere(init, run', from, key)
  {
    var i :| from <= i <= |run| && key in State(init, run, i).objects;
    assert State(init, run', i) == State(init, run, i);
  }

  lemma HandledStays(init: World, run: seq<Step>, run': seq<Step>, from: nat, key: Key)
    requires run <= run' && Handled(init, run, from, key)
    ensures Handled(init, run', from, key)
  {
    var i :| from <= i <= |run| && HandledAt(init, run, i, key);
    assert State(init, run', i) == State(init, run, i);
    assert HandledAt(init, run', i, key);
  }

  /** An object that was dealt with is, in a calm environment, gone for good or about to go. */
  lemma HandledIsHit(cfg: Config, init: World, run: seq<Step>, from: nat, key: Key)
    requires cfg.calm && RunOk(cfg, init, run) && from <= |run| && Handled(init, run, from, key)
    ensures var w, w' := State(init, run, from), State(init, run, |run|);
      && (key in LoadBalancers(w) ==> Hit(LoadBalancers(w), LoadBalancers(w'), w'))
      && (Blocks(w) && key in Storage(w) ==> Hit(Storage(w), Storage(w'), w'))
      && (key in Keys(w, BackupConfig) ==> Hit(Keys(w, BackupConfig), Keys(w', BackupConfig), w'))
      && (key in Keys(w, MachineDeployment) ==> Hit(Keys(w, MachineDeployment), Keys(w', MachineDeployment), w'))
      && (key in Keys(w, MachineSet) && Keys(w, MachineDeployment) == {} ==> Hit(Keys(w, MachineSet), Keys(w', MachineSet), w'))
      && (key in Keys(w, Machine) && Keys(w, MachineDeployment) == {} && Keys(w, MachineSet) == {} ==>
            Hit(Keys(w, Machine), Keys(w', Machine), w'))
  {
    var i :| from <= i <= |run| && HandledAt(init, run, i, key);
    RunEvolves(cfg, init, run, from, i);
    RunEvolves(cfg, init, run, i, |run|);
  }

  /** What stays as it is while a reconcile goes on. */
  predicate Kept(w: World, w': World) {
    && Fin(w') <= Fin(w)
    && w.emitted <= w'.emitted
    && w.now <= w'.now
    && (Blocks(w) ==> Blocks(w') && Storage(w') <= Storage(w))
  }

  /** The same, as long as the ledger is not rewritten. */
  predicate Moved(w: World, w': World) {
    Kept(w, w') && w'.annotation == w.annotation
  }

  lemma KeptTransitive(w: World, w': World, w'': World)
    requires Kept(w, w') && Kept(w', w'')
    ensures Kept(w, w'')
  {
  }

  /** What permits a call goes on permitting it while the environment moves. */
  lemma PermissionsAreStable(cfg: Config, seen: Seen, w: World, w': World)
    requires Moved(w, w')
    ensures forall key :: MayDelete(cfg, seen, w, key) ==> MayDelete(cfg, seen, w', key)
    ensures forall f :: MayRemove(cfg, seen, w, f) ==> MayRemove(cfg, seen, w', f)
    ensures forall a :: MayRewrite(seen, w, a) ==> MayRewrite(seen, w', a)
  {
    forall key | MayDelete(cfg, seen, w, key) ensures MayDelete(cfg, seen, w', key) {
    }
  }

  /** A merge patch replaces what differs between the object as it was read and as it is now. */
  function Patched(w: World, finalizers: seq<string>, oldFinalizers: seq<string>, annotation: string, oldAnnotation: string): World {
    w.(finalizers := if finalizers != oldFinalizers then finalizers else w.finalizers,
       annotation := if annotation != oldAnnotation then annotation else w.annotation)
  }

  /** The API server refuses to add a finalizer. */
  predicate Refused(w: World, finalizers: seq<string>, oldFinalizers: seq<string>) {
    finalizers != oldFinalizers && !(Elements(finalizers) <= Fin(w))
  }

  /** When a patch may be sent: it drops only what may go, from a list that misses nothing
      stored, and rewrites only a ledger that is the stored one.
   */
  ghost predicate MayPatch(cfg: Config, seen: Seen, w: World, finalizers: seq<string>, oldFinalizers: seq<string>,
                           annotation: string, oldAnnotation: string) {
    && Elements(finalizers) <= Elements(oldFinalizers) && Fin(w) <= Elements(oldFinalizers)
    && (forall f :: f in Elements(oldFinalizers) - Elements(finalizers) && f in Fin(w) ==> MayRemove(cfg, seen, w, f))
    && (annotation != oldAnnotation ==>
          && oldAnnotation == w.annotation && MayRewrite(seen, w, annotation)
          && forall uid :: uid in Parse(annotation) ==> IsUid(uid))
  }

  lemma MayPatchIsStable(cfg: Config, seen: Seen, w: World, w': World, finalizers: seq<string>, oldFinalizers: seq<string>,
                         annotation: string, oldAnnotation: string)
    requires Moved(w, w') && MayPatch(cfg, seen, w, finalizers, oldFinalizers, annotation, oldAnnotation)
    ensures MayPatch(cfg, seen, w', finalizers, oldFinalizers, annotation, oldAnnotation)
  {
    PermissionsAreStable(cfg, seen, w, w');
  }

  lemma PatchIsAllowed(cfg: Config, seen: Seen, w: World, finalizers: seq<string>, oldFinalizers: seq<string>,
                       annotation: string, oldAnnotation: string)
    requires WorldOk(w) && w.finalizers != [] && !Refused(w, finalizers, oldFinalizers)
    requires MayPatch(cfg, seen, w, finalizers, oldFinalizers, annotation, oldAnnotation)
    ensures var w' := Patched(w, finalizers, oldFinalizers, annotation, oldAnnotation);
            && StepOk(cfg, seen, Step(w, Patch, w')) && Kept(w, w')
            && Fin(w') <= Elements(finalizers)
            && (w'.finalizers == [] ==> Fin(w) * OWN != {})
  {
    var w' := Patched(w, finalizers, oldFinalizers, annotation, oldAnnotation);
    assert Fin(w') <= Fin(w);
    var f := w.finalizers[0];
    assert f in Fin(w);
    assert w'.finalizers == [] ==> MayRemove(cfg, seen, w, f) && f in Fin(w) * OWN;
  }

  class Api {
    const cfg: Config
    const init: World
    var world: World
    var run: seq<Step>
    ghost var seen: Seen
    ghost var faults: Faults

    ghost predicate Valid()
      reads this
    {
      world == State(init, run, |run|) && RunTo(cfg, init, run, world, seen)
    }

    lemma IsRun()
      requires Valid()
      ensures RunOk(cfg, init, run) && seen == SeenIn(run)
    {
      assert Unlocks(0);
    }

    constructor (cfg: Config, init: World)
      requires WorldOk(init)
      ensures Valid() && this.cfg == cfg && this.init == init && run == []
    {
      this.cfg, this.init, this.world, this.run, this.seen := cfg, init, init, [], NOTHING_SEEN;
      this.faults := Faults(0, 0, 0);
    }

    lemma Since(earlier: seq<Step>)
      requires Valid() && earlier <= run
      ensures WorldOk(world) && WorldOk(State(init, earlier, |earlier|))
      ensures Evolves(cfg, State(init, earlier, |earlier|), world)
    {
      IsRun();
      RunEvolves(cfg, init, run, |earlier|, |run|);
      assert State(init, run, |earlier|) == State(init, earlier, |earlier|);
    }

    lemma LoadBalancerHit(earlier: seq<Step>, key: Key)
      requires Valid() && earlier <= run && cfg.calm && Handled(init, run, |earlier|, key)
      requires var w := State(init, earlier, |earlier|); key in LoadBalancers(w)
      ensures Hit(LoadBalancers(State(init, earlier, |earlier|)), LoadBalancers(world), world)
    {
      IsRun();
      assert State(init, run, |earlier|) == State(init, earlier, |earlier|);
      HandledIsHit(cfg, init, run, |earlier|, key);
    }

    lemma StorageHit(earlier: seq<Step>, keys: set<Key>)
      requires Valid() && earlier <= run && cfg.calm && Blocks(State(init, earlier, |earlier|))
      requires keys != {} && keys <= Storage(State(init, earlier, |earlier|))
      requires forall k :: k in keys ==> Handled(init, run, |earlier|, k)
      ensures Hit(Storage(State(init, earlier, |earlier|)), Storage(world), world)
    {
      IsRun();
      assert State(init, run, |earlier|) == State(init, earlier, |earlier|);
      var key :| key in keys;
      HandledIsHit(cfg, init, run, |earlier|, key);
    }

    lemma BackupHit(earlier: seq<Step>, key: Key)
      requires Valid() && earlier <= run && cfg.calm && key.kind.BackupConfig?
      requires Handled(init, run, |earlier|, key) && WasThere(init, run, |earlier|, key)
      ensures Hit(Keys(State(init, earlier, |earlier|), BackupConfig), Keys(world, BackupConfig), world)
    {
      IsRun();
      assert State(init, run, |earlier|) == State(init, earlier, |earlier|);
      var i :| |earlier| <= i <= |run| && key in State(init, run, i).objects;
      RunEvolves(cfg, init, run, |earlier|, i);
      assert key in Keys(State(init, run, i), BackupConfig);
      HandledIsHit(cfg, init, run, |earlier|, key);
    }

    lemma MachineHit(earlier: seq<Step>, key: Key)
      requires Valid() && earlier <= run && cfg.calm && Handled(init, run, |earlier|, key)
      requires var w := State(init, earlier, |earlier|);
        || key in Keys(w, MachineDeployment)
        || (Keys(w, MachineDeployment) == {} && (key in Keys(w, MachineSet) || (Keys(w, MachineSet) == {} && key in Keys(w, Machine))))
      ensures MachineWork(State(init, earlier, |earlier|), world)
    {
      IsRun();
      assert State(init, run, |earlier|) == State(init, earlier, |earlier|);
      HandledIsHit(cfg, init, run, |earlier|, key);
    }

    /** Between any two points of the run so far. */
    lemma Between(earlier: seq<Step>, later: seq<Step>)
      requires Valid() && earlier <= later <= run
      ensures Evolves(cfg, State(init, earlier, |earlier|), State(init, later, |later|))
    {
      IsRun();
      RunEvolves(cfg, init, run, |earlier|, |later|);
      assert State(init, run, |earlier|) == State(init, earlier, |earlier|);
      assert State(init, run, |later|) == State(init, later, |later|);
    }

    lemma MachineWorkSince(earlier: seq<Step>, later: seq<Step>)
      requires Valid() && earlier <= later <= run && cfg.calm
      requires MachineWork(State(init, later, |later|), world)
      ensures MachineWork(State(init, earlier, |earlier|), world)
    {
      Between(earlier, later);
      Since(later);
      MachineWorkFromEarlier(State(init, earlier, |earlier|), State(init, later, |later|), world);
    }

    lemma WorkSince(earlier: seq<Step>, later: seq<Step>)
      requires Valid() && earlier <= later <= run && cfg.calm
      requires Work(cfg, State(init, later, |later|), world)
      ensures Work(cfg, State(init, earlier, |earlier|), world)
    {
      Between(earlier, later);
      Since(later);
      WorkFromEarlier(cfg, State(init, earlier, |earlier|), State(init, later, |later|), world);
    }

    lemma OwnFell(earlier: seq<Step>, f: string)
      requires Valid() && earlier <= run && f in OWN
      requires f in Fin(State(init, earlier, |earlier|)) && f !in Fin(world)
      ensures Work(cfg, State(init, earlier, |earlier|), world)
    {
      Since(earlier);
      assert f in Own(State(init, earlier, |earlier|)) && f !in Own(world);
    }

    method Record(action: Action, post: World)
      requires Valid() && StepOk(cfg, seen, Step(world, action, post))
      modifies this
      ensures Valid() && run == old(run) + [Step(old(world), action, post)] && world == post
      ensures seen == Observe(old(seen), action) && faults == old(faults)
    {
      var step := Step(world, action, post);
      IsRun();
      RunExtended(cfg, init, run, step);
      run, world, seen := run + [step], post, Observe(seen, action);
    }

    /** Everybody else moves. */
    method Interfere()
      requires Valid()
      modifies this
      ensures Valid() && run == old(run) + [Step(old(world), Environment, world)]
      ensures seen == old(seen) && faults == old(faults) && Env(cfg, old(world), world)
    {
      Since(run);
      EvolvesReflexive(cfg, world);
      var w :| Env(cfg, world, w);
      Record(Environment, w);
    }

    method StartReconcile()
      requires Valid()
      modifies this
      ensures Valid() && run == old(run) + [Step(old(world), Begin, world)]
      ensures seen == NOTHING_SEEN && world == old(world) && faults == old(faults)
    {
      Record(Begin, world);
    }

    /** A client for the user cluster may be unavailable at any time. */
    method UserClusterClient() returns (ok: bool)
      modifies this`faults
      ensures faults == Erred(old(faults), ok)
    {
      ok := *;
      faults := Erred(faults, ok);
    }

    method List(kind: Kind) returns (r: ListResult)
      requires Valid()
      modifies this
      ensures Valid() && old(run) <= run && Moved(old(world), world)
      ensures r.Items? ==>
        && seen == SawListing(old(seen), kind, r.items)
        && (!kind.BackupConfig? ==> r.items == Of(world, kind))
        && (forall k :: k in r.items ==> k.kind == kind)
        && |run| > |old(run)| && run[|run| - 1].action == Listed(kind, r.items)
      ensures r.NoMatch? ==> seen == SawListing(old(seen), kind, map[]) && Of(world, kind) == map[]
      ensures r.ListFailed? ==> seen == old(seen)
      ensures faults == match r
                        case Items(_) => old(faults)
                        case ListFailed => Erred(old(faults), false)
                        case NoMatch => old(faults).(noMatch := old(faults).noMatch + 1)
    {
      Interfere();
      var fails: bool := *;
      if fails {
        faults := Erred(faults, false);
        return ListFailed;
      }
      var served: bool := *;
      if !served && Of(world, kind) == map[] {
        Record(Listed(kind, map[]), world);
        faults := faults.(noMatch := faults.noMatch + 1);
        return NoMatch;
      }
      var items := Of(world, kind);
      if kind.BackupConfig? {
        // served from a cache that may lag behind
        items :| forall k :: k in items.Keys ==> k.kind == kind;
      }
      Record(Listed(kind, items), world);
      return Items(items);
    }

    method Delete(key: Key) returns (r: DeleteResult)
      requires Valid() && MayDelete(cfg, seen, world, key)
      modifies this
      ensures Valid() && old(run) <= run && Moved(old(world), world) && NoPatch(run, |old(run)|)
      ensures seen == old(seen) || (key.kind.Secret? && seen == old(seen).(secretSettled := true))
      ensures !r.DeleteFailed? ==> Handled(init, run, |old(run)|, key)
      ensures r.Deleted? ==> WasThere(init, run, |old(run)|, key) && |run| > |old(run)| && run[|run| - 1].action == DeletionRuns.Delete(key)
      ensures r.Deleted? && key.kind.Secret? ==> seen == old(seen).(secretSettled := true)
      ensures faults == match r
                        case Deleted => old(faults)
                        case DeleteFailed => Erred(old(faults), false)
                        case NotFound => old(faults).(notFound := old(faults).notFound + 1)
    {
      Interfere();
      PermissionsAreStable(cfg, seen, old(world), world);
      var fails: bool := *;
      if fails {
        faults := Erred(faults, false);
        return DeleteFailed;
      }
      if key !in world.objects {
        assert HandledAt(init, run, |run|, key);
        faults := faults.(notFound := faults.notFound + 1);
        return NotFound;
      }
      assert key in State(init, run, |run|).objects;
      ghost var before := run;
      var immediate: bool := *;
      Record(DeletionRuns.Delete(key), if immediate then Removed(world, key) else Marked(world, key));
      assert HandledAt(init, run, |run|, key);
      assert State(init, run, |before|) == State(init, before, |before|);
      var lost: bool := *;
      faults := Erred(faults, !lost);
      return if lost then DeleteFailed else Deleted;
    }

    method DeleteAllConstraints() returns (ok: bool)
      requires Valid()
      modifies this
      ensures Valid() && old(run) <= run && Moved(old(world), world)
      ensures ok ==> seen == old(seen).(constraintsCleared := true)
      ensures faults == Erred(old(faults), ok)
    {
      Interfere();
      var fails: bool := *;
      if fails {
        faults := Erred(faults, false);
        return false;
      }
      assert ConstraintsCleared(world.objects, NoConstraints(world.objects));
      var after :| ConstraintsCleared(world.objects, after);
      Record(DeleteConstraints, world.(objects := after));
      Since(old(run));
      ok := *;
      faults := Erred(faults, ok);
    }

    function NoConstraints(objects: map<Key, Object>): map<Key, Object> {
      map k | k in objects && !k.kind.Constraint? :: objects[k]
    }

    /** `EnsureNamedObject` for the blocking webhook: create it, or update it if it differs. */
    method EnsureWebhook() returns (ok: bool)
      requires Valid() && seen.constraintsCleared
      modifies this
      ensures Valid() && old(run) <= run && Moved(old(world), world) && seen == old(seen)
      ensures ok ==> Blocks(world)
      ensures faults == Erred(old(faults), ok)
    {
      Interfere();
      var fails: bool := *;
      if fails {
        faults := Erred(faults, false);
        return false;
      }
      var existing := Existing(world);
      var vwc := new Configuration(existing);
      vwc.PreventCreation("", VOLUME_RESOURCES);
      BlocksVolumesExactly(existing);
      if world.webhook == Some(vwc.Value()) {
        return true;
      }
      Record(InstallWebhook, world.(webhook := Some(vwc.Value())));
      ok := *;
      faults := Erred(faults, ok);
    }

    method PatchSkipEviction(key: Key) returns (ok: bool)
      requires Valid() && key.kind.Node? && ListedIn(seen, key) && InClusterDone(world)
      modifies this
      ensures Valid() && old(run) <= run && Moved(old(world), world)
      ensures seen == if ok then old(seen).(evictionOff := old(seen).evictionOff + {key}) else old(seen)
      ensures faults == Erred(old(faults), ok)
    {
      Interfere();
      ok := *;
      if ok && key in world.objects {
        Record(SkipEviction(key), world.(objects := world.objects[key := world.objects[key].(skipEviction := true)]));
      } else {
        ok := false;
      }
      faults := Erred(faults, ok);
      Since(old(run));
    }

    /** The reasons of the events about a service; events may have expired. */
    method ListEvents(uid: string) returns (ok: bool, reasons: seq<string>)
      requires Valid()
      modifies this
      ensures Valid() && old(run) <= run && Moved(old(world), world)
      ensures seen == if ok then SawEvents(old(seen), uid, DELETED_LOAD_BALANCER in reasons) else old(seen)
      ensures ok && DELETED_LOAD_BALANCER in reasons ==> uid in world.emitted
      ensures faults == Erred(old(faults), ok)
    {
      Interfere();
      ok := *;
      reasons := *;
      if DELETED_LOAD_BALANCER in reasons && uid !in world.emitted {
        reasons := [];
      }
      if ok {
        Record(ListedEvents(uid, reasons), world);
      }
      faults := Erred(faults, ok);
    }

    method Now() returns (t: int)
      requires Valid()
      modifies this
      ensures Valid() && old(run) <= run && seen == old(seen) && faults == old(faults)
      ensures Moved(old(world), world) && t == world.now
    {
      Interfere();
      t := world.now;
    }

    /** Reads the annotation of some version of the Cluster object, as a lister does. */
    method GetCachedAnnotation() returns (ok: bool, annotation: string)
      requires Valid()
      modifies this
      ensures Valid() && old(run) <= run && |run| == |old(run)| + 2 && NoPatch(run, |old(run)|)
      ensures Moved(old(world), world) && seen == old(seen).(cached := Some(annotation))
      ensures exists i :: 0 <= i <= |run| && annotation == State(init, run, i).annotation
      ensures faults == Erred(old(faults), ok)
    {
      Interfere();
      var i: nat :| i <= |run|;
      ok := *;
      annotation := State(init, run, i).annotation;
      ghost var before := run;
      Record(ReadCluster(annotation), world);
      assert State(init, run, i) == State(init, before, i);
      faults := Erred(faults, ok);
    }

    method GetSecret() returns (r: SecretResult)
      requires Valid() && Fin(world) <= {CREDENTIALS}
      modifies this
      ensures Valid() && old(run) <= run && Moved(old(world), world)
      ensures r.SecretNotFound? ==> seen == old(seen).(secretSettled := true)
      ensures !r.SecretNotFound? ==> seen == old(seen)
      ensures faults == Erred(old(faults), !r.SecretFailed?)
    {
      Interfere();
      r := *;
      if r.SecretNotFound? {
        Record(SecretMissing, world);
      }
      faults := Erred(faults, !r.SecretFailed?);
    }

    method MarkTracked(uid: string)
      requires Valid() && uid in Parse(world.annotation) && seen.cached.Some? && uid in Parse(seen.cached.value)
      modifies this
      ensures Valid() && run == old(run) + [Step(world, Tracked(uid), world)]
      ensures world == old(world) && seen == old(seen) && faults == old(faults)
    {
      Record(Tracked(uid), world);
    }

    method MarkChecked(remaining: set<string>)
      requires Valid() && Guard(cfg, seen, world, CheckedEvents(remaining), world)
      modifies this
      ensures Valid() && old(run) <= run && world == old(world) && faults == old(faults)
      ensures seen == old(seen).(remaining := Some(remaining))
    {
      Record(CheckedEvents(remaining), world);
    }

    /** A merge patch of the Cluster object: the difference between the object as it was read
        (`oldFinalizers`, `oldAnnotation`) and as it is now. A changed finalizer list replaces
        the stored one whole, unless that would add a finalizer, which the API server refuses.
        On success the in-memory object takes over what the server stored.
     */
    method PatchCluster(cluster: Cluster, oldFinalizers: seq<string>, oldAnnotation: string) returns (ok: bool)
      requires Valid() && MayPatch(cfg, seen, world, cluster.finalizers, oldFinalizers, cluster.annotation, oldAnnotation)
      modifies this, cluster
      ensures Valid() && old(run) < run && Kept(old(world), world)
      ensures seen == old(seen) && faults == Erred(old(faults), ok)
      ensures if run[|run| - 1].action.Patch?
              then world.annotation == if old(cluster.annotation) != oldAnnotation then old(cluster.annotation) else old(world).annotation
              else world.annotation == old(world).annotation && NoPatch(run, |old(run)|)
      ensures ok ==> run[|run| - 1].action.Patch? && Fin(world) <= old(Elements(cluster.finalizers))
      ensures ok && old(cluster.finalizers) != oldFinalizers ==> world.finalizers == old(cluster.finalizers)
      ensures ok ==> cluster.finalizers == world.finalizers && cluster.annotation == world.annotation
      ensures !ok ==> cluster.finalizers == old(cluster.finalizers) && cluster.annotation == old(cluster.annotation)
      ensures ok && world.finalizers == [] ==> Fin(old(world)) * OWN != {}
    {
      Interfere();
      MayPatchIsStable(cfg, seen, old(world), world, cluster.finalizers, oldFinalizers, cluster.annotation, oldAnnotation);
      ok := *;
      if !ok || world.finalizers == [] || Refused(world, cluster.finalizers, oldFinalizers) {
        faults := Erred(faults, false);
        return false;
      }
      Since(run);
      PatchIsAllowed(cfg, seen, world, cluster.finalizers, oldFinalizers, cluster.annotation, oldAnnotation);
      Record(Patch, Patched(world, cluster.finalizers, oldFinalizers, cluster.annotation, oldAnnotation));
      ok := *;
      faults := Erred(faults, ok);
      if ok {
        cluster.finalizers, cluster.annotation := world.finalizers, world.annotation;
      }
    }
  }
}

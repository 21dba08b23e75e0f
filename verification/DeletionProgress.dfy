/** Why cluster deletion finishes: a lexicographic measure that no step raises in a calm
    environment and that every successful reconcile, followed by a moment in which requested
    deletions complete, lowers until no finalizer is left.
 */
module DeletionProgress {
  import opened DeletionWorld

  function Own(w: World): set<string> {
    Fin(w) * OWN
  }

  function Foreign(w: World): set<string> {
    Fin(w) - OWN
  }

  /** Some object of the first set is gone from the second, or about to go. */
  ghost predicate Hit(a: set<Key>, b: set<Key>, w': World) {
    exists k :: k in a && (k !in b || (k in w'.objects && w'.objects[k].deleting))
  }

  ghost predicate MachineWork(w: World, w': World) {
    || Hit(Keys(w, MachineDeployment), Keys(w', MachineDeployment), w')
    || (Keys(w, MachineDeployment) == {} &&
        (|| Hit(Keys(w, MachineSet), Keys(w', MachineSet), w')
         || (Keys(w, MachineSet) == {} && Hit(Keys(w, Machine), Keys(w', Machine), w'))))
  }

  ghost predicate InClusterWork(cfg: Config, w: World, w': World) {
    || (PV in Fin(w') && !Blocks(w) && Blocks(w'))
    || (LB in Fin(w') && Hit(LoadBalancers(w), LoadBalancers(w'), w'))
    || (PV in Fin(w') && Blocks(w) && Hit(Storage(w), Storage(w'), w'))
    || ((LB in Fin(w') || PV in Fin(w')) && cfg.inTreeProvider && w.now <= cfg.Deadline())
  }

  ghost predicate BackupWork(w: World, w': World) {
    BACKUPS in Fin(w') && Hit(Keys(w, BackupConfig), Keys(w', BackupConfig), w')
  }

  predicate ForeignWork(w: World, w': World) {
    Own(w') <= {CREDENTIALS} && (Foreign(w') != {} || Foreign(w') < Foreign(w))
  }

  /** What a successful reconcile from w to w' has achieved: at least one of these. */
  ghost predicate Work(cfg: Config, w: World, w': World) {
    || Own(w') < Own(w)
    || InClusterWork(cfg, w, w')
    || BackupWork(w, w')
    || (NODES in Fin(w') && MachineWork(w, w'))
    || ForeignWork(w, w')
  }

  /** A moment of rest after a reconcile: the clock moves on, everything whose deletion was
      requested is gone, and once only the credentials finalizer is left of ours, other
      controllers drop at least one of theirs.
   */
  predicate Settles(cfg: Config, w: World, w': World) {
    && Evolves(cfg, w, w')
    && w.now < w'.now
    && (forall k :: k in w.objects && w.objects[k].deleting && k.kind !in {Pod, Node} ==> k !in w'.objects)
    && (Own(w) <= {CREDENTIALS} && Foreign(w) != {} ==> Foreign(w') < Foreign(w))
  }

  /** Work counts from any earlier world of the same reconcile. */
  lemma WorkFromEarlier(cfg: Config, w0: World, w: World, w': World)
    requires cfg.calm && Evolves(cfg, w0, w) && Evolves(cfg, w, w') && Work(cfg, w, w')
    ensures Work(cfg, w0, w')
  {
    if InClusterWork(cfg, w, w') {
      InClusterWorkFromEarlier(cfg, w0, w, w');
    } else if BackupWork(w, w') {
      HitFromEarlier(Keys(w0, BackupConfig), Keys(w, BackupConfig), Keys(w', BackupConfig), w');
    } else if NODES in Fin(w') && MachineWork(w, w') {
      MachineWorkFromEarlier(w0, w, w');
    } else {
      OthersFromEarlier(w0, w, w');
    }
  }

  lemma HitFromEarlier(a0: set<Key>, a: set<Key>, b: set<Key>, w': World)
    requires a <= a0 && Hit(a, b, w')
    ensures Hit(a0, b, w')
  {
  }

  lemma OthersFromEarlier(w0: World, w: World, w': World)
    requires Fin(w) <= Fin(w0) && (Own(w') < Own(w) || ForeignWork(w, w'))
    ensures Own(w') < Own(w0) || ForeignWork(w0, w')
  {
    assert Own(w) <= Own(w0) && Foreign(w) <= Foreign(w0);
  }

  lemma InClusterWorkFromEarlier(cfg: Config, w0: World, w: World, w': World)
    requires LoadBalancers(w) <= LoadBalancers(w0) && w0.now <= w.now
    requires Blocks(w0) ==> Blocks(w) && Storage(w) <= Storage(w0)
    requires Blocks(w) ==> Blocks(w')
    requires InClusterWork(cfg, w, w')
    ensures InClusterWork(cfg, w0, w')
  {
    if LB in Fin(w') && Hit(LoadBalancers(w), LoadBalancers(w'), w') {
      HitFromEarlier(LoadBalancers(w0), LoadBalancers(w), LoadBalancers(w'), w');
    } else if PV in Fin(w') && Blocks(w) && Hit(Storage(w), Storage(w'), w') && Blocks(w0) {
      HitFromEarlier(Storage(w0), Storage(w), Storage(w'), w');
    }
  }

  lemma MachineWorkFromEarlier(w0: World, w: World, w': World)
    requires Calm(w0, w) && Calm(w, w') && MachineWork(w, w')
    ensures MachineWork(w0, w')
  {
    if k :| k in Keys(w0, MachineDeployment) && k !in Keys(w, MachineDeployment) {
      assert k !in Keys(w', MachineDeployment);
    } else {
      assert Keys(w0, MachineDeployment) == Keys(w, MachineDeployment);
      if Keys(w, MachineDeployment) == {} {
        if k :| k in Keys(w0, MachineSet) && k !in Keys(w, MachineSet) {
          assert k !in Keys(w', MachineSet);
        } else {
          assert Keys(w0, MachineSet) == Keys(w, MachineSet);
        }
      }
    }
  }

  // ----- the measure

  datatype Measure = Measure(
    own: nat, unblocked: nat, loadBalancers: nat, storage: nat, wait: nat, backups: nat,
    deployments: nat, sets: nat, machines: nat, foreign: nat)

  function Bit(b: bool): nat {
    if b then 1 else 0
  }

  function When(b: bool, n: nat): nat {
    if b then n else 0
  }

  function Rank(cfg: Config, w: World): Measure {
    var noDeployments := Keys(w, MachineDeployment) == {};
    var left := cfg.Deadline() + 1 - w.now;
    Measure(
      |Own(w)|,
      Bit(PV in Fin(w) && !Blocks(w)),
      When(LB in Fin(w), |LoadBalancers(w)|),
      When(PV in Fin(w) && Blocks(w), |Storage(w)|),
      When((LB in Fin(w) || PV in Fin(w)) && cfg.inTreeProvider && left > 0, if left > 0 then left else 0),
      When(BACKUPS in Fin(w), |Keys(w, BackupConfig)|),
      When(NODES in Fin(w), |Keys(w, MachineDeployment)|),
      When(NODES in Fin(w) && noDeployments, |Keys(w, MachineSet)|),
      When(NODES in Fin(w) && noDeployments && Keys(w, MachineSet) == {}, |Keys(w, Machine)|),
      |Foreign(w)|)
  }

  /** The lexicographic order on measures. */
  predicate Below(a: Measure, b: Measure) {
    || a.own < b.own
    || (a.own == b.own && (
        || a.unblocked < b.unblocked
        || (a.unblocked == b.unblocked && (
            || a.loadBalancers < b.loadBalancers
            || (a.loadBalancers == b.loadBalancers && (
                || a.storage < b.storage
                || (a.storage == b.storage && (
                    || a.wait < b.wait
                    || (a.wait == b.wait && (
                        || a.backups < b.backups
                        || (a.backups == b.backups && BelowMachines(a, b))))))))))))
  }

  predicate BelowMachines(a: Measure, b: Measure) {
    || a.deployments < b.deployments
    || (a.deployments == b.deployments && (
        || a.sets < b.sets
        || (a.sets == b.sets && (
            || a.machines < b.machines
            || (a.machines == b.machines && a.foreign < b.foreign)))))
  }

  predicate NotAbove(a: Measure, b: Measure) {
    a == b || Below(a, b)
  }

  lemma Fewer<T>(a: set<T>, b: set<T>)
    requires b <= a
    ensures |b| <= |a|
    ensures b != a ==> |b| < |a|
  {
    assert a == b + (a - b);
  }

  /** Nothing that happens in a calm environment raises the measure. */
  lemma NeverRaised(cfg: Config, w: World, w': World)
    requires cfg.calm && Evolves(cfg, w, w')
    ensures NotAbove(Rank(cfg, w'), Rank(cfg, w))
  {
    Fewer(Own(w), Own(w'));
    if Own(w') == Own(w) {
      InClusterNeverRaised(cfg, w, w');
      MachinesNeverRaised(cfg, w, w');
    }
  }

  lemma InClusterNeverRaised(cfg: Config, w: World, w': World)
    requires cfg.calm && Evolves(cfg, w, w') && Own(w') == Own(w)
    ensures var a, b := Rank(cfg, w'), Rank(cfg, w);
            && a.unblocked <= b.unblocked && a.loadBalancers <= b.loadBalancers
            && (a.unblocked == b.unblocked ==> a.storage <= b.storage)
            && a.wait <= b.wait && a.backups <= b.backups
  {
    SameGates(w, w');
    Fewer(LoadBalancers(w), LoadBalancers(w'));
    if Blocks(w) {
      Fewer(Storage(w), Storage(w'));
    }
    Fewer(Keys(w, BackupConfig), Keys(w', BackupConfig));
  }

  lemma SameGates(w: World, w': World)
    requires Own(w') == Own(w)
    ensures forall f :: f in OWN ==> (f in Fin(w') <==> f in Fin(w))
  {
    forall f | f in OWN ensures f in Fin(w') <==> f in Fin(w) {
      assert f in Own(w') <==> f in Own(w);
    }
  }

  lemma MachinesNeverRaised(cfg: Config, w: World, w': World)
    requires Calm(w, w') && Fin(w') <= Fin(w) && Own(w') == Own(w)
    ensures var a, b := Rank(cfg, w'), Rank(cfg, w);
            BelowMachines(a, b) ||
            (a.deployments == b.deployments && a.sets == b.sets && a.machines == b.machines && a.foreign == b.foreign)
  {
    SameGates(w, w');
    Fewer(Keys(w, MachineDeployment), Keys(w', MachineDeployment));
    Fewer(Foreign(w), Foreign(w'));
    if Keys(w, MachineDeployment) == {} {
      Fewer(Keys(w, MachineSet), Keys(w', MachineSet));
      if Keys(w, MachineSet) == {} {
        Fewer(Keys(w, Machine), Keys(w', Machine));
      }
    }
  }

  /** What was hit is gone once the world has settled. */
  lemma HitIsGone(cfg: Config, a: set<Key>, b: set<Key>, c: set<Key>, w': World, w'': World)
    requires Hit(a, b, w') && c <= b <= a
    requires Settles(cfg, w', w'')
    requires c <= w''.objects.Keys && forall k :: k in a ==> k.kind !in {Pod, Node}
    ensures |c| < |a|
  {
    var k :| k in a && (k !in b || (k in w'.objects && w'.objects[k].deleting));
    assert k !in c;
    Fewer(a, c);
  }

  /** One round, a successful reconcile from w to w' and a rest until w'', lowers the measure. */
  lemma RoundLowers(cfg: Config, w: World, w': World, w'': World)
    requires cfg.calm && Evolves(cfg, w, w') && Work(cfg, w, w') && Settles(cfg, w', w'')
    ensures Below(Rank(cfg, w''), Rank(cfg, w))
  {
    EnvTransitive(cfg, w, w', w'');
    NeverRaised(cfg, w, w'');
    RankChanges(cfg, w, w', w'');
  }

  lemma RankChanges(cfg: Config, w: World, w': World, w'': World)
    requires cfg.calm && Evolves(cfg, w, w') && Work(cfg, w, w') && Settles(cfg, w', w'')
    ensures Rank(cfg, w'') != Rank(cfg, w)
  {
    Fewer(Own(w), Own(w''));
    if Own(w'') == Own(w) {
      assert Own(w') == Own(w);
      if InClusterWork(cfg, w, w') {
        InClusterLowered(cfg, w, w', w'');
      } else if BackupWork(w, w') {
        BackupsLowered(cfg, w, w', w'');
      } else if ForeignWork(w, w') {
        ForeignLowered(cfg, w, w', w'');
      } else {
        MachinesLowered(cfg, w, w', w'');
      }
    }
  }

  lemma InClusterLowered(cfg: Config, w: World, w': World, w'': World)
    requires cfg.calm && Evolves(cfg, w, w') && Settles(cfg, w', w'') && InClusterWork(cfg, w, w')
    requires Own(w'') == Own(w') == Own(w)
    ensures Rank(cfg, w'') != Rank(cfg, w)
  {
    SameGates(w, w');
    SameGates(w', w'');
    if LB in Fin(w') && Hit(LoadBalancers(w), LoadBalancers(w'), w') {
      HitIsGone(cfg, LoadBalancers(w), LoadBalancers(w'), LoadBalancers(w''), w', w'');
    } else if PV in Fin(w') && Blocks(w) && Hit(Storage(w), Storage(w'), w') {
      HitIsGone(cfg, Storage(w), Storage(w'), Storage(w''), w', w'');
    }
  }

  lemma BackupsLowered(cfg: Config, w: World, w': World, w'': World)
    requires cfg.calm && Evolves(cfg, w, w') && Settles(cfg, w', w'') && BackupWork(w, w')
    requires Own(w'') == Own(w') == Own(w)
    ensures Rank(cfg, w'') != Rank(cfg, w)
  {
    SameGates(w, w');
    SameGates(w', w'');
    HitIsGone(cfg, Keys(w, BackupConfig), Keys(w', BackupConfig), Keys(w'', BackupConfig), w', w'');
  }

  lemma MachinesLowered(cfg: Config, w: World, w': World, w'': World)
    requires cfg.calm && Evolves(cfg, w, w') && Settles(cfg, w', w'') && NODES in Fin(w') && MachineWork(w, w')
    requires Own(w'') == Own(w') == Own(w)
    ensures Rank(cfg, w'') != Rank(cfg, w)
  {
    SameGates(w, w');
    SameGates(w', w'');
    if Hit(Keys(w, MachineDeployment), Keys(w', MachineDeployment), w') {
      HitIsGone(cfg, Keys(w, MachineDeployment), Keys(w', MachineDeployment), Keys(w'', MachineDeployment), w', w'');
    } else if Hit(Keys(w, MachineSet), Keys(w', MachineSet), w') {
      HitIsGone(cfg, Keys(w, MachineSet), Keys(w', MachineSet), Keys(w'', MachineSet), w', w'');
    } else {
      HitIsGone(cfg, Keys(w, Machine), Keys(w', Machine), Keys(w'', Machine), w', w'');
    }
  }

  lemma ForeignLowered(cfg: Config, w: World, w': World, w'': World)
    requires Fin(w') <= Fin(w) && Settles(cfg, w', w'') && ForeignWork(w, w')
    ensures Rank(cfg, w'') != Rank(cfg, w)
  {
    assert Foreign(w'') <= Foreign(w') <= Foreign(w);
    assert Foreign(w'') != Foreign(w);
    Fewer(Foreign(w), Foreign(w''));
  }

  ghost predicate CalmStretch(cfg: Config, at: nat -> World, i: nat) {
    Evolves(cfg, at(i), at(i + 1))
  }

  /** A successful reconcile and a rest. */
  ghost predicate Round(cfg: Config, at: nat -> World, i: nat) {
    exists w :: Evolves(cfg, at(i), w) && Work(cfg, at(i), w) && Settles(cfg, w, at(i + 1))
  }

  ghost predicate RoundFollows(cfg: Config, at: nat -> World, i: nat) {
    at(i).finalizers != [] ==> exists j: nat :: i <= j && Round(cfg, at, j)
  }

  /** A history of a deletion: between any two of its worlds only calm steps happened, and as
      long as finalizers are left a successful round follows at some point. Failed reconciles
      may come in between in any number.
   */
  ghost predicate History(cfg: Config, at: nat -> World) {
    && cfg.calm
    && (forall i: nat :: CalmStretch(cfg, at, i))
    && (forall i: nat :: RoundFollows(cfg, at, i))
  }

  /** Every such history reaches a world in which the Cluster object is gone. */
  lemma DeletionFinishes(cfg: Config, at: nat -> World)
    requires History(cfg, at)
    ensures exists n: nat :: at(n).finalizers == []
  {
    var m := (k: nat) => Rank(cfg, at(k));
    var done := (k: nat) => at(k).finalizers == [];
    forall k: nat ensures NoRise(m, k) {
      assert CalmStretch(cfg, at, k);
      NeverRaised(cfg, at(k), at(k + 1));
    }
    forall k: nat ensures FallFollows(m, done, k) {
      assert RoundFollows(cfg, at, k);
      if !done(k) {
        var j: nat :| k <= j && Round(cfg, at, j);
        RoundFalls(cfg, at, j);
        assert Fall(m, j);
      }
    }
    Descent(m, done, 0);
    var n: nat :| done(n);
  }

  lemma RoundFalls(cfg: Config, at: nat -> World, j: nat)
    requires cfg.calm && Round(cfg, at, j)
    ensures Below(Rank(cfg, at(j + 1)), Rank(cfg, at(j)))
  {
    var w :| Evolves(cfg, at(j), w) && Work(cfg, at(j), w) && Settles(cfg, w, at(j + 1));
    RoundLowers(cfg, at(j), w, at(j + 1));
  }

  // ----- the descent itself, on measures alone

  ghost predicate NoRise(m: nat -> Measure, k: nat) {
    NotAbove(m(k + 1), m(k))
  }

  ghost predicate Fall(m: nat -> Measure, k: nat) {
    Below(m(k + 1), m(k))
  }

  ghost predicate FallFollows(m: nat -> Measure, done: nat -> bool, k: nat) {
    done(k) || exists j: nat :: k <= j && Fall(m, j)
  }

  lemma {:induction false} NoRiseOver(m: nat -> Measure, i: nat, j: nat)
    requires i <= j && forall k: nat :: NoRise(m, k)
    ensures NotAbove(m(j), m(i))
    decreases j
  {
    if i < j {
      NoRiseOver(m, i, j - 1);
      assert NoRise(m, j - 1);
    }
  }

  lemma {:induction false} Descent(m: nat -> Measure, done: nat -> bool, i: nat)
    requires forall k: nat :: NoRise(m, k)
    requires forall k: nat :: FallFollows(m, done, k)
    ensures exists n: nat :: i <= n && done(n)
    decreases m(i).own, m(i).unblocked, m(i).loadBalancers, m(i).storage, m(i).wait, m(i).backups,
              m(i).deployments, m(i).sets, m(i).machines, m(i).foreign
  {
    assert FallFollows(m, done, i);
    if !done(i) {
      var j: nat :| i <= j && Fall(m, j);
      NoRiseOver(m, i, j);
      Descent(m, done, j + 1);
    }
  }
}

/** What holds over whole runs of cluster deletion, whatever fails and whatever the
    environment does in between. */
module DeletionSafety {
  import opened Strings
  import opened StringSets
  import opened DeletionWorld
  import opened DeletionRuns

  // ----- finalizers

  ghost predicate Dropped(s: Step, f: string) {
    f in Fin(s.pre) && f !in Fin(s.post)
  }

  /** The deletion code never adds a finalizer and drops none but its own six. */
  lemma FinalizerFrame(cfg: Config, init: World, run: seq<Step>, i: nat)
    requires RunOk(cfg, init, run) && i < |run| && !run[i].action.Environment?
    ensures Fin(run[i].post) <= Fin(run[i].pre)
    ensures Fin(run[i].pre) - Fin(run[i].post) <= OWN
    ensures Fin(run[i].pre) != Fin(run[i].post) ==> run[i].action.Patch?
  {
    StepOfRun(cfg, init, run, i);
    var s := run[i];
    if s.action.Patch? {
      forall f | f in Fin(s.pre) - Fin(s.post) ensures f in OWN {
        assert MayRemove(cfg, SeenIn(run[..i]), s.pre, f);
      }
    } else {
      assert s.post.finalizers == s.pre.finalizers;
    }
  }

  /** So a finalizer of somebody else that got lost in a run was dropped by somebody else. */
  lemma ForeignFinalizersAreLeftAlone(cfg: Config, init: World, run: seq<Step>, f: string, j: nat)
    requires RunOk(cfg, init, run) && j <= |run| && f !in OWN
    requires f in Fin(init) && f !in Fin(State(init, run, j))
    ensures exists i :: 0 <= i < j && run[i].action.Environment? && Dropped(run[i], f)
  {
    StepOfRun(cfg, init, run, j - 1);
    if f in Fin(run[j - 1].pre) {
      if !run[j - 1].action.Environment? {
        FinalizerFrame(cfg, init, run, j - 1);
      }
      assert Dropped(run[j - 1], f);
    } else {
      ForeignFinalizersAreLeftAlone(cfg, init, run, f, j - 1);
    }
  }

  // ----- volumes

  /** Once the code has dropped the PV finalizer, no volume and no claim exists, ever. */
  lemma VolumeSafety(cfg: Config, init: World, run: seq<Step>, i: nat, j: nat)
    requires RunOk(cfg, init, run) && i < j <= |run|
    requires !run[i].action.Environment? && Dropped(run[i], PV)
    ensures Keys(State(init, run, j), Claim) == {} && Keys(State(init, run, j), Volume) == {}
  {
    StepOfRun(cfg, init, run, i);
    FinalizerFrame(cfg, init, run, i);
    assert MayRemove(cfg, SeenIn(run[..i]), run[i].pre, PV);
    RunEvolves(cfg, init, run, i, j);
    var w := State(init, run, j);
    assert Storage(w) == {};
    assert Keys(w, Claim) <= Storage(w) && Keys(w, Volume) <= Storage(w);
  }

  // ----- load balancers

  /** Step m is a listing of events that showed the code the DeletedLoadBalancer event of a UID. */
  predicate SeenDeletedAt(run: seq<Step>, m: int, uid: string) {
    0 <= m < |run| && run[m].action.ListedEvents? && run[m].action.uid == uid && "DeletedLoadBalancer" in run[m].action.reasons
  }

  ghost predicate SeenDeleted(run: seq<Step>, i: nat, uid: string) {
    exists m :: 0 <= m < i && SeenDeletedAt(run, m, uid)
  }

  /** What the current reconcile takes for confirmed it has seen. */
  lemma {:induction false} ConfirmedMeans(run: seq<Step>, i: nat, uid: string)
    requires i <= |run| && uid in SeenIn(run[..i]).confirmed
    ensures SeenDeleted(run, i, uid)
  {
    assert run[..i][..i - 1] == run[..i - 1];
    if !SeenDeletedAt(run, i - 1, uid) {
      ConfirmedMeans(run, i - 1, uid);
    }
  }

  /** And what was seen had been published. */
  lemma SeenMeansPublished(cfg: Config, init: World, run: seq<Step>, i: nat, uid: string)
    requires RunOk(cfg, init, run) && i <= |run| && SeenDeleted(run, i, uid)
    ensures uid in State(init, run, i).emitted
  {
    var m :| 0 <= m < i && SeenDeletedAt(run, m, uid);
    StepOfRun(cfg, init, run, m);
    RunEvolves(cfg, init, run, m, i);
  }

  /** A step of a run puts a UID into the ledger exactly by recording it, and takes one out only
      after the code has seen its event.
   */
  lemma LedgerStep(cfg: Config, init: World, run: seq<Step>, i: nat, uid: string)
    requires RunOk(cfg, init, run) && i < |run|
    ensures var before, after := uid in Parse(State(init, run, i).annotation), uid in Parse(State(init, run, i + 1).annotation);
            && (RecordedAt(run[i], uid) ==> after)
            && (after ==> before || RecordedAt(run[i], uid))
            && (before && !after ==> SeenDeleted(run, i, uid))
  {
    StepOfRun(cfg, init, run, i);
    StepLedger(cfg, SeenIn(run[..i]), run[i], uid);
    if uid in SeenIn(run[..i]).confirmed {
      ConfirmedMeans(run, i, uid);
    }
  }

  lemma StepLedger(cfg: Config, seen: Seen, s: Step, uid: string)
    requires StepOk(cfg, seen, s)
    ensures s.post.annotation == s.pre.annotation || s.action.Patch?
    ensures uid in Parse(s.pre.annotation) && uid !in Parse(s.post.annotation) ==> uid in seen.confirmed
  {
  }

  /** A UID in the ledger stays there until the code has seen its DeletedLoadBalancer event. */
  lemma {:induction false} LedgerKeeps(cfg: Config, init: World, run: seq<Step>, uid: string, i: nat, j: nat)
    requires RunOk(cfg, init, run) && i <= j <= |run|
    requires uid in Parse(State(init, run, i).annotation)
    ensures uid in Parse(State(init, run, j).annotation) || SeenDeleted(run, j, uid)
    decreases j
  {
    if i < j {
      LedgerKeeps(cfg, init, run, uid, i, j - 1);
      LedgerStep(cfg, init, run, j - 1, uid);
    }
  }

  /** In particular the UID of every service for which `cleanupLB` returned success; and if it is
      no longer there its event had been published.
   */
  lemma TrackedLoadBalancersAreKept(cfg: Config, init: World, run: seq<Step>, i: nat, j: nat)
    requires RunOk(cfg, init, run) && i < j <= |run| && run[i].action.Tracked?
    ensures var uid := run[i].action.uid;
            uid in Parse(State(init, run, j).annotation) || (SeenDeleted(run, j, uid) && uid in State(init, run, j).emitted)
  {
    var uid := run[i].action.uid;
    StepOfRun(cfg, init, run, i);
    LedgerKeeps(cfg, init, run, uid, i, j);
    if SeenDeleted(run, j, uid) {
      SeenMeansPublished(cfg, init, run, j, uid);
    }
  }

  /** No recorded load balancer is unaccounted for, or the wait is over. */
  ghost predicate LedgerCleared(cfg: Config, w: World) {
    Parse(w.annotation) == {} || w.now - cfg.deletionTimestamp > 7200
  }

  ghost predicate DropsInCluster(s: Step) {
    !s.action.Environment? && (Dropped(s, LB) || Dropped(s, PV))
  }

  /** With the intended return value, an in-cluster finalizer of a cluster at an in-tree provider
      goes only when the ledger is empty or two hours have passed since the deletion.
   */
  lemma IntendedCheckIsSafe(cfg: Config, init: World, run: seq<Step>, i: nat)
    requires RunOk(cfg, init, run) && i < |run| && DropsInCluster(run[i])
    requires cfg.rule.Intended? && cfg.inTreeProvider
    ensures LedgerCleared(cfg, run[i].pre)
    ensures Parse(run[i].pre.annotation) == {} || run[i].pre.now - cfg.deletionTimestamp > 7200
  {
    DropNeedsVerdict(cfg, init, run, i);
  }

  lemma DropNeedsVerdict(cfg: Config, init: World, run: seq<Step>, i: nat)
    requires RunOk(cfg, init, run) && i < |run| && DropsInCluster(run[i])
    ensures LoadBalancersGone(cfg, SeenIn(run[..i]), run[i].pre)
  {
    StepOfRun(cfg, init, run, i);
    FinalizerFrame(cfg, init, run, i);
    assert Dropped(run[i], LB) ==> MayRemove(cfg, SeenIn(run[..i]), run[i].pre, LB);
    assert Dropped(run[i], PV) ==> MayRemove(cfg, SeenIn(run[..i]), run[i].pre, PV);
  }

  /** So every load balancer tracked before such a step was seen deleted, or the wait is over. */
  lemma TrackedLoadBalancersAreGone(cfg: Config, init: World, run: seq<Step>, i: nat, j: nat)
    requires RunOk(cfg, init, run) && i < j < |run| && run[i].action.Tracked? && DropsInCluster(run[j])
    requires cfg.rule.Intended? && cfg.inTreeProvider
    ensures run[j].pre.now - cfg.deletionTimestamp > 7200 || (SeenDeleted(run, j, run[i].action.uid) && run[i].action.uid in run[j].pre.emitted)
  {
    IntendedCheckIsSafe(cfg, init, run, j);
    TrackedLoadBalancersAreKept(cfg, init, run, i, j);
    StepOfRun(cfg, init, run, j);
  }

  /** With the return value as written, such a step is safe exactly when the ledger was the
      empty string or the wait was over, that is, when the check returned early.
   */
  lemma AsWrittenDropIsSafeExactly(cfg: Config, init: World, run: seq<Step>, i: nat)
    requires RunOk(cfg, init, run) && i < |run| && DropsInCluster(run[i])
    requires cfg.rule.AsWritten? && cfg.inTreeProvider
    ensures LedgerCleared(cfg, run[i].pre) <==> run[i].pre.annotation == "" || run[i].pre.now - cfg.deletionTimestamp > 7200
  {
    DropNeedsVerdict(cfg, init, run, i);
  }

  /** What a caller of the check can tell beforehand: saying yes is justified. */
  ghost predicate YesIsJustified(cfg: Config, annotation: string, now: int, confirmed: set<string>) {
    !cfg.inTreeProvider || now - cfg.deletionTimestamp > 7200 || Parse(annotation) <= confirmed
  }

  /** The two return values differ on every call that reaches the end of the function. The
      intended one says yes exactly when that is justified; the one as written never says yes
      wrongly exactly when the provider is not in-tree, the ledger is the empty string, the wait
      is over, or every recorded UID has its event, and then it says no.
   */
  lemma ReturnValuesCompared(cfg: Config, annotation: string, now: int, confirmed: set<string>)
    ensures var early := !cfg.inTreeProvider || annotation == "" || now - cfg.deletionTimestamp > 7200;
      var yes := Verdict(cfg.(rule := AsWritten), annotation, now, confirmed);
      var intended := Verdict(cfg.(rule := Intended), annotation, now, confirmed);
      && (intended <==> YesIsJustified(cfg, annotation, now, confirmed))
      && (yes == intended <==> early)
      && ((yes ==> YesIsJustified(cfg, annotation, now, confirmed)) <==> early || Parse(annotation) <= confirmed)
  {
    var remaining := Parse(annotation) - confirmed;
    forall uid | uid in Parse(annotation) ensures uid in confirmed || uid in remaining {
    }
  }

  /** A concrete call on which the value as written is wrong: one recorded UID, no event about it,
      and the wait not over.
   */
  lemma AsWrittenIsWrong(cfg: Config, uid: string, now: int)
    requires IsUid(uid) && cfg.inTreeProvider && now - cfg.deletionTimestamp <= 7200
    ensures Verdict(cfg.(rule := AsWritten), uid, now, {}) && !YesIsJustified(cfg, uid, now, {})
    ensures !Verdict(cfg.(rule := Intended), uid, now, {})
  {
    SplitWithoutSeparator(uid, ',');
    assert Parse(uid) == {uid} && Parse(uid) - {} == {uid};
  }

  /** When a load balancer is accounted for: a UID that is not yet in the ledger at i and whose
      event the code has not seen by j is in the ledger at j exactly when in between a patch took
      effect that recorded it, whether or not the code got to know.
   */
  lemma {:induction false} RecordedExactly(cfg: Config, init: World, run: seq<Step>, uid: string, i: nat, j: nat)
    requires RunOk(cfg, init, run) && i <= j <= |run|
    requires uid !in Parse(State(init, run, i).annotation) && !SeenDeleted(run, j, uid)
    ensures uid in Parse(State(init, run, j).annotation) <==> Recorded(run[..j], i, uid)
    decreases j
  {
    if i < j {
      RecordedExactly(cfg, init, run, uid, i, j - 1);
      LedgerStep(cfg, init, run, j - 1, uid);
      RecordedByStep(run, uid, i, j);
    }
  }

  lemma RecordedByStep(run: seq<Step>, uid: string, i: nat, j: nat)
    requires i < j <= |run|
    ensures Recorded(run[..j], i, uid) <==> Recorded(run[..j - 1], i, uid) || RecordedAt(run[j - 1], uid)
  {
    var longer, shorter := run[..j], run[..j - 1];
    assert forall m :: 0 <= m < j - 1 ==> longer[m] == shorter[m];
    assert longer[j - 1] == run[j - 1];
  }

  // ----- the order within a reconcile

  /** No reconcile starts between the two steps. */
  predicate SameReconcile(run: seq<Step>, c: int, i: nat) {
    0 <= c < i <= |run| && forall m :: c < m < i ==> !run[m].action.Begin?
  }

  /** What a reconcile may know: constraints are gone, a kind was listed, the cache served a UID. */
  datatype Fact = Cleared | KindListed(kind: Kind) | Served(uid: string)

  predicate Shows(a: Action, fact: Fact) {
    match fact
    case Cleared => a.DeleteConstraints?
    case KindListed(kind) => a.Listed? && a.kind == kind
    case Served(uid) => a.ReadCluster? && uid in Parse(a.annotation)
  }

  predicate Knows(seen: Seen, fact: Fact) {
    match fact
    case Cleared => seen.constraintsCleared
    case KindListed(kind) => kind in seen.listings
    case Served(uid) => seen.cached.Some? && uid in Parse(seen.cached.value)
  }

  /** An earlier step of the same reconcile shows it. */
  ghost predicate ShownBefore(run: seq<Step>, i: nat, fact: Fact) {
    exists c :: SameReconcile(run, c, i) && Shows(run[c].action, fact)
  }

  lemma KnownNow(seen: Seen, a: Action, fact: Fact)
    requires Knows(Observe(seen, a), fact)
    ensures Shows(a, fact) || (!a.Begin? && Knows(seen, fact))
  {
  }

  /** What the current reconcile knows goes back to one of its own steps. */
  lemma {:induction false} KnownFromThisReconcile(run: seq<Step>, i: nat, fact: Fact)
    requires i <= |run| && Knows(SeenIn(run[..i]), fact)
    ensures ShownBefore(run, i, fact)
  {
    var last := run[i - 1].action;
    assert run[..i][..i - 1] == run[..i - 1];
    KnownNow(SeenIn(run[..i - 1]), last, fact);
    if Shows(last, fact) {
      assert SameReconcile(run, i - 1, i);
    } else {
      KnownFromThisReconcile(run, i - 1, fact);
      var c :| SameReconcile(run, c, i - 1) && Shows(run[c].action, fact);
      assert SameReconcile(run, c, i);
    }
  }

  /** In every reconcile of every run constraints go before anything else is deleted or the
      webhook is installed, pods are looked at before claims and volumes are deleted, and backup
      configs, while their finalizer is stored, before machines are. A load balancer counts as
      tracked only after the cache has served its UID.
   */
  lemma DeletionOrder(cfg: Config, init: World, run: seq<Step>, i: nat)
    requires RunOk(cfg, init, run) && i < |run|
    ensures run[i].action.Delete? || run[i].action.InstallWebhook? ==> ShownBefore(run, i, Cleared)
    ensures run[i].action.Delete? && run[i].action.key.kind in {Claim, Volume} ==> ShownBefore(run, i, KindListed(Pod))
    ensures run[i].action.Delete? && run[i].action.key.kind in {MachineDeployment, MachineSet, Machine} ==>
              (cfg.backupController && BACKUPS in Fin(run[i].pre) ==> ShownBefore(run, i, KindListed(BackupConfig)))
    ensures run[i].action.Tracked? ==> ShownBefore(run, i, Served(run[i].action.uid))
  {
    StepOfRun(cfg, init, run, i);
    var seen := SeenIn(run[..i]);
    OrderIsGuarded(cfg, seen, run[i]);
    if seen.constraintsCleared { KnownFromThisReconcile(run, i, Cleared); }
    if Pod in seen.listings { KnownFromThisReconcile(run, i, KindListed(Pod)); }
    if BackupConfig in seen.listings { KnownFromThisReconcile(run, i, KindListed(BackupConfig)); }
    if run[i].action.Tracked? { KnownFromThisReconcile(run, i, Served(run[i].action.uid)); }
  }

  lemma OrderIsGuarded(cfg: Config, seen: Seen, s: Step)
    requires StepOk(cfg, seen, s)
    ensures s.action.Delete? || s.action.InstallWebhook? ==> seen.constraintsCleared
    ensures s.action.Delete? && s.action.key.kind in {Claim, Volume} ==> Pod in seen.listings
    ensures s.action.Delete? && s.action.key.kind in {MachineDeployment, MachineSet, Machine} ==> BackupsListed(cfg, seen, s.pre)
    ensures s.action.Tracked? ==> Knows(seen, Served(s.action.uid))
  {
  }

  // ----- credentials

  /** The credentials secret is deleted only when no other finalizer is stored, then or later. */
  lemma CredentialsLast(cfg: Config, init: World, run: seq<Step>, i: nat, j: nat)
    requires RunOk(cfg, init, run) && i <= j <= |run| && i < |run|
    requires run[i].action.Delete? && run[i].action.key.kind.Secret?
    ensures Fin(State(init, run, j)) <= {CREDENTIALS}
  {
    StepOfRun(cfg, init, run, i);
    RunEvolves(cfg, init, run, i, j);
  }

  // ----- machines

  /** A listing of a kind is no longer the last one of the reconcile. */
  predicate Supersedes(a: Action, kind: Kind) {
    a.Begin? || (a.Listed? && a.kind == kind)
  }

  ghost predicate ListedEmptyAt(run: seq<Step>, j: int, i: nat, kind: Kind)
    requires i <= |run|
  {
    && 0 <= j < i && run[j].action == Listed(kind, map[])
    && forall m :: j < m < i ==> !Supersedes(run[m].action, kind)
  }

  /** The last listing of a kind before step i, within the same reconcile, was empty. */
  ghost predicate LastListedEmpty(run: seq<Step>, i: nat, kind: Kind)
    requires i <= |run|
  {
    exists j :: ListedEmptyAt(run, j, i, kind)
  }

  lemma {:induction false} SeenEmptyMeans(run: seq<Step>, i: nat, kind: Kind)
    requires i <= |run| && ListedEmpty(SeenIn(run[..i]), kind)
    ensures LastListedEmpty(run, i, kind)
  {
    var last := run[i - 1].action;
    assert run[..i][..i - 1] == run[..i - 1];
    if last.Listed? && last.kind == kind {
      assert ListedEmptyAt(run, i - 1, i, kind);
    } else {
      assert !Supersedes(last, kind) && ListedEmpty(SeenIn(run[..i - 1]), kind);
      SeenEmptyMeans(run, i - 1, kind);
      var j :| ListedEmptyAt(run, j, i - 1, kind);
      assert ListedEmptyAt(run, j, i, kind);
    }
  }

  /** Machine objects are deleted only when nothing inside the cluster is left to clean up, and
      each kind only after what creates it was listed as gone in the same reconcile. The node
      finalizer goes only when all three lists came back empty.
   */
  lemma TeardownOrder(cfg: Config, init: World, run: seq<Step>, i: nat)
    requires RunOk(cfg, init, run) && i < |run|
    ensures run[i].action.Delete? && run[i].action.key.kind in {MachineDeployment, MachineSet, Machine} ==>
              LB !in Fin(run[i].pre) && PV !in Fin(run[i].pre)
    ensures run[i].action.Delete? && run[i].action.key.kind in {MachineSet, Machine} ==>
              LastListedEmpty(run, i, MachineDeployment)
    ensures run[i].action.Delete? && run[i].action.key.kind == Machine ==> LastListedEmpty(run, i, MachineSet)
    ensures !run[i].action.Environment? && Dropped(run[i], NODES) ==>
              && LB !in Fin(run[i].pre) && PV !in Fin(run[i].pre)
              && LastListedEmpty(run, i, MachineDeployment)
              && LastListedEmpty(run, i, MachineSet)
              && LastListedEmpty(run, i, Machine)
  {
    StepOfRun(cfg, init, run, i);
    var seen := SeenIn(run[..i]);
    MachinePermissions(cfg, seen, run[i]);
    if ListedEmpty(seen, MachineDeployment) { SeenEmptyMeans(run, i, MachineDeployment); }
    if ListedEmpty(seen, MachineSet) { SeenEmptyMeans(run, i, MachineSet); }
    if ListedEmpty(seen, Machine) { SeenEmptyMeans(run, i, Machine); }
  }

  lemma MachinePermissions(cfg: Config, seen: Seen, s: Step)
    requires StepOk(cfg, seen, s)
    ensures s.action.Delete? && s.action.key.kind in {MachineDeployment, MachineSet, Machine} ==> InClusterDone(s.pre)
    ensures s.action.Delete? && s.action.key.kind in {MachineSet, Machine} ==> ListedEmpty(seen, MachineDeployment)
    ensures s.action.Delete? && s.action.key.kind == Machine ==> ListedEmpty(seen, MachineSet)
    ensures !s.action.Environment? && Dropped(s, NODES) ==>
              && InClusterDone(s.pre) && ListedEmpty(seen, MachineDeployment)
              && ListedEmpty(seen, MachineSet) && ListedEmpty(seen, Machine)
  {
    if !s.action.Environment? && Dropped(s, NODES) {
      assert s.action.Patch? by {
        assert s.pre.finalizers != s.post.finalizers;
      }
      assert MayRemove(cfg, seen, s.pre, NODES);
    }
  }
}

/** The etcd ring: any number of launchers, one per pod, join, rejoin after losing their data
    directory, update outdated peer URLs and remove dead members, all acting on one shared
    membership list. Every request to etcd that reads or changes the list is a step of its own,
    so any interleaving of the launchers is a behaviour; any step of a launcher may fail, after
    which its pod restarts. The probes of a cleanup round belong to the step that lists the
    members: what they answer is arbitrary, and what comes of them depends on that list alone.
 */
module EtcdRing {
  import opened EtcdNames
  import opened EtcdMembers

  /** Where a launcher is in `main`. */
  datatype Phase =
    | Booting                        // before it looks for itself in the member list
    | Absent                         // not a member: will add itself
    | Present(id: nat)               // a member: will look at its data directory
    | MustRejoin(id: nat)            // data directory lost: will remove itself
    | Removed                        // has removed itself: will add itself again
    | Joined                         // will look for outdated peer URLs
    | UpdatePending(id: nat, url: Url)
    | Reconciling                    // in the loop that removes dead members
    | Suspecting                     // has seen unwanted members: will ask who leads
    | Leading                        // as leader, will list the members again and probe them
    | RemovePending(id: nat)         // will remove this member
    | Settled                        // the loop has ended

  datatype Ring = Ring(namespace: string, size: nat, members: seq<Member>, nextId: nat, launchers: map<string, Phase>)

  datatype Event =
    | Find(pod: string)
    | Stat(pod: string, dataDir: bool)
    | RemoveSelf(pod: string)
    | Join(pod: string)
    | FindOutdated(pod: string)
    | UpdateURL(pod: string)
    | Check(pod: string)
    | Ask(pod: string, leader: bool)
    | Choose(pod: string, probes: seq<seq<Probe>>, choice: Choice)
    | RemoveDead(pod: string)
    | GiveUp(pod: string)            // a request of the round failed: the loop goes on
    | Fail(pod: string)              // an error or a panic: the pod restarts
    | Publish(i: nat, clientURLs: seq<string>)  // an etcd process starts and announces its name

  function Goto(s: Ring, pod: string, phase: Phase): Ring {
    s.(launchers := s.launchers[pod := phase])
  }

  /** `MemberRemove` takes the member with this id out, and fails when there is none. */
  predicate TakenOut(before: seq<Member>, id: nat, after: seq<Member>) {
    exists k :: 0 <= k < |before| && TakenOutAt(before, id, after, k)
  }

  predicate TakenOutAt(before: seq<Member>, id: nat, after: seq<Member>, k: int) {
    0 <= k < |before| && before[k].id == id && after == before[..k] + before[k + 1..]
  }

  predicate IsMember(members: seq<Member>, id: nat) {
    exists i :: 0 <= i < |members| && members[i].id == id
  }

  /** `MemberUpdate` replaces the peer URLs of the member with this id. */
  function Readdress(members: seq<Member>, id: nat, url: Url): (r: seq<Member>) {
    seq(|members|, i requires 0 <= i < |members| => if members[i].id == id then members[i].(peerURLs := [url]) else members[i])
  }

  function NewMember(s: Ring, pod: string): Member {
    MemberRecord(s.nextId, "", [Url("http", PeerHost(pod, s.namespace))], [])
  }

  /** The steps, after the branches of `main`, `joinCluster`, `updatePeerURLToHTTP`,
      `deleteUnwantedDeadMembers` and `removeDeadMembers`.
   */
  predicate Next(s: Ring, e: Event, s': Ring) {
    match e
    case Publish(i, clientURLs) =>
      && i < |s.members|
      && exists pod :: pod in s.launchers && HostOf(s.members[i]) == PeerHost(pod, s.namespace)
                       && s' == s.(members := s.members[i := s.members[i].(name := pod, clientURLs := clientURLs)])
    case Fail(pod) => pod in s.launchers && s' == Goto(s, pod, Booting)
    case Find(pod) =>
      && pod in s.launchers && s.launchers[pod].Booting?
      && s' == Goto(s, pod, match FindMember(s.members, pod, s.namespace)
                            case None => Absent
                            case Some(i) => Present(s.members[i].id))
    case Stat(pod, dataDir) =>
      && pod in s.launchers && s.launchers[pod].Present?
      && s' == Goto(s, pod, if dataDir then Joined else MustRejoin(s.launchers[pod].id))
    case RemoveSelf(pod) =>
      && pod in s.launchers && s.launchers[pod].MustRejoin?
      && TakenOut(s.members, s.launchers[pod].id, s'.members)
      && s' == Goto(s, pod, Removed).(members := s'.members)
    case Join(pod) =>
      && pod in s.launchers && (s.launchers[pod].Absent? || s.launchers[pod].Removed?)
      && s' == Goto(s, pod, Joined).(members := s.members + [NewMember(s, pod)], nextId := s.nextId + 1)
    case FindOutdated(pod) =>
      && pod in s.launchers && s.launchers[pod].Joined?
      && if forall i :: 0 <= i < |s.members| ==> !Outdated(s.members[i], pod)
         then s' == Goto(s, pod, Reconciling)
         else exists i :: 0 <= i < |s.members| && Outdated(s.members[i], pod)
                && (forall j :: 0 <= j < i ==> !Outdated(s.members[j], pod))
                && s' == Goto(s, pod, UpdatePending(s.members[i].id, Url("http", HostOf(s.members[i]))))
    case UpdateURL(pod) =>
      && pod in s.launchers && s.launchers[pod].UpdatePending? && IsMember(s.members, s.launchers[pod].id)
      && s' == Goto(s, pod, Reconciling).(members := Readdress(s.members, s.launchers[pod].id, s.launchers[pod].url))
    case Check(pod) =>
      && pod in s.launchers && s.launchers[pod].Reconciling?
      && s' == Goto(s, pod, if exists i :: 0 <= i < |s.members| && Unwanted(s.members[i], s.size, s.namespace)
                            then Suspecting else Settled)
    case Ask(pod, leader) =>
      && pod in s.launchers && s.launchers[pod].Suspecting?
      && s' == Goto(s, pod, if leader then Leading else Reconciling)
    case Choose(pod, probes, choice) =>
      && pod in s.launchers && s.launchers[pod].Leading?
      && |probes| == |s.members| && ChoiceOk(s.members, probes, pod, choice)
      && s' == Goto(s, pod, match choice
                            case NoneDead => Reconciling
                            case RemoveMember(id) => RemovePending(id)
                            case Panic => Booting)
    case RemoveDead(pod) =>
      && pod in s.launchers && s.launchers[pod].RemovePending?
      && TakenOut(s.members, s.launchers[pod].id, s'.members)
      && s' == Goto(s, pod, Reconciling).(members := s'.members)
    case GiveUp(pod) =>
      && pod in s.launchers && (s.launchers[pod].Leading? || s.launchers[pod].RemovePending?)
      && s' == Goto(s, pod, Reconciling)
  }

  // ----- the invariant

  /** Ids are given out once, peer hosts are pairwise distinct, and a member is unnamed or named
      after the pod its host belongs to. A member announces its name and its client URLs
      together, so as long as it is unnamed it has no client URL.
   */
  ghost predicate Consistent(namespace: string, members: seq<Member>, nextId: nat) {
    && (forall i :: 0 <= i < |members| ==> members[i].id < nextId)
    && (forall i, j :: 0 <= i < j < |members| ==> members[i].id != members[j].id)
    && (forall i, j :: 0 <= i < j < |members| ==> HostOf(members[i]) != HostOf(members[j]))
    && (forall i :: 0 <= i < |members| ==>
          members[i].name == "" || HostOf(members[i]) == PeerHost(members[i].name, namespace))
    && (forall i :: 0 <= i < |members| && members[i].name == "" ==> members[i].clientURLs == [])
  }

  /** What a launcher relies on between two of its calls. */
  ghost predicate PhaseOk(namespace: string, members: seq<Member>, nextId: nat, pod: string, phase: Phase) {
    match phase
    case Absent => NoMemberAt(members, PeerHost(pod, namespace))
    case Removed => NoMemberAt(members, PeerHost(pod, namespace))
    case Present(id) => id < nextId && Owns(members, id, PeerHost(pod, namespace))
    case MustRejoin(id) => id < nextId && Owns(members, id, PeerHost(pod, namespace))
    case UpdatePending(id, url) => id < nextId && Owns(members, id, url.host)
    case RemovePending(id) => id < nextId && Elsewhere(members, id, PeerHost(pod, namespace))
    case _ => true
  }

  ghost predicate NoMemberAt(members: seq<Member>, host: string) {
    forall i :: 0 <= i < |members| ==> HostOf(members[i]) != host
  }

  /** If a member has this id, this is its host. */
  ghost predicate Owns(members: seq<Member>, id: nat, host: string) {
    forall i :: 0 <= i < |members| && members[i].id == id ==> HostOf(members[i]) == host
  }

  /** If a member has this id, it is not at this host. */
  ghost predicate Elsewhere(members: seq<Member>, id: nat, host: string) {
    forall i :: 0 <= i < |members| && members[i].id == id ==> HostOf(members[i]) != host
  }

  ghost predicate PhasesOk(namespace: string, members: seq<Member>, nextId: nat, launchers: map<string, Phase>) {
    forall pod :: pod in launchers ==> PhaseOk(namespace, members, nextId, pod, launchers[pod])
  }

  ghost predicate Inv(s: Ring) {
    && "" !in s.launchers
    && Consistent(s.namespace, s.members, s.nextId)
    && PhasesOk(s.namespace, s.members, s.nextId, s.launchers)
  }

  /** Every member of `after` stood at the same host under the same id in `before`. */
  ghost predicate Inherits(before: seq<Member>, after: seq<Member>) {
    forall i :: 0 <= i < |after| ==> HadPlace(before, after[i])
  }

  ghost predicate HadPlace(before: seq<Member>, m: Member) {
    exists j :: 0 <= j < |before| && SamePlace(before[j], m)
  }

  predicate SamePlace(m: Member, m': Member) {
    m.id == m'.id && HostOf(m) == HostOf(m')
  }

  /** Then no launcher's expectation is broken. */
  lemma InheritedPhase(namespace: string, before: seq<Member>, after: seq<Member>, nextId: nat, pod: string, phase: Phase)
    requires Inherits(before, after) && PhaseOk(namespace, before, nextId, pod, phase)
    ensures PhaseOk(namespace, after, nextId, pod, phase)
  {
  }

  lemma InheritedPhases(namespace: string, before: seq<Member>, after: seq<Member>, nextId: nat, launchers: map<string, Phase>)
    requires Inherits(before, after) && PhasesOk(namespace, before, nextId, launchers)
    ensures PhasesOk(namespace, after, nextId, launchers)
  {
    forall pod | pod in launchers ensures PhaseOk(namespace, after, nextId, pod, launchers[pod]) {
      InheritedPhase(namespace, before, after, nextId, pod, launchers[pod]);
    }
  }

  lemma MovedOn(namespace: string, members: seq<Member>, nextId: nat, launchers: map<string, Phase>, pod: string, phase: Phase)
    requires PhasesOk(namespace, members, nextId, launchers) && PhaseOk(namespace, members, nextId, pod, phase)
    ensures PhasesOk(namespace, members, nextId, launchers[pod := phase])
  {
  }

  lemma TakenOutInherits(before: seq<Member>, id: nat, after: seq<Member>)
    requires TakenOut(before, id, after)
    ensures Inherits(before, after)
  {
    var k :| 0 <= k < |before| && TakenOutAt(before, id, after, k);
    forall i | 0 <= i < |after| ensures HadPlace(before, after[i]) {
      assert SamePlace(before[if i < k then i else i + 1], after[i]);
    }
  }

  lemma TakenOutStaysConsistent(namespace: string, before: seq<Member>, nextId: nat, id: nat, after: seq<Member>)
    requires Consistent(namespace, before, nextId) && TakenOut(before, id, after)
    ensures Consistent(namespace, after, nextId)
    ensures forall i :: 0 <= i < |after| ==> after[i].id != id
  {
    var k :| 0 <= k < |before| && TakenOutAt(before, id, after, k);
    SelectedStaysConsistent(namespace, before, nextId, k, after);
    forall i | 0 <= i < |after| ensures after[i].id != id {
      assert after[i] == before[Source(k, i)];
    }
  }

  lemma SelectedStaysConsistent(namespace: string, before: seq<Member>, nextId: nat, k: int, after: seq<Member>)
    requires Consistent(namespace, before, nextId)
    requires 0 <= k < |before| && after == before[..k] + before[k + 1..]
    ensures Consistent(namespace, after, nextId)
  {
    forall i, j | 0 <= i < j < |after| ensures after[i].id != after[j].id && HostOf(after[i]) != HostOf(after[j]) {
      assert after[i] == before[Source(k, i)] && after[j] == before[Source(k, j)];
    }
    assert forall i :: 0 <= i < |after| ==> after[i] == before[Source(k, i)];
  }

  /** Where an element stood before the one at k was taken out. */
  function Source(k: int, i: int): int {
    if i < k then i else i + 1
  }

  /** Every step of every launcher keeps the invariant. */
  lemma InvKept(s: Ring, e: Event, s': Ring)
    requires Inv(s) && Next(s, e, s')
    ensures Inv(s')
  {
    match e {
      case Find(pod) => FindStep(s, pod, s');
      case RemoveSelf(pod) => RemoveSelfStep(s, pod, s');
      case Join(pod) => JoinStep(s, pod, s');
      case FindOutdated(pod) => FindOutdatedStep(s, pod, s');
      case UpdateURL(pod) => UpdateStep(s, pod, s');
      case Choose(pod, _, _) => ChooseStep(s, e, s');
      case RemoveDead(pod) => RemoveDeadStep(s, pod, s');
      case Publish(i, _) => PublishStep(s, e, s');
      case Stat(pod, _) => LocalStep(s, pod, s'.launchers[pod]);
      case Check(pod) => LocalStep(s, pod, s'.launchers[pod]);
      case Ask(pod, _) => LocalStep(s, pod, s'.launchers[pod]);
      case GiveUp(pod) => LocalStep(s, pod, Reconciling);
      case Fail(pod) => LocalStep(s, pod, Booting);
    }
  }

  /** A launcher goes on without having touched the list, to a phase that relies on nothing new. */
  lemma LocalStep(s: Ring, pod: string, phase: Phase)
    requires Inv(s) && pod in s.launchers
    requires || phase in {Booting, Joined, Reconciling, Suspecting, Leading, Settled}
             || (s.launchers[pod].Present? && phase == MustRejoin(s.launchers[pod].id))
    ensures Inv(Goto(s, pod, phase))
  {
    assert PhaseOk(s.namespace, s.members, s.nextId, pod, s.launchers[pod]);
    MovedOn(s.namespace, s.members, s.nextId, s.launchers, pod, phase);
  }

  lemma FindStep(s: Ring, pod: string, s': Ring)
    requires Inv(s) && Next(s, Find(pod), s')
    ensures Inv(s')
  {
    var found := FindMember(s.members, pod, s.namespace);
    assert PhaseOk(s.namespace, s.members, s.nextId, pod, s'.launchers[pod]) by {
      if found.Some? {
        assert HostOf(s.members[found.value]) == PeerHost(pod, s.namespace);
      }
    }
  }

  lemma RemoveSelfStep(s: Ring, pod: string, s': Ring)
    requires Inv(s) && Next(s, RemoveSelf(pod), s')
    ensures Inv(s')
  {
    var id := s.launchers[pod].id;
    TakenOutInherits(s.members, id, s'.members);
    TakenOutStaysConsistent(s.namespace, s.members, s.nextId, id, s'.members);
    InheritedPhases(s.namespace, s.members, s'.members, s.nextId, s.launchers);
    assert NoMemberAt(s'.members, PeerHost(pod, s.namespace)) by {
      OnlyOneAt(s, pod, id, s'.members);
    }
  }

  /** The member a launcher takes out before it rejoins was the only one at its host. */
  lemma OnlyOneAt(s: Ring, pod: string, id: nat, after: seq<Member>)
    requires Consistent(s.namespace, s.members, s.nextId) && Owns(s.members, id, PeerHost(pod, s.namespace))
    requires TakenOut(s.members, id, after)
    ensures NoMemberAt(after, PeerHost(pod, s.namespace))
  {
    var k :| 0 <= k < |s.members| && TakenOutAt(s.members, id, after, k);
    forall i | 0 <= i < |after| ensures HostOf(after[i]) != PeerHost(pod, s.namespace) {
      assert after[i] == s.members[if i < k then i else i + 1];
    }
  }

  lemma JoinStep(s: Ring, pod: string, s': Ring)
    requires Inv(s) && Next(s, Join(pod), s')
    ensures Inv(s')
  {
    assert PhaseOk(s.namespace, s.members, s.nextId, pod, s.launchers[pod]);
    JoinStaysConsistent(s.namespace, s.members, s.nextId, NewMember(s, pod));
    forall q | q in s'.launchers ensures PhaseOk(s'.namespace, s'.members, s'.nextId, q, s'.launchers[q]) {
      if q != pod {
        assert PhaseOk(s.namespace, s.members, s.nextId, q, s.launchers[q]);
        JoinKeepsPhase(s.namespace, s.members, s.nextId, pod, NewMember(s, pod), q, s.launchers[q]);
      }
    }
  }

  lemma JoinStaysConsistent(namespace: string, members: seq<Member>, nextId: nat, m: Member)
    requires Consistent(namespace, members, nextId) && NoMemberAt(members, HostOf(m)) && m.id == nextId && m.name == "" && m.clientURLs == []
    ensures Consistent(namespace, members + [m], nextId + 1)
  {
  }

  lemma JoinKeepsPhase(namespace: string, members: seq<Member>, nextId: nat, pod: string, m: Member, q: string, phase: Phase)
    requires PhaseOk(namespace, members, nextId, q, phase) && q != pod
    requires HostOf(m) == PeerHost(pod, namespace) && m.id == nextId
    ensures PhaseOk(namespace, members + [m], nextId + 1, q, phase)
  {
    if PeerHost(q, namespace) == PeerHost(pod, namespace) {
      PeerHostIsInjective(q, pod, namespace);
    }
  }

  lemma FindOutdatedStep(s: Ring, pod: string, s': Ring)
    requires Inv(s) && Next(s, FindOutdated(pod), s')
    ensures Inv(s')
  {
    assert PhaseOk(s.namespace, s.members, s.nextId, pod, s'.launchers[pod]);
  }

  lemma UpdateStep(s: Ring, pod: string, s': Ring)
    requires Inv(s) && Next(s, UpdateURL(pod), s')
    ensures Inv(s')
  {
    var phase := s.launchers[pod];
    assert PhaseOk(s.namespace, s.members, s.nextId, pod, phase);
    ReaddressedInPlace(s.members, phase.id, phase.url);
    InPlaceInherits(s.members, s'.members);
    InPlaceStaysConsistent(s.namespace, s.members, s'.members, s.nextId);
    InheritedPhases(s.namespace, s.members, s'.members, s.nextId, s.launchers);
    MovedOn(s.namespace, s'.members, s.nextId, s.launchers, pod, Reconciling);
  }

  lemma ReaddressedInPlace(members: seq<Member>, id: nat, url: Url)
    requires Owns(members, id, url.host)
    ensures var after := Readdress(members, id, url);
            && AllSamePlace(members, after)
            && forall i :: 0 <= i < |members| ==> after[i].name == members[i].name && after[i].clientURLs == members[i].clientURLs
  {
  }

  ghost predicate AllSamePlace(before: seq<Member>, after: seq<Member>) {
    |before| == |after| && forall i :: 0 <= i < |before| ==> SamePlace(before[i], after[i])
  }

  lemma InPlaceInherits(before: seq<Member>, after: seq<Member>)
    requires AllSamePlace(before, after)
    ensures Inherits(before, after)
  {
    forall i | 0 <= i < |after| ensures HadPlace(before, after[i]) {
      assert SamePlace(before[i], after[i]);
    }
  }

  /** Members that only changed their URLs or their names keep the list in order. */
  lemma InPlaceStaysConsistent(namespace: string, before: seq<Member>, after: seq<Member>, nextId: nat)
    requires Consistent(namespace, before, nextId) && AllSamePlace(before, after)
    requires forall i :: 0 <= i < |before| ==>
               || (after[i].name == before[i].name && after[i].clientURLs == before[i].clientURLs)
               || (after[i].name != "" && HostOf(after[i]) == PeerHost(after[i].name, namespace))
    ensures Consistent(namespace, after, nextId)
  {
    assert forall i :: 0 <= i < |before| ==> SamePlace(before[i], after[i]);
  }

  lemma ChooseStep(s: Ring, e: Event, s': Ring)
    requires Inv(s) && e.Choose? && Next(s, e, s')
    ensures Inv(s')
  {
    if e.choice.RemoveMember? {
      var k := ChosenMember(s, e, s');
      assert Elsewhere(s.members, e.choice.id, PeerHost(e.pod, s.namespace));
    }
    MovedOn(s.namespace, s.members, s.nextId, s.launchers, e.pod, s'.launchers[e.pod]);
  }

  /** The member a round chooses is in the list, answered no probe, and stands at another host:
      it has client URLs, so it has a name, which is not the launcher's.
   */
  lemma ChosenMember(s: Ring, e: Event, s': Ring) returns (k: nat)
    requires Inv(s) && e.Choose? && Next(s, e, s') && e.choice.RemoveMember?
    ensures k < |s.members| == |e.probes| && s.members[k].id == e.choice.id
    ensures !Answered(e.probes[k]) && HostOf(s.members[k]) != PeerHost(e.pod, s.namespace)
  {
    k :| 0 <= k < |s.members| && s.members[k].id == e.choice.id && s.members[k].clientURLs != []
         && s.members[k].name != e.pod && !Answered(e.probes[k]);
    if PeerHost(s.members[k].name, s.namespace) == PeerHost(e.pod, s.namespace) {
      PeerHostIsInjective(s.members[k].name, e.pod, s.namespace);
    }
  }

  lemma RemoveDeadStep(s: Ring, pod: string, s': Ring)
    requires Inv(s) && Next(s, RemoveDead(pod), s')
    ensures Inv(s')
  {
    var id := s.launchers[pod].id;
    TakenOutInherits(s.members, id, s'.members);
    TakenOutStaysConsistent(s.namespace, s.members, s.nextId, id, s'.members);
    InheritedPhases(s.namespace, s.members, s'.members, s.nextId, s.launchers);
  }

  lemma PublishStep(s: Ring, e: Event, s': Ring)
    requires Inv(s) && e.Publish? && Next(s, e, s')
    ensures Inv(s')
  {
    InPlaceInherits(s.members, s'.members);
    InPlaceStaysConsistent(s.namespace, s.members, s'.members, s.nextId);
    InheritedPhases(s.namespace, s.members, s'.members, s.nextId, s.launchers);
  }

  // ----- whole behaviours

  /** A ring whose launchers have just started, over a membership list in order. */
  ghost predicate Initial(s: Ring) {
    && "" !in s.launchers
    && Consistent(s.namespace, s.members, s.nextId)
    && forall pod :: pod in s.launchers ==> s.launchers[pod].Booting?
  }

  ghost predicate Behaviour(states: seq<Ring>, events: seq<Event>) {
    && |states| == |events| + 1
    && Initial(states[0])
    && forall i :: 0 <= i < |events| ==> Next(states[i], events[i], states[i + 1])
  }

  /** In every reachable state peer hosts are pairwise distinct and names belong to hosts. */
  lemma {:induction false} InvAlways(states: seq<Ring>, events: seq<Event>, i: nat)
    requires Behaviour(states, events) && i < |states|
    ensures Inv(states[i])
  {
    if i > 0 {
      InvAlways(states, events, i - 1);
      InvKept(states[i - 1], events[i - 1], states[i]);
    }
  }

  /** The ring that `initialMemberList` bootstraps. */
  function Bootstrapped(n: nat, namespace: string): seq<Member> {
    seq(n, i requires 0 <= i < n => InitialMember(i, namespace))
  }

  /** A bootstrapped ring is consistent and wants nobody removed, whatever its size and namespace. */
  lemma BootstrappedIsConsistent(n: nat, namespace: string)
    ensures Consistent(namespace, Bootstrapped(n, namespace), n)
    ensures forall i :: 0 <= i < n ==> !Unwanted(Bootstrapped(n, namespace)[i], n, namespace)
  {
    var members := Bootstrapped(n, namespace);
    forall i, j | 0 <= i < j < n ensures HostOf(members[i]) != HostOf(members[j]) {
      if HostOf(members[i]) == HostOf(members[j]) {
        PeerHostIsInjective(PodName(i), PodName(j), namespace);
        PodNameIsInjective(i, j);
      }
    }
    forall i: nat | i < n ensures !Unwanted(members[i], n, namespace) {
      InitialMembersAreWanted(n, namespace, i);
    }
  }

  // ----- the size of the ring

  /** When the loop of a launcher ends, the ring has no more members than it should have. */
  lemma SettledRingIsSmallEnough(states: seq<Ring>, events: seq<Event>, i: nat)
    requires Behaviour(states, events) && i < |events| && events[i].Check?
    requires states[i + 1].launchers[events[i].pod].Settled?
    ensures |states[i + 1].members| <= states[i + 1].size
  {
    InvAlways(states, events, i);
    WantedMembersAreFew(states[i].namespace, states[i].members, states[i].nextId, states[i].size);
  }

  lemma WantedMembersAreFew(namespace: string, members: seq<Member>, nextId: nat, n: nat)
    requires Consistent(namespace, members, nextId)
    requires forall i :: 0 <= i < |members| ==> !Unwanted(members[i], n, namespace)
    ensures |members| <= n
  {
    var hosts := Hosts(members);
    var wanted := WantedHosts(n, namespace);
    assert forall i :: 0 <= i < |hosts| ==> hosts[i] in wanted;
    Pigeonhole(hosts, wanted);
  }

  function Hosts(members: seq<Member>): seq<string> {
    seq(|members|, i requires 0 <= i < |members| => HostOf(members[i]))
  }

  /** A list without repetitions is no longer than a list it draws from. */
  lemma {:induction false} Pigeonhole<T>(a: seq<T>, b: seq<T>)
    requires forall i, j :: 0 <= i < j < |a| ==> a[i] != a[j]
    requires forall i :: 0 <= i < |a| ==> a[i] in b
    ensures |a| <= |b|
  {
    if a != [] {
      var k :| 0 <= k < |b| && b[k] == a[0];
      var rest := b[..k] + b[k + 1..];
      forall i | 0 <= i < |a[1..]| ensures a[1..][i] in rest {
        var x := a[1..][i];
        assert x == a[i + 1] && x != a[0];
        var m :| 0 <= m < |b| && b[m] == x;
        assert rest[if m < k then m else m - 1] == x;
      }
      Pigeonhole(a[1..], rest);
    }
  }

  // ----- membership changes and quorums

  function Ids(members: seq<Member>): set<nat> {
    set i | 0 <= i < |members| :: members[i].id
  }

  /** Two configurations that differ in at most one member. */
  predicate Adjacent(a: set<nat>, b: set<nat>) {
    || a == b
    || (exists id :: id in b && id !in a && b == a + {id})
    || (exists id :: id in a && id !in b && a == b + {id})
  }

  ghost predicate Majority(q: set<nat>, config: set<nat>) {
    q <= config && 2 * |q| > |config|
  }

  /** Every step changes the configuration by at most one member. */
  lemma StepChangesOneMember(s: Ring, e: Event, s': Ring)
    requires Inv(s) && Next(s, e, s')
    ensures Adjacent(Ids(s.members), Ids(s'.members))
  {
    if e.RemoveSelf? || e.RemoveDead? {
      TakenOutIds(s.namespace, s.members, s.nextId, s.launchers[e.pod].id, s'.members);
    } else if e.Join? {
      assert Ids(s'.members) == Ids(s.members) + {s.nextId} by {
        assert s'.members[|s.members|].id == s.nextId;
        assert forall i :: 0 <= i < |s.members| ==> s'.members[i] == s.members[i];
      }
    } else {
      SameIds(s, e, s');
    }
  }

  lemma SameIds(s: Ring, e: Event, s': Ring)
    requires Inv(s) && Next(s, e, s') && !e.RemoveSelf? && !e.RemoveDead? && !e.Join?
    ensures Ids(s'.members) == Ids(s.members)
  {
    assert |s'.members| == |s.members|;
    assert forall i :: 0 <= i < |s.members| ==> s'.members[i].id == s.members[i].id;
  }

  lemma TakenOutIds(namespace: string, before: seq<Member>, nextId: nat, id: nat, after: seq<Member>)
    requires Consistent(namespace, before, nextId) && TakenOut(before, id, after)
    ensures id in Ids(before) && id !in Ids(after) && Ids(before) == Ids(after) + {id}
  {
    assert id !in Ids(after) by {
      TakenOutStaysConsistent(namespace, before, nextId, id, after);
    }
    TakenOutIdsAre(before, id, after);
  }

  lemma TakenOutIdsAre(before: seq<Member>, id: nat, after: seq<Member>)
    requires TakenOut(before, id, after)
    ensures Ids(before) == Ids(after) + {id}
  {
    var k :| 0 <= k < |before| && TakenOutAt(before, id, after, k);
    assert before[k].id in Ids(before);
    forall x | x in Ids(after) ensures x in Ids(before) {
      var i :| 0 <= i < |after| && after[i].id == x;
      assert after[i] == before[if i < k then i else i + 1];
    }
    forall x | x in Ids(before) ensures x in Ids(after) + {id} {
      var i :| 0 <= i < |before| && before[i].id == x;
      assert i == k || after[if i < k then i else i - 1] == before[i];
    }
  }

  /** Majorities of adjacent configurations have a member in common. */
  lemma AdjacentMajoritiesMeet(a: set<nat>, b: set<nat>, p: set<nat>, q: set<nat>)
    requires Adjacent(a, b) && Majority(p, a) && Majority(q, b)
    ensures p * q != {}
  {
    var all := a + b;
    assert |all| <= (if |a| < |b| then |b| else |a|) && |a| + |b| + 1 >= 2 * |all| by {
      if id :| id in b && id !in a && b == a + {id} {
        assert all == b;
      } else if id :| id in a && id !in b && a == b + {id} {
        assert all == a;
      } else {
        assert all == a;
      }
    }
    if p * q == {} {
      assert |p + q| == |p| + |q|;
      Subset(p + q, all);
    }
  }

  lemma Subset(a: set<nat>, b: set<nat>)
    requires a <= b
    ensures |a| <= |b|
  {
    assert b == a + (b - a);
  }

  /** So in every behaviour each majority before a step meets each majority after it: no two
      disjoint quorums can decide on the two sides of a membership change.
   */
  lemma QuorumsOverlap(states: seq<Ring>, events: seq<Event>, i: nat, p: set<nat>, q: set<nat>)
    requires Behaviour(states, events) && i < |events|
    requires Majority(p, Ids(states[i].members)) && Majority(q, Ids(states[i + 1].members))
    ensures p * q != {}
  {
    InvAlways(states, events, i);
    StepChangesOneMember(states[i], events[i], states[i + 1]);
    AdjacentMajoritiesMeet(Ids(states[i].members), Ids(states[i + 1].members), p, q);
  }

  // ----- the leader's round

  /** Launcher `pod`, just confirmed as leader, chose this member at step j, and it answered none
      of the probes made then.
   */
  ghost predicate ChosenAt(states: seq<Ring>, events: seq<Event>, j: int, pod: string, id: nat)
    requires Behaviour(states, events)
  {
    && 0 <= j < |events| && events[j].Choose? && events[j].pod == pod
    && (exists l :: ConfirmedAt(events, l, j, pod))
    && exists k :: 0 <= k < |states[j].members| && k < |events[j].probes|
         && states[j].members[k].id == id && !Answered(events[j].probes[k])
  }

  /** Launcher `pod` was told at step l that it leads, and has not moved from there to step j. */
  ghost predicate ConfirmedAt(events: seq<Event>, l: int, j: int, pod: string) {
    && 0 <= l < j <= |events| && events[l] == Ask(pod, true)
    && forall m :: l < m < j ==> !ActsFor(events[m], pod)
  }

  predicate ActsFor(e: Event, pod: string) {
    !e.Publish? && e.pod == pod
  }

  /** What one launcher has asked for, in order. */
  function Requests(events: seq<Event>, pod: string): seq<Event> {
    if events == [] then []
    else
      var n := |events| - 1;
      Requests(events[..n], pod) + (if ActsFor(events[n], pod) then [events[n]] else [])
  }

  lemma RequestsGrow(events: seq<Event>, e: Event, pod: string)
    ensures Requests(events + [e], pod) == Requests(events, pod) + (if ActsFor(e, pod) then [e] else [])
  {
    assert (events + [e])[..|events|] == events;
  }

  /** A launcher leads after a step because it was told so, or because it did before and did not
      move.
   */
  predicate LeadsForAReason(s: Ring, e: Event, s': Ring, pod: string) {
    IsLeading(s', pod) ==> e == Ask(pod, true) || (!ActsFor(e, pod) && IsLeading(s, pod))
  }

  predicate IsLeading(s: Ring, pod: string) {
    pod in s.launchers && s.launchers[pod].Leading?
  }

  lemma StepLeadsForAReason(s: Ring, e: Event, s': Ring, pod: string)
    requires Next(s, e, s')
    ensures LeadsForAReason(s, e, s', pod)
  {
  }

  lemma LeadingWasConfirmed(states: seq<Ring>, events: seq<Event>, j: nat, pod: string)
    requires Behaviour(states, events) && j < |states| && IsLeading(states[j], pod)
    ensures exists l :: ConfirmedAt(events, l, j, pod)
  {
    forall i | 0 <= i < |events| ensures LeadsForAReason(states[i], events[i], states[i + 1], pod) {
      StepLeadsForAReason(states[i], events[i], states[i + 1], pod);
    }
    LeadingGoesBack(states, events, j, pod);
  }

  lemma {:induction false} LeadingGoesBack(states: seq<Ring>, events: seq<Event>, j: nat, pod: string)
    requires |states| == |events| + 1 && j < |states| && !IsLeading(states[0], pod)
    requires forall i :: 0 <= i < |events| ==> LeadsForAReason(states[i], events[i], states[i + 1], pod)
    requires IsLeading(states[j], pod)
    ensures exists l :: ConfirmedAt(events, l, j, pod)
  {
    var e := events[j - 1];
    assert LeadsForAReason(states[j - 1], e, states[j], pod);
    if e == Ask(pod, true) {
      assert ConfirmedAt(events, j - 1, j, pod);
    } else {
      LeadingGoesBack(states, events, j - 1, pod);
      var l :| ConfirmedAt(events, l, j - 1, pod);
      assert ConfirmedAt(events, l, j, pod);
    }
  }

  lemma PendingIsKept(s: Ring, e: Event, s': Ring, pod: string)
    requires Next(s, e, s') && pod in s'.launchers && s'.launchers[pod].RemovePending?
    requires !(e.Choose? && e.pod == pod)
    ensures pod in s.launchers && s.launchers[pod] == s'.launchers[pod]
  {
  }

  lemma {:induction false} PendingWasChosen(states: seq<Ring>, events: seq<Event>, i: nat, pod: string)
    requires Behaviour(states, events) && i < |states|
    requires pod in states[i].launchers && states[i].launchers[pod].RemovePending?
    ensures exists j :: 0 <= j < i && ChosenAt(states, events, j, pod, states[i].launchers[pod].id)
  {
    if i > 0 {
      var e := events[i - 1];
      assert Next(states[i - 1], e, states[i]);
      if e.Choose? && e.pod == pod {
        InvAlways(states, events, i - 1);
        var k := ChosenMember(states[i - 1], e, states[i]);
        LeadingWasConfirmed(states, events, i - 1, pod);
        assert ChosenAt(states, events, i - 1, pod, states[i].launchers[pod].id);
      } else {
        PendingIsKept(states[i - 1], e, states[i], pod);
        PendingWasChosen(states, events, i - 1, pod);
      }
    }
  }

  /** In every behaviour, the member a cleanup round takes out was chosen by a confirmed leader and
      answered no probe then, and what stands at the launcher's own host stays: the leader never
      removes itself.
   */
  lemma LeaderNeverRemovesItself(states: seq<Ring>, events: seq<Event>, i: nat)
    requires Behaviour(states, events) && i < |events| && events[i].RemoveDead?
    ensures var pod := events[i].pod;
            && pod in states[i].launchers && states[i].launchers[pod].RemovePending?
            && (exists k :: 0 <= k < |states[i].members| && TakenOutAt(states[i].members, states[i].launchers[pod].id, states[i + 1].members, k)
                  && HostOf(states[i].members[k]) != PeerHost(pod, states[i].namespace))
            && (forall m :: m in states[i].members && HostOf(m) == PeerHost(pod, states[i].namespace) ==> m in states[i + 1].members)
            && (exists j :: 0 <= j < i && ChosenAt(states, events, j, pod, states[i].launchers[pod].id))
  {
    var s, s', pod := states[i], states[i + 1], events[i].pod;
    InvAlways(states, events, i);
    assert Next(s, events[i], s');
    PendingWasChosen(states, events, i, pod);
    assert PhaseOk(s.namespace, s.members, s.nextId, pod, s.launchers[pod]);
    OthersStay(s.members, s.launchers[pod].id, s'.members, PeerHost(pod, s.namespace));
  }

  /** Taking out a member that is not at a host leaves what is at that host. */
  lemma OthersStay(before: seq<Member>, id: nat, after: seq<Member>, host: string)
    requires TakenOut(before, id, after) && Elsewhere(before, id, host)
    ensures exists k :: 0 <= k < |before| && TakenOutAt(before, id, after, k) && HostOf(before[k]) != host
    ensures forall m :: m in before && HostOf(m) == host ==> m in after
  {
    var k :| 0 <= k < |before| && TakenOutAt(before, id, after, k);
    forall m | m in before && HostOf(m) == host ensures m in after {
      var n :| 0 <= n < |before| && before[n] == m;
      assert n != k;
      assert after[if n < k then n else n - 1] == m;
    }
  }
}

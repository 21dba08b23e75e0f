/** The launcher of one pod, request by request: each method is one request to etcd together
    with the code around it and performs one step of the ring, while the other launchers move
    in between.
 */
module EtcdLauncher {
  import opened Locks
  import opened EtcdNames
  import opened EtcdMembers
  import opened EtcdRing

  /** The answer to a status request: who answers, and whom it takes for the leader (0: nobody). */
  datatype Status = Status(memberId: nat, leader: nat) | NoAnswer

  const LEADER_ATTEMPTS := 10

  predicate SaysLeader(status: Status) {
    status.Status? && status.leader != 0 && status.memberId == status.leader
  }

  /** `isLeader`: up to ten attempts, one confirming answer is enough. */
  method IsLeader(answers: seq<Status>) returns (leader: bool)
    requires |answers| >= LEADER_ATTEMPTS
    ensures leader <==> exists i :: 0 <= i < 10 && SaysLeader(answers[i])
  {
    for i := 0 to LEADER_ATTEMPTS
      invariant forall j :: 0 <= j < i ==> !SaysLeader(answers[j])
    {
      if answers[i].NoAnswer? || answers[i].leader == 0 {
        continue;
      }
      if answers[i].memberId == answers[i].leader {
        return true;
      }
    }
    leader := false;
  }

  /** `MemberUpdate`; fails when there is no such member. */
  method MemberUpdate(members: seq<Member>, id: nat, url: Url) returns (ok: bool, after: seq<Member>)
    ensures ok <==> exists i :: 0 <= i < |members| && members[i].id == id
    ensures |after| == |members| && forall i :: 0 <= i < |members| ==>
              after[i] == if members[i].id == id then members[i].(peerURLs := [url]) else members[i]
  {
    ok := false;
    after := members;
    for i := 0 to |members|
      invariant |after| == |members|
      invariant ok <==> exists j :: 0 <= j < i && members[j].id == id
      invariant forall j :: 0 <= j < |members| ==>
                  after[j] == if j < i && members[j].id == id then members[j].(peerURLs := [url]) else members[j]
    {
      if members[i].id == id {
        after := after[i := after[i].(peerURLs := [url])];
        ok := true;
      }
    }
  }

  /** `MemberRemove`; fails when there is no such member. */
  method MemberRemove(members: seq<Member>, id: nat) returns (ok: bool, after: seq<Member>)
    ensures ok <==> exists i :: 0 <= i < |members| && members[i].id == id
    ensures if ok then TakenOut(members, id, after) else after == members
  {
    for i := 0 to |members|
      invariant forall j :: 0 <= j < i ==> members[j].id != id
    {
      if members[i].id == id {
        after := members[..i] + members[i + 1..];
        assert TakenOutAt(members, id, after, i);
        return true, after;
      }
    }
    return false, members;
  }

  function Entry(asked: map<string, seq<Event>>, pod: string): seq<Event> {
    if pod in asked then asked[pod] else []
  }

  function Noted(asked: map<string, seq<Event>>, e: Event): map<string, seq<Event>> {
    if e.Publish? then asked else asked[e.pod := Entry(asked, e.pod) + [e]]
  }

  /** The log says for each launcher what it asked for. */
  ghost predicate LogIsTrue(events: seq<Event>, asked: map<string, seq<Event>>) {
    forall pod :: Entry(asked, pod) == Requests(events, pod)
  }

  ghost predicate IsHistory(ring: Ring, states: seq<Ring>, events: seq<Event>, asked: map<string, seq<Event>>) {
    forall key :: Unlocks(key) ==> Behaviour(states, events) && ring == states[|events|] && LogIsTrue(events, asked)
  }

  lemma HistoryGrows(ring: Ring, states: seq<Ring>, events: seq<Event>, asked: map<string, seq<Event>>, e: Event, next: Ring)
    requires IsHistory(ring, states, events, asked) && Next(ring, e, next)
    ensures IsHistory(next, states + [next], events + [e], Noted(asked, e))
  {
    assert Unlocks(0);
    BehaviourGrows(states, events, e, next);
    LogGrows(events, asked, e);
  }

  lemma LogGrows(events: seq<Event>, asked: map<string, seq<Event>>, e: Event)
    requires LogIsTrue(events, asked)
    ensures LogIsTrue(events + [e], Noted(asked, e))
  {
    forall pod ensures Entry(Noted(asked, e), pod) == Requests(events + [e], pod) {
      RequestsGrow(events, e, pod);
      assert Entry(asked, pod) == Requests(events, pod);
    }
  }

  /** The etcd cluster, with all that has happened to it, and what each launcher has asked for. */
  class Server {
    var ring: Ring
    ghost var states: seq<Ring>
    ghost var events: seq<Event>
    ghost var asked: map<string, seq<Event>>

    /** What the launcher of a pod has asked for so far, in order. */
    ghost function AskedBy(pod: string): seq<Event>
      reads this
    {
      Entry(asked, pod)
    }

    ghost predicate Valid()
      reads this
    {
      IsHistory(ring, states, events, asked)
    }

    lemma IsBehaviour(pod: string)
      requires Valid()
      ensures Behaviour(states, events) && ring == states[|events|] && AskedBy(pod) == Requests(events, pod)
    {
      assert Unlocks(0);
    }

    constructor (ring: Ring)
      requires Initial(ring)
      ensures Valid() && this.ring == ring && events == [] && asked == map[]
    {
      this.ring, this.states, this.events, this.asked := ring, [ring], [], map[];
    }

    /** A member taken out is gone: no other has its id. */
    lemma GoneForGood(id: nat, after: seq<Member>)
      requires Valid() && TakenOut(ring.members, id, after)
      ensures !IsMember(after, id)
    {
      assert Unlocks(0);
      InvAlways(states, events, |events|);
      TakenOutStaysConsistent(ring.namespace, ring.members, ring.nextId, id, after);
    }

    /** What the launcher of a pod relies on holds. */
    lemma Relies(pod: string)
      requires Valid() && pod in ring.launchers
      ensures PhaseOk(ring.namespace, ring.members, ring.nextId, pod, ring.launchers[pod])
    {
      assert Unlocks(0);
      InvAlways(states, events, |events|);
    }

    method Move(e: Event, next: Ring)
      requires Valid() && Next(ring, e, next)
      modifies this
      ensures Valid() && ring == next && events == old(events) + [e]
      ensures forall pod :: AskedBy(pod) == old(AskedBy(pod)) + (if ActsFor(e, pod) then [e] else [])
    {
      HistoryGrows(ring, states, events, asked, e, next);
      ring, states, events, asked := next, states + [next], events + [e], Noted(asked, e);
    }

    /** The other launchers, and the etcd processes, take any number of steps. */
    method OthersMove(pod: string)
      requires Valid() && pod in ring.launchers
      modifies this
      ensures Valid() && old(events) <= events && AskedBy(pod) == old(AskedBy(pod))
      ensures pod in ring.launchers && ring.launchers[pod] == old(ring.launchers[pod])
    {
      var steps: nat :| steps >= 0;
      for i := 0 to steps
        invariant Valid() && old(events) <= events && AskedBy(pod) == old(AskedBy(pod))
        invariant pod in ring.launchers && ring.launchers[pod] == old(ring.launchers[pod])
      {
        var e: Event, next: Ring := *, *;
        if Next(ring, e, next) && !ActsFor(e, pod) {
          OthersLeavePhase(ring, e, next, pod);
          Move(e, next);
        }
      }
    }
  }

  lemma BehaviourGrows(states: seq<Ring>, events: seq<Event>, e: Event, next: Ring)
    requires Behaviour(states, events) && Next(states[|events|], e, next)
    ensures Behaviour(states + [next], events + [e])
  {
  }

  lemma OthersLeavePhase(s: Ring, e: Event, s': Ring, pod: string)
    requires Next(s, e, s') && !ActsFor(e, pod) && pod in s.launchers
    ensures pod in s'.launchers && s'.launchers[pod] == s.launchers[pod]
  {
  }

  class Launcher {
    const pod: string
    const server: Server

    constructor (pod: string, server: Server)
      ensures this.pod == pod && this.server == server
    {
      this.pod, this.server := pod, server;
    }

    function Phase(): Phase
      requires pod in server.ring.launchers
      reads server
    {
      server.ring.launchers[pod]
    }

    /** The peer host of this pod. */
    function Host(): string
      reads server
    {
      PeerHost(pod, server.ring.namespace)
    }

    ghost predicate Ready()
      reads server
    {
      server.Valid() && pod in server.ring.launchers
    }

    /** What this launcher has asked for so far. */
    ghost function Asked(): seq<Event>
      reads server
    {
      server.AskedBy(pod)
    }

    /** A request of this launcher. */
    method Request(e: Event, next: Ring)
      requires Ready() && Next(server.ring, e, next) && ActsFor(e, pod) && pod in next.launchers
      modifies server
      ensures Ready() && server.ring == next && server.events == old(server.events) + [e] && Asked() == old(Asked()) + [e]
    {
      server.Move(e, next);
    }

    /** Looks for this pod in the member list: it is a member exactly when some member stands at
        its host, and then that member is the one found.
     */
    method FindSelf()
      requires Ready() && Phase() == Booting
      modifies server
      ensures Ready() && old(server.events) <= server.events && Asked() == old(Asked()) + [Find(pod)] && server.ring.members == old(server.ring.members)
      ensures Phase() == Absent ==> NoMemberAt(server.ring.members, Host())
      ensures Phase() != Absent ==>
                Phase().Present? && IsMember(server.ring.members, Phase().id) && Owns(server.ring.members, Phase().id, Host())
    {
      var s := server.ring;
      var m := GetMemberByName(s.members, pod, s.namespace);
      Request(Find(pod), Goto(s, pod, if m.None? then Absent else Present(m.value.id)));
      server.Relies(pod);
    }

    /** Without data directory the launcher will remove a member and rejoin. Even if the list has
        changed since it found itself, the member it will remove is at its own host.
     */
    method CheckDataDir(dataDir: bool)
      requires Ready() && Phase().Present?
      modifies server
      ensures Ready() && old(server.events) <= server.events && Asked() == old(Asked()) + [Stat(pod, dataDir)] && server.ring.members == old(server.ring.members)
      ensures dataDir ==> Phase() == Joined
      ensures !dataDir ==> Phase().MustRejoin? && Owns(server.ring.members, Phase().id, Host())
    {
      server.Relies(pod);
      Request(Stat(pod, dataDir), Goto(server.ring, pod, if dataDir then Joined else MustRejoin(Phase().id)));
    }

    /** Removes itself after losing its data, after which nobody is at its host. If that fails the
        pod restarts.
     */
    method RemoveItself()
      requires Ready() && Phase().MustRejoin?
      modifies server
      ensures Ready() && old(server.events) <= server.events
      ensures if IsMember(old(server.ring.members), old(Phase().id))
              then Asked() == old(Asked()) + [RemoveSelf(pod)] && Phase() == Removed && NoMemberAt(server.ring.members, Host())
              else Asked() == old(Asked()) + [Fail(pod)] && Phase() == Booting && server.ring.members == old(server.ring.members)
    {
      var s := server.ring;
      var ok, members := MemberRemove(s.members, Phase().id);
      if !ok {
        Request(Fail(pod), Goto(s, pod, Booting));
        return;
      }
      Request(RemoveSelf(pod), Goto(s, pod, Removed).(members := members));
      server.Relies(pod);
    }

    /** `joinCluster`: `MemberAdd` of this pod's own peer URL, after which exactly one member is at
        its host, although the launcher looked for itself some steps ago.
     */
    method JoinCluster()
      requires Ready() && (Phase() == Absent || Phase() == Removed)
      modifies server
      ensures Ready() && old(server.events) <= server.events && Asked() == old(Asked()) + [Join(pod)] && Phase() == Joined
      ensures NoMemberAt(old(server.ring.members), Host())
      ensures exists m :: server.ring.members == old(server.ring.members) + [m] && HostOf(m) == Host()
    {
      server.Relies(pod);
      var s := server.ring;
      var url := Url("http", PeerHost(pod, s.namespace));
      var m: Member := MemberRecord(s.nextId, "", [url], []);
      Request(Join(pod), Goto(s, pod, Joined).(members := s.members + [m], nextId := s.nextId + 1));
    }

    /** Out and in again; the others may move while the launcher is out. */
    method Rejoin()
      requires Ready() && Phase().MustRejoin?
      modifies server
      ensures Ready() && old(server.events) <= server.events
      ensures || (Phase() == Joined && Asked() == old(Asked()) + [RemoveSelf(pod), Join(pod)])
              || (Phase() == Booting && Asked() == old(Asked()) + [Fail(pod)])
    {
      RemoveItself();
      if Phase() == Removed {
        server.OthersMove(pod);
        JoinCluster();
      }
    }

    /** The first part of `main`: whatever the others do meanwhile, the launcher becomes a member
        or restarts. A member that has lost its data directory leaves and joins again.
     */
    method BecomeMember(dataDir: bool)
      requires Ready() && Phase() == Booting
      modifies server
      ensures Ready() && old(server.events) <= server.events
      ensures || (Phase() == Joined && BecameMember(pod, dataDir, old(Asked()), Asked()))
              || (Phase() == Booting && !dataDir && Asked() == old(Asked()) + [Find(pod), Stat(pod, false), Fail(pod)])
    {
      FindSelf();
      server.OthersMove(pod);
      if Phase().Present? {
        StayOrRejoin(dataDir);
      } else {
        JoinCluster();
      }
    }

    /** What a launcher does that is a member already. */
    method StayOrRejoin(dataDir: bool)
      requires Ready() && Phase().Present?
      modifies server
      ensures Ready() && old(server.events) <= server.events
      ensures || (Phase() == Joined && dataDir && Asked() == old(Asked()) + [Stat(pod, true)])
              || (Phase() == Joined && !dataDir && Asked() == old(Asked()) + [Stat(pod, false), RemoveSelf(pod), Join(pod)])
              || (Phase() == Booting && !dataDir && Asked() == old(Asked()) + [Stat(pod, false), Fail(pod)])
    {
      CheckDataDir(dataDir);
      if !dataDir {
        server.OthersMove(pod);
        Rejoin();
      }
    }

    /** The listing half of `updatePeerURLToHTTP`. */
    method FindOutdatedURL()
      requires Ready() && Phase() == Joined
      modifies server
      ensures Ready() && old(server.events) <= server.events && Asked() == old(Asked()) + [FindOutdated(pod)] && server.ring.members == old(server.ring.members)
      ensures if forall i :: 0 <= i < |server.ring.members| ==>
                   !(server.ring.members[i].name == pod && server.ring.members[i].peerURLs[0].scheme == "https")
              then Phase() == Reconciling
              else Phase().UpdatePending? && Phase().url.scheme == "http"
      ensures Phase().UpdatePending? ==>
                exists m :: m in server.ring.members && m.name == pod && m.peerURLs[0].scheme == "https"
                            && Phase() == UpdatePending(m.id, Url("http", m.peerURLs[0].host))
    {
      var s := server.ring;
      var plan := PlanUpdate(s.members, pod);
      Request(FindOutdated(pod), Goto(s, pod, if plan.None? then Reconciling else UpdatePending(plan.value.0, plan.value.1)));
    }

    /** Its second half: the member gets the new URL, nobody changes host, and nobody else changes
        at all. An error restarts the pod.
     */
    method UpdatePeerURL()
      requires Ready() && Phase().UpdatePending?
      modifies server
      ensures Ready() && old(server.events) <= server.events && AllSamePlace(old(server.ring.members), server.ring.members)
      ensures if IsMember(old(server.ring.members), old(Phase().id))
              then Asked() == old(Asked()) + [UpdateURL(pod)] && Phase() == Reconciling
              else Asked() == old(Asked()) + [Fail(pod)] && Phase() == Booting
      ensures forall i :: 0 <= i < |server.ring.members| ==>
                if server.ring.members[i].id == old(Phase().id)
                then server.ring.members[i].peerURLs == [old(Phase().url)]
                else server.ring.members[i] == old(server.ring.members)[i]
    {
      server.Relies(pod);
      var s, phase := server.ring, Phase();
      ReaddressedInPlace(s.members, phase.id, phase.url);
      var ok, members := MemberUpdate(s.members, phase.id, phase.url);
      assert members == Readdress(s.members, phase.id, phase.url);
      if ok {
        Request(UpdateURL(pod), Goto(s, pod, Reconciling).(members := members));
      } else {
        Request(Fail(pod), Goto(s, pod, Booting));
      }
    }

    /** The first request of `deleteUnwantedDeadMembers`. Done means that the ring has no more
        members than it should have.
     */
    method CheckMembers() returns (done: bool)
      requires Ready() && Phase() == Reconciling
      modifies server
      ensures Ready() && old(server.events) <= server.events && Asked() == old(Asked()) + [Check(pod)] && server.ring.members == old(server.ring.members)
      ensures Phase() == if done then Settled else Suspecting
      ensures done ==> |server.ring.members| <= server.ring.size
      ensures done <==> forall i :: 0 <= i < |server.ring.members| ==>
                          !Unwanted(server.ring.members[i], server.ring.size, server.ring.namespace)
    {
      var s := server.ring;
      var unwanted := ContainsUnwantedMembers(s.members, s.size, s.namespace);
      done := !unwanted;
      Request(Check(pod), Goto(s, pod, if done then Settled else Suspecting));
      if done {
        server.IsBehaviour(pod);
        SettledRingIsSmallEnough(server.states, server.events, |server.events| - 1);
      }
    }

    method AskLeader(answers: seq<Status>) returns (leader: bool)
      requires Ready() && Phase() == Suspecting && |answers| >= LEADER_ATTEMPTS
      modifies server
      ensures Ready() && old(server.events) <= server.events && Asked() == old(Asked()) + [Ask(pod, leader)] && server.ring.members == old(server.ring.members)
      ensures leader <==> exists i :: 0 <= i < 10 && SaysLeader(answers[i])
      ensures Phase() == if leader then Leading else Reconciling
    {
      leader := IsLeader(answers);
      Request(Ask(pod, leader), Goto(server.ring, pod, if leader then Leading else Reconciling));
    }

    /** `removeDeadMembers` up to the removal, on a fresh list: the first member that is not passed
        over decides, and if it is chosen it is not at this launcher's host.
     */
    method ChooseDeadMember(probes: seq<seq<Probe>>) returns (choice: Choice)
      requires Ready() && Phase() == Leading && |probes| == |server.ring.members|
      modifies server
      ensures Ready() && old(server.events) <= server.events && Asked() == old(Asked()) + [Choose(pod, probes, choice)] && server.ring.members == old(server.ring.members)
      ensures ChoiceOk(server.ring.members, probes, pod, choice)
      ensures choice.NoneDead? ==> Phase() == Reconciling
      ensures choice.Panic? ==> Phase() == Booting
      ensures choice.RemoveMember? ==> Phase() == RemovePending(choice.id) && Elsewhere(server.ring.members, choice.id, Host())
    {
      var s := server.ring;
      choice := RemoveDeadMembers(s.members, probes, pod);
      var phase := match choice
        case NoneDead => Reconciling
        case RemoveMember(id) => RemovePending(id)
        case Panic => Booting;
      Request(Choose(pod, probes, choice), Goto(s, pod, phase));
      server.Relies(pod);
    }

    /** The removal at its end; an error is only logged. Afterwards the chosen member is gone, and
        what is at this launcher's own host stays.
     */
    method RemoveChosenMember()
      requires Ready() && Phase().RemovePending?
      modifies server
      ensures Ready() && old(server.events) <= server.events && Phase() == Reconciling && !IsMember(server.ring.members, old(Phase().id))
      ensures if IsMember(old(server.ring.members), old(Phase().id))
              then Asked() == old(Asked()) + [RemoveDead(pod)] && TakenOut(old(server.ring.members), old(Phase().id), server.ring.members)
              else Asked() == old(Asked()) + [GiveUp(pod)] && server.ring.members == old(server.ring.members)
      ensures forall m :: m in old(server.ring.members) && HostOf(m) == Host() ==> m in server.ring.members
    {
      server.Relies(pod);
      var s, phase := server.ring, Phase();
      var ok, members := MemberRemove(s.members, phase.id);
      if ok {
        OthersStay(s.members, phase.id, members, Host());
        server.GoneForGood(phase.id, members);
        Request(RemoveDead(pod), Goto(s, pod, Reconciling).(members := members));
      } else {
        Request(GiveUp(pod), Goto(s, pod, Reconciling));
      }
    }

    /** `removeDeadMembers`, with the others moving while it probes. Unless the listing fails, the
        first member that is neither the launcher's own nor answers is no member afterwards; if it
        has no client URL the code panics instead, and if there is none nothing happens.
     */
    method RemoveDeadMember(listed: bool, probes: seq<seq<Probe>>)
      requires Ready() && Phase() == Leading && (listed ==> |probes| == |server.ring.members|)
      modifies server
      ensures Ready() && old(server.events) <= server.events && old(Asked()) < Asked()
      ensures Phase() == Reconciling || Phase() == Booting
      ensures !listed ==> Asked() == old(Asked()) + [GiveUp(pod)] && server.ring.members == old(server.ring.members)
      ensures listed ==> Asked()[|old(Asked())|].Choose? && Asked()[|old(Asked())|].probes == probes
                         && ChosenIsGone(server.ring.members, Asked()[|old(Asked())|].choice)
      ensures listed ==> forall k :: 0 <= k < |old(server.ring.members)| && FirstSilent(old(server.ring.members), probes, pod, k) ==>
                if old(server.ring.members)[k].clientURLs == []
                then Phase() == Booting && server.ring.members == old(server.ring.members)
                else !IsMember(server.ring.members, old(server.ring.members)[k].id)
      ensures listed && (forall k :: 0 <= k < |old(server.ring.members)| ==> !FirstSilent(old(server.ring.members), probes, pod, k)) ==>
                Phase() == Reconciling && server.ring.members == old(server.ring.members)
    {
      if !listed {
        Request(GiveUp(pod), Goto(server.ring, pod, Reconciling));
        return;
      }
      var choice := ChooseDeadMember(probes);
      ChoiceMeans(old(server.ring.members), probes, pod, choice);
      if choice.RemoveMember? {
        server.OthersMove(pod);
        RemoveChosenMember();
      }
    }

    /** `deleteUnwantedDeadMembers`, with the others moving between its requests: done after the
        first one, or when there are unwanted members and this is the leader, a round of removal,
        which gives up if the members cannot be listed. What it chooses is gone afterwards.
     */
    method DeleteUnwantedDeadMembers(answers: seq<Status>, listed: bool) returns (done: bool)
      requires Ready() && Phase() == Reconciling && |answers| >= LEADER_ATTEMPTS
      modifies server
      ensures Ready() && old(server.events) <= server.events
      ensures if done then Phase() == Settled && |server.ring.members| <= server.ring.size
              else Phase() == Reconciling || Phase() == Booting
      ensures var leader := exists i :: 0 <= i < 10 && SaysLeader(answers[i]);
              if done then Asked() == old(Asked()) + [Check(pod)]
              else if !leader then Asked() == old(Asked()) + [Check(pod), Ask(pod, false)]
              else && old(Asked()) + [Check(pod), Ask(pod, true)] < Asked()
                   && (listed ==> Asked()[|old(Asked())| + 2].Choose?
                                  && ChosenIsGone(server.ring.members, Asked()[|old(Asked())| + 2].choice))
    {
      done := CheckMembers();
      if done {
        return;
      }
      server.OthersMove(pod);
      var leader := AskLeader(answers);
      ghost var mine := Asked();
      assert mine == old(Asked()) + [Check(pod), Ask(pod, leader)];
      if leader {
        RemoveOne(listed);
        assert mine < Asked();
      }
    }

    /** A round of removal, whatever the probes say. */
    method RemoveOne(listed: bool)
      requires Ready() && Phase() == Leading
      modifies server
      ensures Ready() && old(server.events) <= server.events && old(Asked()) < Asked()
      ensures Phase() == Reconciling || Phase() == Booting
      ensures listed ==> Asked()[|old(Asked())|].Choose? && ChosenIsGone(server.ring.members, Asked()[|old(Asked())|].choice)
    {
      server.OthersMove(pod);
      assert |seq(|server.ring.members|, _ => [Healthy])| == |server.ring.members|;
      var probes: seq<seq<Probe>> :| |probes| == |server.ring.members|;
      RemoveDeadMember(listed, probes);
    }

    /** The loop at the end of `main`, for a number of rounds. */
    method Reconcile(rounds: nat) returns (settled: bool)
      requires Ready() && (Phase() == Reconciling || Phase() == Booting)
      modifies server
      ensures Ready() && old(server.events) <= server.events && old(Asked()) <= Asked()
      ensures settled ==> Phase() == Settled && |server.ring.members| <= server.ring.size && Asked()[|old(Asked())|..] != []
      ensures !settled ==> Phase() == Booting || |Asked()| >= |old(Asked())| + 2 * rounds
    {
      for i := 0 to rounds
        invariant Ready() && old(server.events) <= server.events && old(Asked()) <= Asked()
        invariant Phase() == Reconciling || Phase() == Booting
        invariant Phase() == Booting || |Asked()| >= |old(Asked())| + 2 * i
      {
        if Phase() == Booting {
          return false;
        }
        server.OthersMove(pod);
        assert |seq(LEADER_ATTEMPTS, _ => NoAnswer)| == LEADER_ATTEMPTS;
        var answers: seq<Status> :| |answers| == LEADER_ATTEMPTS;
        var listed: bool := *;
        settled := DeleteUnwantedDeadMembers(answers, listed);
        if settled {
          return;
        }
      }
      settled := false;
    }

    /** `main` from the look at the member list on, for a number of cleanup rounds. However the
        launchers interleave, what happens is a behaviour of the ring, and if the launcher comes
        to rest it has become a member in the proper way, has looked for outdated URLs, and the
        ring has no more members than it should have.
     */
    method Manage(dataDir: bool, rounds: nat) returns (settled: bool)
      requires Ready() && Phase() == Booting
      modifies server
      ensures Ready() && old(server.events) <= server.events
      ensures settled ==> Phase() == Settled && |server.ring.members| <= server.ring.size
      ensures settled ==> exists mine :: BecameMember(pod, dataDir, old(Asked()), mine) && mine + [FindOutdated(pod)] <= Asked()
    {
      BecomeMember(dataDir);
      if Phase() == Booting {
        return false;
      }
      ghost var mine := Asked();
      server.OthersMove(pod);
      UpdateToHTTP();
      ghost var updated := Asked();
      settled := Reconcile(rounds);
      assert mine + [FindOutdated(pod)] <= updated <= Asked();
    }

    /** `updatePeerURLToHTTP`, with the others moving between its requests. */
    method UpdateToHTTP()
      requires Ready() && Phase() == Joined
      modifies server
      ensures Ready() && old(server.events) <= server.events && old(Asked()) + [FindOutdated(pod)] <= Asked()
      ensures Phase() == Reconciling || Phase() == Booting
    {
      FindOutdatedURL();
      if Phase().UpdatePending? {
        server.OthersMove(pod);
        UpdatePeerURL();
      }
    }
  }

  /** The three ways to become a member: join, stay with the data at hand, or leave and join again
      without.
   */
  predicate BecameMember(pod: string, dataDir: bool, before: seq<Event>, after: seq<Event>) {
    || after == before + [Find(pod), Join(pod)]
    || (dataDir && after == before + [Find(pod), Stat(pod, true)])
    || (!dataDir && after == before + [Find(pod), Stat(pod, false), RemoveSelf(pod), Join(pod)])
  }

  predicate ChosenIsGone(members: seq<Member>, choice: Choice) {
    choice.RemoveMember? ==> !IsMember(members, choice.id)
  }

  /** The first member that is neither the launcher's own nor answers. */
  predicate FirstSilent(members: seq<Member>, probes: seq<seq<Probe>>, pod: string, k: int)
    requires |probes| == |members|
  {
    && 0 <= k < |members| && members[k].name != pod && (members[k].clientURLs == [] || !Answered(probes[k]))
    && forall j :: 0 <= j < k ==> members[j].name == pod || (members[j].clientURLs != [] && Answered(probes[j]))
  }

  lemma ChoiceMeans(members: seq<Member>, probes: seq<seq<Probe>>, pod: string, choice: Choice)
    requires |probes| == |members| && ChoiceOk(members, probes, pod, choice)
    ensures forall k :: 0 <= k < |members| && FirstSilent(members, probes, pod, k) ==>
              choice == if members[k].clientURLs == [] then Panic else RemoveMember(members[k].id)
    ensures (forall k :: 0 <= k < |members| ==> !FirstSilent(members, probes, pod, k)) ==> choice == NoneDead
  {
    if !choice.NoneDead? {
      var i :| 0 <= i < |members| && !Passed(members[i], probes[i], pod)
               && (forall j :: 0 <= j < i ==> Passed(members[j], probes[j], pod))
               && choice == if members[i].clientURLs == [] then Panic else RemoveMember(members[i].id);
      assert FirstSilent(members, probes, pod, i);
      assert forall k :: 0 <= k < |members| && FirstSilent(members, probes, pod, k) ==> k == i;
    }
  }
}

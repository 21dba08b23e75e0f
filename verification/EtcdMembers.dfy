/** What one etcd launcher reads off a membership list: whether its pod is a member, whose peer
    URL is outdated, whether there are members that should not be there, and which dead member
    the leader removes (`cmd/etcd-launcher/main.go`).
 */
module EtcdMembers {
  import opened Options
  import opened EtcdNames

  datatype Url = Url(scheme: string, host: string)

  /** `peerURLs` is never empty: etcd refuses a member without peer URL. */
  datatype MemberRecord = MemberRecord(id: nat, name: string, peerURLs: seq<Url>, clientURLs: seq<string>)
  type Member = m: MemberRecord | m.peerURLs != [] witness MemberRecord(0, "", [Url("", "")], [])

  function HostOf(m: Member): string {
    m.peerURLs[0].host
  }

  // ----- getMemberByName

  predicate Answers(m: Member, pod: string, namespace: string) {
    m.name == pod || HostOf(m) == PeerHost(pod, namespace)
  }

  /** Position of the first member that stands for the pod, by name or by peer host. */
  function FindMember(members: seq<Member>, pod: string, namespace: string): (r: Option<nat>)
    ensures r.Some? ==> r.value < |members| && Answers(members[r.value], pod, namespace)
    ensures r.Some? ==> forall i :: 0 <= i < r.value ==> !Answers(members[i], pod, namespace)
    ensures r.None? ==> forall i :: 0 <= i < |members| ==> !Answers(members[i], pod, namespace)
  {
    if members == [] then None
    else if Answers(members[0], pod, namespace) then Some(0)
    else
      match FindMember(members[1..], pod, namespace)
      case None => assert forall i :: 1 <= i < |members| ==> members[i] == members[1..][i - 1]; None
      case Some(i) => assert forall j :: 1 <= j <= i ==> members[j] == members[1..][j - 1]; Some(i + 1)
  }

  method GetMemberByName(members: seq<Member>, pod: string, namespace: string) returns (r: Option<Member>)
    ensures var found := FindMember(members, pod, namespace);
            r == if found.None? then None else Some(members[found.value])
  {
    for i := 0 to |members|
      invariant var found, rest := FindMember(members, pod, namespace), FindMember(members[i..], pod, namespace);
                if rest.None? then found.None? else found == Some(i + rest.value)
    {
      var m := members[i];
      assert members[i..][1..] == members[i + 1..];
      if m.name == pod || m.peerURLs[0].host == PeerHost(pod, namespace) {
        return Some(m);
      }
    }
    r := None;
  }

  // ----- updatePeerURLToHTTP

  predicate Outdated(m: Member, pod: string) {
    m.name == pod && m.peerURLs[0].scheme == "https"
  }

  /** The update the launcher asks for: the first member of its name with an https peer URL. */
  method PlanUpdate(members: seq<Member>, pod: string) returns (r: Option<(nat, Url)>)
    ensures r.None? <==> forall i :: 0 <= i < |members| ==> !Outdated(members[i], pod)
    ensures r.Some? ==> exists i :: 0 <= i < |members| && Outdated(members[i], pod)
                          && r.value == (members[i].id, Url("http", HostOf(members[i])))
                          && forall j :: 0 <= j < i ==> !Outdated(members[j], pod)
  {
    for i := 0 to |members|
      invariant forall j :: 0 <= j < i ==> !Outdated(members[j], pod)
    {
      var url := members[i].peerURLs[0];
      if members[i].name == pod && url.scheme == "https" {
        url := url.(scheme := "http");
        return Some((members[i].id, url));
      }
    }
    r := None;
  }

  // ----- containsUnwantedMembers

  predicate Unwanted(m: Member, n: nat, namespace: string) {
    |m.peerURLs| != 1 || HostOf(m) !in WantedHosts(n, namespace)
  }

  method Contains(list: seq<string>, v: string) returns (r: bool)
    ensures r <==> v in list
  {
    for i := 0 to |list|
      invariant v !in list[..i]
    {
      if list[i] == v {
        return true;
      }
    }
    assert list[..|list|] == list;
    r := false;
  }

  method ContainsUnwantedMembers(members: seq<Member>, n: nat, namespace: string) returns (r: bool)
    ensures r <==> exists i :: 0 <= i < |members| && Unwanted(members[i], n, namespace)
  {
    var expected := PeerURLsList(n, namespace);
    for i := 0 to |members|
      invariant forall j :: 0 <= j < i ==> !Unwanted(members[j], n, namespace)
    {
      if |members[i].peerURLs| != 1 {
        return true;
      }
      var known := Contains(expected, HostOf(members[i]));
      if !known {
        return true;
      }
    }
    r := false;
  }

  /** The members a ring bootstrapped from `initialMemberList` has. */
  function InitialMember(i: nat, namespace: string): Member {
    MemberRecord(i, PodName(i), [Url("http", PeerHost(PodName(i), namespace))],
                 ["https://" + PodName(i) + ".etcd." + namespace + ".svc.cluster.local:2379"])
  }

  method InitialMemberList(n: nat, namespace: string) returns (members: seq<string>)
    ensures |members| == n
    ensures forall i :: 0 <= i < n ==>
              members[i] == InitialMember(i, namespace).name + "=" + Text(InitialMember(i, namespace).peerURLs[0])
  {
    members := [];
    for i := 0 to n
      invariant |members| == i
      invariant forall j :: 0 <= j < i ==>
                  members[j] == InitialMember(j, namespace).name + "=" + Text(InitialMember(j, namespace).peerURLs[0])
    {
      members := members + [PodName(i) + "=" + ("http://" + PeerHost(PodName(i), namespace))];
    }
  }

  function Text(url: Url): string {
    url.scheme + "://" + url.host
  }

  /** Such a ring never counts as having unwanted members, whatever its size and namespace. */
  lemma InitialMembersAreWanted(n: nat, namespace: string, i: nat)
    requires i < n
    ensures !Unwanted(InitialMember(i, namespace), n, namespace)
  {
    WantedHostsAreDistinct(n, namespace);
  }

  // ----- removeDeadMembers

  datatype Probe = Healthy | Unhealthy | ProbeFailed

  const POLLS := 30

  /** A member answers if one of its first 30 probes is healthy and those before it, though not
      healthy, did not fail.
   */
  predicate Answered(probes: seq<Probe>) {
    exists i :: 0 <= i < 30 && i < |probes| && probes[i].Healthy? && forall j :: 0 <= j < i ==> probes[j].Unhealthy?
  }

  /** `wait.Poll` with a timeout of 30 ticks; it stops at the first probe that is healthy or fails,
      and an answer missing at the end counts as no answer.
   */
  method PollHealth(probes: seq<Probe>) returns (alive: bool)
    ensures alive <==> Answered(probes)
  {
    var i := 0;
    while i < POLLS && i < |probes|
      invariant 0 <= i <= POLLS && i <= |probes|
      invariant forall j :: 0 <= j < i ==> probes[j].Unhealthy?
    {
      match probes[i] {
        case Healthy => return true;
        case ProbeFailed => return false;
        case Unhealthy =>
      }
      i := i + 1;
    }
    alive := false;
  }

  datatype Choice = NoneDead | RemoveMember(id: nat) | Panic

  /** A member the round passes over: the launcher's own, or one that answered. */
  predicate Passed(m: Member, probes: seq<Probe>, pod: string) {
    m.name == pod || (m.clientURLs != [] && Answered(probes))
  }

  /** What a round amounts to: the first member that is not passed over decides. Taking the
      last client URL of a member that has none is a run-time panic.
   */
  predicate ChoiceOk(members: seq<Member>, probes: seq<seq<Probe>>, pod: string, choice: Choice)
    requires |probes| == |members|
  {
    if choice.NoneDead? then
      forall i :: 0 <= i < |members| ==> Passed(members[i], probes[i], pod)
    else
      exists i :: 0 <= i < |members| && !Passed(members[i], probes[i], pod)
                  && (forall j :: 0 <= j < i ==> Passed(members[j], probes[j], pod))
                  && choice == if members[i].clientURLs == [] then Panic else RemoveMember(members[i].id)
  }

  method RemoveDeadMembers(members: seq<Member>, probes: seq<seq<Probe>>, pod: string) returns (choice: Choice)
    requires |probes| == |members|
    ensures ChoiceOk(members, probes, pod, choice)
  {
    for i := 0 to |members|
      invariant forall j :: 0 <= j < i ==> Passed(members[j], probes[j], pod)
    {
      if members[i].name == pod {
        continue;
      }
      if members[i].clientURLs == [] {
        return Panic;
      }
      var alive := PollHealth(probes[i]);
      if !alive {
        return RemoveMember(members[i].id);
      }
    }
    choice := NoneDead;
  }
}

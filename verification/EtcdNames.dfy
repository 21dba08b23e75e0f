/** Pod names, host names and URLs of the etcd ring, as `cmd/etcd-launcher/main.go` prints them. */
module EtcdNames {

  const DIGITS := "0123456789"

  /** `%d` of a non-negative number. */
  function Decimal(n: nat): (s: string)
    ensures |s| >= 1 && (|s| == 1 <==> n < 10)
  {
    if n < 10 then [DIGITS[n]] else Decimal(n / 10) + [DIGITS[n % 10]]
  }

  lemma {:induction false} DecimalIsInjective(m: nat, n: nat)
    requires Decimal(m) == Decimal(n)
    ensures m == n
    decreases m
  {
    var a, b := Decimal(m), Decimal(n);
    assert a[|a| - 1] == b[|b| - 1];
    if m < 10 {
      assert DIGITS[m] == DIGITS[n];
    } else {
      assert a[..|a| - 1] == Decimal(m / 10) && b[..|b| - 1] == Decimal(n / 10);
      DecimalIsInjective(m / 10, n / 10);
      assert DIGITS[m % 10] == DIGITS[n % 10];
    }
  }

  /** The number a text of decimal digits stands for. */
  function Value(s: string): nat {
    if s == "" then 0 else 10 * Value(s[..|s| - 1]) + (if '0' <= s[|s| - 1] <= '9' then s[|s| - 1] as int - '0' as int else 0)
  }

  /** The text is made of digits, stands for the number, and has no leading zero. */
  lemma {:induction false} DecimalMeans(n: nat)
    ensures Value(Decimal(n)) == n && (forall c :: c in Decimal(n) ==> '0' <= c <= '9')
    ensures n > 0 ==> Decimal(n)[0] != '0'
  {
    assert forall d :: 0 <= d < 10 ==> DIGITS[d] as int == '0' as int + d;
    if n < 10 {
      assert Decimal(n)[..0] == "";
    } else {
      var s := Decimal(n);
      DecimalMeans(n / 10);
      assert s[..|s| - 1] == Decimal(n / 10) && s[0] == Decimal(n / 10)[0];
    }
  }

  function PodName(i: nat): string {
    "etcd-" + Decimal(i)
  }

  /** Host and port under which a pod's peers reach it. */
  function PeerHost(pod: string, namespace: string): string {
    pod + (".etcd." + namespace + ".svc.cluster.local:2380")
  }

  /** How the names look. */
  lemma NamesLookLikeThis(i: nat, namespace: string)
    ensures PeerHost(PodName(i), namespace) == "etcd-" + Decimal(i) + ".etcd." + namespace + ".svc.cluster.local:2380"
  {
    var a, b, c, d := "etcd-" + Decimal(i), ".etcd.", namespace, ".svc.cluster.local:2380";
    assert a + (b + c + d) == a + b + c + d;
  }

  lemma PodNameIsInjective(i: nat, j: nat)
    requires PodName(i) == PodName(j)
    ensures i == j
  {
    assert PodName(i)[5..] == Decimal(i) && PodName(j)[5..] == Decimal(j);
    DecimalIsInjective(i, j);
  }

  lemma PeerHostIsInjective(p: string, q: string, namespace: string)
    requires PeerHost(p, namespace) == PeerHost(q, namespace)
    ensures p == q
  {
    assert |p| == |q|;
    assert p == PeerHost(p, namespace)[..|p|] && q == PeerHost(q, namespace)[..|q|];
  }

  /** `peerURLsList`: the hosts of the members a ring of size n should have. */
  method PeerURLsList(n: nat, namespace: string) returns (urls: seq<string>)
    ensures urls == WantedHosts(n, namespace)
  {
    urls := [];
    for i := 0 to n
      invariant urls == WantedHosts(i, namespace)
    {
      urls := urls + [PeerHost(PodName(i), namespace)];
    }
  }

  function WantedHosts(n: nat, namespace: string): (hosts: seq<string>)
    ensures |hosts| == n
  {
    if n == 0 then [] else WantedHosts(n - 1, namespace) + [PeerHost(PodName(n - 1), namespace)]
  }

  lemma {:induction false} WantedHostAt(n: nat, namespace: string, i: nat)
    requires i < n
    ensures WantedHosts(n, namespace)[i] == PeerHost(PodName(i), namespace)
  {
    if i < n - 1 {
      WantedHostAt(n - 1, namespace, i);
    }
  }

  /** The wanted hosts are n different ones, and they are the hosts of the first n pods. */
  lemma WantedHostsAreDistinct(n: nat, namespace: string)
    ensures forall i, j :: 0 <= i < j < n ==> WantedHosts(n, namespace)[i] != WantedHosts(n, namespace)[j]
    ensures forall h :: h in WantedHosts(n, namespace) <==> exists i: nat :: i < n && h == PeerHost(PodName(i), namespace)
  {
    var hosts := WantedHosts(n, namespace);
    forall i, j | 0 <= i < j < n ensures hosts[i] != hosts[j] {
      WantedHostAt(n, namespace, i);
      WantedHostAt(n, namespace, j);
      if hosts[i] == hosts[j] {
        PeerHostIsInjective(PodName(i), PodName(j), namespace);
        PodNameIsInjective(i, j);
      }
    }
    forall i: nat | i < n ensures hosts[i] == PeerHost(PodName(i), namespace) {
      WantedHostAt(n, namespace, i);
    }
    forall h | h in hosts ensures exists i: nat :: i < n && h == PeerHost(PodName(i), namespace) {
      var i: nat :| i < |hosts| && hosts[i] == h;
    }
    forall i: nat | i < n ensures PeerHost(PodName(i), namespace) in hosts {
      assert hosts[i] in hosts;
    }
  }
}

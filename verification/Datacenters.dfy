/** `DatacenterFromSeedMap` (`pkg/provider/conversions.go`): the one datacenter of a name that a
    user may see, looked up over a map of seeds whose iteration order is arbitrary.
 */
module Datacenters {
  import opened Strings

  datatype UserInfo = UserInfo(email: string, isAdmin: bool)
  datatype Datacenter = Datacenter(requiredEmailDomain: string, requiredEmailDomains: seq<string>)
  datatype Seed = Seed(datacenters: map<string, Datacenter>)

  datatype Outcome =
    | Found(seed: Seed, datacenter: Datacenter)
    | NotFound
    | Ambiguous(count: nat)
    | InvalidEmail
    | SeedsUnavailable

  /** `strings.EqualFold` is a parameter: any comparison of domains will do. */
  type EqualFold = (string, string) -> bool

  function SkipFilterByDomain(user: UserInfo, dc: Datacenter): bool {
    if user.isAdmin then true
    else if dc.requiredEmailDomain == "" && |dc.requiredEmailDomains| == 0 then true
    else false
  }

  /** Who may see a datacenter is restricted by domain. */
  predicate Restricted(dc: Datacenter) {
    dc.requiredEmailDomain != "" || dc.requiredEmailDomains != []
  }

  /** The user's domain is asked for, and is one of those allowed. */
  predicate DomainAllowed(dc: Datacenter, domain: string, eq: EqualFold) {
    || (dc.requiredEmailDomain != "" && eq(domain, dc.requiredEmailDomain))
    || exists i :: 0 <= i < |dc.requiredEmailDomains| && dc.requiredEmailDomains[i] != "" && eq(domain, dc.requiredEmailDomains[i])
  }

  predicate ValidEmail(user: UserInfo) {
    |Split(user.email, '@')| == 2
  }

  /** A seed shows the user the datacenter. */
  predicate Visible(user: UserInfo, seed: Seed, name: string, eq: EqualFold) {
    && name in seed.datacenters
    && var dc := seed.datacenters[name];
       user.isAdmin || !Restricted(dc) || (ValidEmail(user) && DomainAllowed(dc, Split(user.email, '@')[1], eq))
  }

  /** A seed restricts the datacenter by domain and the user's address has none. */
  predicate NeedsDomain(user: UserInfo, seed: Seed, name: string) {
    name in seed.datacenters && !user.isAdmin && Restricted(seed.datacenters[name]) && !ValidEmail(user)
  }

  function VisibleSeeds(seeds: map<string, Seed>, user: UserInfo, name: string, eq: EqualFold): set<string> {
    set s | s in seeds && Visible(user, seeds[s], name, eq)
  }

  /** The outcome, said without any order: an address without domain is refused as soon as any
      seed needs one; otherwise the number of seeds that show the datacenter decides, each
      counted once however many of its domains match.
   */
  ghost predicate IsOutcome(seeds: map<string, Seed>, user: UserInfo, name: string, eq: EqualFold, r: Outcome) {
    var visible := VisibleSeeds(seeds, user, name, eq);
    if exists s :: s in seeds && NeedsDomain(user, seeds[s], name) then r == InvalidEmail
    else if |visible| == 0 then r == NotFound
    else if |visible| > 1 then r == Ambiguous(|visible|)
    else exists s :: visible == {s} && r == Found(seeds[s], seeds[s].datacenters[name])
  }

  /** So the outcome is the same for every iteration order. */
  lemma OutcomeIsUnique(seeds: map<string, Seed>, user: UserInfo, name: string, eq: EqualFold, a: Outcome, b: Outcome)
    requires IsOutcome(seeds, user, name, eq, a) && IsOutcome(seeds, user, name, eq, b)
    ensures a == b
  {
    if a.Found? && b.Found? {
      var visible := VisibleSeeds(seeds, user, name, eq);
      var s :| visible == {s} && a == Found(seeds[s], seeds[s].datacenters[name]);
      var t :| visible == {t} && b == Found(seeds[t], seeds[t].datacenters[name]);
      assert t in {s};
    }
  }

  /** The inner loop over the list of allowed domains. */
  method AnyDomainMatches(domains: seq<string>, domain: string, eq: EqualFold) returns (r: bool)
    ensures r <==> exists i :: 0 <= i < |domains| && domains[i] != "" && eq(domain, domains[i])
  {
    for i := 0 to |domains|
      invariant forall j :: 0 <= j < i ==> !(domains[j] != "" && eq(domain, domains[j]))
    {
      if domains[i] != "" && eq(domain, domains[i]) {
        return true;
      }
    }
    r := false;
  }

  /** Goes over the seeds in whatever order and collects those that show the datacenter. */
  method DatacenterFromSeedMap(user: UserInfo, seeds: map<string, Seed>, available: bool, name: string, eq: EqualFold)
    returns (r: Outcome)
    ensures if available then IsOutcome(seeds, user, name, eq, r) else r == SeedsUnavailable
  {
    if !available {
      return SeedsUnavailable;
    }
    var foundSeeds: seq<Seed>, foundDatacenters: seq<Datacenter> := [], [];
    ghost var found: seq<string> := [];
    var todo := seeds.Keys;
    while todo != {}
      invariant todo <= seeds.Keys && |foundSeeds| == |foundDatacenters| == |found|
      invariant forall s :: s in seeds && s !in todo ==> !NeedsDomain(user, seeds[s], name)
      invariant forall s :: s in found <==> s in seeds && s !in todo && Visible(user, seeds[s], name, eq)
      invariant forall i, j :: 0 <= i < j < |found| ==> found[i] != found[j]
      invariant forall i :: 0 <= i < |found| ==>
                  foundSeeds[i] == seeds[found[i]] && foundDatacenters[i] == seeds[found[i]].datacenters[name]
      decreases |todo|
    {
      var s :| s in todo;
      todo := todo - {s};
      if name !in seeds[s].datacenters {
        continue;
      }
      var dc := seeds[s].datacenters[name];
      var visible := SkipFilterByDomain(user, dc);
      if !visible {
        var split := Split(user.email, '@');
        if |split| != 2 {
          return InvalidEmail;
        }
        visible := dc.requiredEmailDomain != "" && eq(split[1], dc.requiredEmailDomain);
        if !visible {
          visible := AnyDomainMatches(dc.requiredEmailDomains, split[1], eq);
        }
      }
      if visible {
        foundSeeds, foundDatacenters, found := foundSeeds + [seeds[s]], foundDatacenters + [dc], found + [s];
      }
    }
    Counted(found, VisibleSeeds(seeds, user, name, eq));
    if |foundDatacenters| == 0 {
      return NotFound;
    }
    if |foundDatacenters| > 1 {
      return Ambiguous(|foundDatacenters|);
    }
    assert VisibleSeeds(seeds, user, name, eq) == {found[0]};
    return Found(foundSeeds[0], foundDatacenters[0]);
  }

  /** A list without repetitions is as long as the set of its elements. */
  lemma {:induction false} Counted(l: seq<string>, s: set<string>)
    requires forall x :: x in l <==> x in s
    requires forall i, j :: 0 <= i < j < |l| ==> l[i] != l[j]
    ensures |l| == |s|
  {
    if l != [] {
      var x := l[|l| - 1];
      assert x in l;
      var rest := l[..|l| - 1];
      forall y ensures y in rest <==> y in s - {x} {
        if y in s - {x} {
          var i :| 0 <= i < |l| && l[i] == y;
          assert rest[i] == y;
        }
      }
      Counted(rest, s - {x});
    } else {
      assert s == {};
    }
  }

  /** A user who is no admin finds a restricted datacenter only with an address at one of its
      domains.
   */
  lemma FoundIsAllowed(seeds: map<string, Seed>, user: UserInfo, name: string, eq: EqualFold, r: Outcome)
    requires IsOutcome(seeds, user, name, eq, r) && r.Found? && !user.isAdmin
    requires r.datacenter.requiredEmailDomain != "" || r.datacenter.requiredEmailDomains != []
    ensures exists local, domain ::
              && user.email == local + "@" + domain && '@' !in local && '@' !in domain
              && (|| (r.datacenter.requiredEmailDomain != "" && eq(domain, r.datacenter.requiredEmailDomain))
                  || (exists i :: 0 <= i < |r.datacenter.requiredEmailDomains| && r.datacenter.requiredEmailDomains[i] != ""
                                  && eq(domain, r.datacenter.requiredEmailDomains[i])))
  {
    var visible := VisibleSeeds(seeds, user, name, eq);
    var s :| visible == {s} && r == Found(seeds[s], seeds[s].datacenters[name]);
    assert s in visible;
    var parts := Split(user.email, '@');
    JoinSplit(user.email, '@');
    SplitPartsAreSeparatorFree(user.email, '@');
    assert Join(parts, '@') == parts[0] + "@" + parts[1] by {
      assert parts[1..] == [parts[1]];
    }
  }

  /** For an admin only the seeds that have the name count. */
  lemma AdminSeesAll(seeds: map<string, Seed>, user: UserInfo, name: string, eq: EqualFold, r: Outcome)
    requires IsOutcome(seeds, user, name, eq, r) && user.isAdmin
    ensures var having := set s | s in seeds && name in seeds[s].datacenters;
            && (r == NotFound <==> having == {}) && (r.Found? <==> |having| == 1)
            && (r.Ambiguous? <==> |having| > 1) && (r.Ambiguous? ==> r.count == |having|)
  {
    assert VisibleSeeds(seeds, user, name, eq) == set s | s in seeds && name in seeds[s].datacenters;
  }
}

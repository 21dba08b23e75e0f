/** `sets.String` of apimachinery as a Dafny set, its sorted `List()`, and the codec that
    stores such a set in the `kubermatic.io/cleaned-up-loadbalancers` annotation.
 */
module StringSets {
  import opened Strings

  ghost predicate StrictlySorted(l: seq<string>) {
    forall i, j :: 0 <= i < j < |l| ==> Less(l[i], l[j])
  }

  predicate IsLeast(m: string, s: set<string>) {
    m in s && forall x :: x in s && x != m ==> Less(m, x)
  }

  lemma {:induction false} LeastExists(s: set<string>)
    requires s != {}
    ensures exists m :: IsLeast(m, s)
    decreases |s|
  {
    var x :| x in s;
    if s == {x} {
      assert IsLeast(x, s);
    } else {
      LeastExists(s - {x});
      var m :| IsLeast(m, s - {x});
      LessTotal(x, m);
      if Less(x, m) {
        forall y | y in s && y != x ensures Less(x, y) {
          if y != m { LessTransitive(x, m, y); }
        }
        assert IsLeast(x, s);
      } else {
        assert IsLeast(m, s);
      }
    }
  }

  lemma LeastIsUnique(s: set<string>)
    ensures forall m, n :: IsLeast(m, s) && IsLeast(n, s) ==> m == n
  {
    forall m, n | IsLeast(m, s) && IsLeast(n, s) ensures m == n {
      if m != n {
        LessTransitive(m, n, m);
        LessIrreflexive(m);
      }
    }
  }

  /** `sets.String.List()`: the elements in ascending order. */
  function List(s: set<string>): (l: seq<string>)
    decreases |s|
  {
    if s == {} then []
    else
      LeastExists(s);
      LeastIsUnique(s);
      var m :| m in s && IsLeast(m, s);
      [m] + List(s - {m})
  }

  lemma {:induction false} ListIsSorted(s: set<string>)
    ensures StrictlySorted(List(s))
    ensures forall x :: x in List(s) <==> x in s
    decreases |s|
  {
    if s != {} {
      var l := List(s);
      LeastExists(s);
      LeastIsUnique(s);
      assert IsLeast(l[0], s) && l[1..] == List(s - {l[0]});
      ListIsSorted(s - {l[0]});
      assert l == [l[0]] + l[1..];
      forall i, j | 0 <= i < j < |l| ensures Less(l[i], l[j]) {
        assert l[j] == l[1..][j - 1] && l[j] in l[1..];
        if i > 0 { assert l[i] == l[1..][i - 1]; }
      }
    }
  }

  /** A strictly sorted list is determined by its elements. */
  lemma {:induction false} SortedListIsUnique(k: seq<string>, l: seq<string>)
    requires StrictlySorted(k) && StrictlySorted(l)
    requires forall x :: x in k <==> x in l
    ensures k == l
  {
    assert k == [] <==> l == [] by {
      assert k != [] ==> k[0] in k;
      assert l != [] ==> l[0] in l;
    }
    if k != [] {
      var sk, sl := set x | x in k, set x | x in l;
      assert sk == sl;
      assert IsLeast(k[0], sk) by { HeadIsLeast(k); }
      assert IsLeast(l[0], sl) by { HeadIsLeast(l); }
      LeastIsUnique(sk);
      TailMembers(k);
      TailMembers(l);
      SortedListIsUnique(k[1..], l[1..]);
      assert k == [k[0]] + k[1..] && l == [l[0]] + l[1..];
    }
  }

  lemma HeadIsLeast(l: seq<string>)
    requires StrictlySorted(l) && l != []
    ensures IsLeast(l[0], set x | x in l)
  {
  }

  lemma TailMembers(l: seq<string>)
    requires StrictlySorted(l) && l != []
    ensures forall x :: x in l[1..] <==> x in l && x != l[0]
  {
    LessIrreflexive(l[0]);
    forall x ensures x in l[1..] <==> x in l && x != l[0] {
      if x in l && x != l[0] {
        var i :| 0 <= i < |l| && l[i] == x;
        assert l[1..][i - 1] == x;
      }
      if x in l[1..] {
        var i :| 0 <= i < |l| - 1 && l[1..][i] == x;
        assert l[i + 1] == x;
      }
    }
  }

  /** The set a comma-separated annotation stands for. */
  function Parse(list: string): set<string> {
    set item | item in Split(list, ',') && item != ""
  }

  /** `encodeStringSet`. */
  function Encode(s: set<string>): string {
    Join(List(s), ',')
  }

  /** `parseStringSet`: splits, then inserts every non-empty item. */
  method ParseStringSet(list: string) returns (s: set<string>)
    ensures s == Parse(list)
  {
    var items := Split(list, ',');
    s := {};
    for i := 0 to |items|
      invariant s == set item | item in items[..i] && item != ""
    {
      assert items[..i + 1] == items[..i] + [items[i]];
      if |items[i]| > 0 {
        s := s + {items[i]};
      }
    }
    assert items[..|items|] == items;
  }

  /** What a ledger entry looks like: not empty, and without the separator. */
  ghost predicate IsItem(item: string) {
    item != "" && ',' !in item
  }

  lemma ParsedItems(list: string)
    ensures forall item :: item in Parse(list) ==> IsItem(item)
  {
    SplitPartsAreSeparatorFree(list, ',');
  }

  /** Parsing the encoding of a set gives back the set. */
  lemma ParseEncode(s: set<string>)
    requires forall item :: item in s ==> IsItem(item)
    ensures Parse(Encode(s)) == s
  {
    ListIsSorted(s);
    var l := List(s);
    if l != [] {
      assert forall i :: 0 <= i < |l| ==> l[i] in s;
      SplitJoin(l, ',');
    } else {
      assert s == {};
    }
  }

  /** `Encode(Parse(x))` is a canonical form of x: it stands for the same set, it is reached
      after one round, two annotations share it exactly when they stand for the same set,
      and its items are strictly ascending (so none is repeated).
   */
  lemma EncodeParseIsCanonical(x: string, y: string)
    ensures Parse(Encode(Parse(x))) == Parse(x)
    ensures Encode(Parse(Encode(Parse(x)))) == Encode(Parse(x))
    ensures Encode(Parse(x)) == Encode(Parse(y)) <==> Parse(x) == Parse(y)
    ensures Encode(Parse(x)) == "" <==> Parse(x) == {}
    ensures Encode(Parse(x)) != "" ==> StrictlySorted(Split(Encode(Parse(x)), ','))
  {
    ParsedItems(x);
    ParsedItems(y);
    ParseEncode(Parse(x));
    ParseEncode(Parse(y));
    ListIsSorted(Parse(x));
    var l := List(Parse(x));
    if l != [] {
      assert forall i :: 0 <= i < |l| ==> l[i] in Parse(x);
      SplitJoin(l, ',');
    }
  }

  /** The substring test of the wait loop in `cleanupLB` is set membership, as long as all
      entries have the length of the UID looked for.
   */
  lemma ContainsIsMembership(list: string, uid: string)
    requires IsItem(uid)
    requires forall item :: item in Parse(list) ==> |item| == |uid|
    ensures Contains(list, uid) <==> uid in Parse(list)
  {
    JoinSplit(list, ',');
    var l := Split(list, ',');
    if Contains(list, uid) {
      var i :| 0 <= i <= |list| && OccursAt(list, uid, i);
      assert forall k :: 0 <= k < |l| ==> l[k] == "" || l[k] in Parse(list);
      OccurrenceIsItem(l, uid, i);
    }
    if uid in Parse(list) {
      var k :| 0 <= k < |l| && l[k] == uid;
      ItemOccurs(l, k);
    }
  }

  /** In particular for the annotation written for a set of such entries. */
  lemma ContainsInEncoding(s: set<string>, uid: string)
    requires IsItem(uid)
    requires forall item :: item in s ==> IsItem(item) && |item| == |uid|
    ensures Contains(Encode(s), uid) <==> uid in s
  {
    ParseEncode(s);
    ContainsIsMembership(Encode(s), uid);
  }

  /** A comma-free block as long as every non-empty item can only line up with one of them. */
  lemma {:induction false} OccurrenceIsItem(l: seq<string>, uid: string, i: int)
    requires IsItem(uid)
    requires forall k :: 0 <= k < |l| ==> |l[k]| == |uid| || l[k] == ""
    requires OccursAt(Join(l, ','), uid, i)
    ensures uid in l
  {
    if |l| == 1 {
      assert l[0][i..i + |uid|] == l[0];
    } else if |l| > 1 {
      OccursInOnePart(l[0], Join(l[1..], ','), uid, i);
      if l[0] != uid {
        OccurrenceIsItem(l[1..], uid, i - |l[0]| - 1);
      }
    }
  }

  lemma OccursInOnePart(a: string, b: string, uid: string, i: int)
    requires IsItem(uid) && (|a| == |uid| || a == "")
    requires OccursAt(a + [','] + b, uid, i)
    ensures a == uid || OccursAt(b, uid, i - |a| - 1)
  {
    var s, n, m := a + [','] + b, |uid|, |a|;
    assert s[m] == ',' && forall p :: i <= p < i + n ==> s[p] == uid[p - i];
    if i > m {
      assert s[i..i + n] == b[i - m - 1..i - m - 1 + n];
    } else {
      assert s[..n] == a;
    }
  }

  lemma {:induction false} ItemOccurs(l: seq<string>, k: nat)
    requires k < |l|
    ensures Contains(Join(l, ','), l[k])
  {
    var s := Join(l, ',');
    if |l| == 1 {
      assert OccursAt(s, l[k], 0);
    } else if k == 0 {
      assert OccursAt(s, l[0], 0);
    } else {
      ItemOccurs(l[1..], k - 1);
      var i :| 0 <= i <= |Join(l[1..], ',')| && OccursAt(Join(l[1..], ','), l[k], i);
      var j := |l[0]| + 1 + i;
      assert s == l[0] + [','] + Join(l[1..], ',');
      assert s[j..j + |l[k]|] == Join(l[1..], ',')[i..i + |l[k]|];
      assert OccursAt(s, l[k], j);
    }
  }
}

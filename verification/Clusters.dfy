/** The in-memory copy of a Cluster object and the finalizer helpers of
    `pkg/kubernetes/helper.go` that read and rewrite its finalizer list.
 */
module Clusters {
  import opened StringSets

  function Elements(l: seq<string>): (s: set<string>) {
    set x | x in l
  }

  predicate HasFinalizer(l: seq<string>, name: string) {
    name in Elements(l)
  }

  predicate HasAnyFinalizer(l: seq<string>, names: set<string>) {
    exists name :: name in names && name in Elements(l)
  }

  predicate HasOnlyFinalizer(l: seq<string>, name: string) {
    name in Elements(l) && |Elements(l)| == 1
  }

  class Cluster {
    var finalizers: seq<string>
    var annotation: string  // kubermatic.io/cleaned-up-loadbalancers, "" when absent

    constructor (finalizers: seq<string>, annotation: string)
      ensures this.finalizers == finalizers && this.annotation == annotation
    {
      this.finalizers, this.annotation := finalizers, annotation;
    }

    /** The finalizer goes with all its duplicates, every other one stays, and the list
        comes out sorted without duplicates.
     */
    method RemoveFinalizer(toRemove: string)
      modifies `finalizers
      ensures Elements(finalizers) == Elements(old(finalizers)) - {toRemove}
      ensures forall f :: f in finalizers <==> f in old(finalizers) && f != toRemove
      ensures StrictlySorted(finalizers)
    {
      var s := Elements(finalizers);
      ListIsSorted(s - {toRemove});
      finalizers := List(s - {toRemove});
    }

    method AddFinalizer(names: set<string>)
      modifies `finalizers
      ensures Elements(finalizers) == Elements(old(finalizers)) + names
      ensures forall f :: f in finalizers <==> f in old(finalizers) || f in names
      ensures StrictlySorted(finalizers)
    {
      var s := Elements(finalizers);
      ListIsSorted(s + names);
      finalizers := List(s + names);
    }
  }

  /** `HasOnlyFinalizer` says that nothing but the given finalizer, repeated or not, is listed. */
  lemma HasOnlyFinalizerMeans(l: seq<string>, name: string)
    ensures HasOnlyFinalizer(l, name) <==> l != [] && forall i :: 0 <= i < |l| ==> l[i] == name
  {
    var s := Elements(l);
    if HasOnlyFinalizer(l, name) {
      forall i | 0 <= i < |l| ensures l[i] == name {
        assert l[i] in s;
        assert |s - {name}| == 0;
        assert s - {name} == {};
      }
    }
    if l != [] && forall i :: 0 <= i < |l| ==> l[i] == name {
      assert l[0] in s;
      assert s == {name};
    }
  }
}

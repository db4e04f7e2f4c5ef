/** The exclusion filter that every version of the namespace aggregator
    applies to the namespace listing: a namespace is visited unless its name
    equals an entry of the exclusion list. */
module Exclusion {
  import K = Kube

  /** The listed namespaces an aggregator visits, in listing order. */
  function Kept(excludes: seq<string>, ns: seq<K.Namespace>): (kept: seq<K.Namespace>)
    ensures forall n :: n in kept ==> n in ns && n.meta.name !in excludes
  {
    if ns == [] then []
    else
      var init := Kept(excludes, ns[..|ns| - 1]);
      var n := ns[|ns| - 1];
      if n.meta.name in excludes then init else init + [n]
  }

  /** The positions in the listing of the namespaces Kept keeps. */
  function KeptPositions(excludes: seq<string>, ns: seq<K.Namespace>): seq<nat>
  {
    if ns == [] then []
    else
      var init := KeptPositions(excludes, ns[..|ns| - 1]);
      if ns[|ns| - 1].meta.name in excludes then init else init + [|ns| - 1]
  }

  lemma {:induction false} PositionsAscending(excludes: seq<string>, ns: seq<K.Namespace>)
    ensures forall j :: 0 <= j < |KeptPositions(excludes, ns)| ==> KeptPositions(excludes, ns)[j] < |ns|
    ensures forall j, k :: 0 <= j < k < |KeptPositions(excludes, ns)| ==>
              KeptPositions(excludes, ns)[j] < KeptPositions(excludes, ns)[k]
  {
    if ns != [] {
      PositionsAscending(excludes, ns[..|ns| - 1]);
    }
  }

  lemma {:induction false} PositionsExact(excludes: seq<string>, ns: seq<K.Namespace>)
    ensures forall i :: 0 <= i < |ns| ==> (i in KeptPositions(excludes, ns) <==> ns[i].meta.name !in excludes)
  {
    if ns != [] {
      var init := ns[..|ns| - 1];
      PositionsExact(excludes, init);
      PositionsAscending(excludes, init);
      var pos' := KeptPositions(excludes, init);
      assert |ns| - 1 !in pos';
      assert forall i :: 0 <= i < |init| ==> ns[i] == init[i];
    }
  }

  lemma {:induction false} KeptAtPositions(excludes: seq<string>, ns: seq<K.Namespace>)
    ensures |KeptPositions(excludes, ns)| == |Kept(excludes, ns)|
    ensures forall j :: 0 <= j < |KeptPositions(excludes, ns)| ==>
              KeptPositions(excludes, ns)[j] < |ns| && Kept(excludes, ns)[j] == ns[KeptPositions(excludes, ns)[j]]
  {
    if ns != [] {
      var init := ns[..|ns| - 1];
      KeptAtPositions(excludes, init);
      assert forall i :: 0 <= i < |init| ==> ns[i] == init[i];
    }
  }

  /** Kept is the subsequence of the listing at strictly increasing
      positions, and those positions are exactly the ones whose name is
      not excluded: nothing excluded survives, nothing else is dropped,
      and the listing order is kept. */
  lemma KeptInOrder(excludes: seq<string>, ns: seq<K.Namespace>)
    ensures |KeptPositions(excludes, ns)| == |Kept(excludes, ns)|
    ensures forall j :: 0 <= j < |KeptPositions(excludes, ns)| ==>
              KeptPositions(excludes, ns)[j] < |ns| && Kept(excludes, ns)[j] == ns[KeptPositions(excludes, ns)[j]]
    ensures forall j, k :: 0 <= j < k < |KeptPositions(excludes, ns)| ==>
              KeptPositions(excludes, ns)[j] < KeptPositions(excludes, ns)[k]
    ensures forall i :: 0 <= i < |ns| ==> (i in KeptPositions(excludes, ns) <==> ns[i].meta.name !in excludes)
  {
    KeptAtPositions(excludes, ns);
    PositionsAscending(excludes, ns);
    PositionsExact(excludes, ns);
  }

  /** A namespace occurs in Kept as often as in the listing, or not at all
      when its name is excluded: a namespace listed once is visited once. */
  lemma {:induction false} KeptMultiplicity(excludes: seq<string>, ns: seq<K.Namespace>, n: K.Namespace)
    ensures multiset(Kept(excludes, ns))[n] == if n.meta.name in excludes then 0 else multiset(ns)[n]
  {
    if ns != [] {
      var init, last := ns[..|ns| - 1], ns[|ns| - 1];
      KeptMultiplicity(excludes, init, n);
      assert ns == init + [last];
      assert multiset(ns) == multiset(init) + multiset{last};
      if last.meta.name !in excludes {
        assert multiset(Kept(excludes, ns)) == multiset(Kept(excludes, init)) + multiset{last};
      }
    }
  }

  /** A namespace is visited exactly when it is listed and not excluded. */
  lemma KeptMembers(excludes: seq<string>, ns: seq<K.Namespace>, n: K.Namespace)
    ensures n in Kept(excludes, ns) <==> n in ns && n.meta.name !in excludes
  {
    KeptMultiplicity(excludes, ns, n);
  }

  /** An empty exclusion list keeps every namespace. */
  lemma {:induction false} KeepsAllWithoutExcludes(ns: seq<K.Namespace>)
    ensures Kept([], ns) == ns
  {
    if ns != [] {
      KeepsAllWithoutExcludes(ns[..|ns| - 1]);
      assert ns == ns[..|ns| - 1] + [ns[|ns| - 1]];
    }
  }
}

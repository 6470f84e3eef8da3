/** The two majority tests of the cluster: the number of votes that elects a leader and the
    minority check that makes a node stop serving. */
module Quorum {

  /** Votes needed to win an election; `nodeCount` is the number of peers, self excluded. */
  function ExpectVotes(nodeCount: nat): nat {
    (nodeCount + 1) / 2 + 1
  }

  /** The node considers itself a part of the smaller partition. */
  predicate Partitioned(nodeCount: nat, active: nat) {
    (nodeCount + 1) / 2 >= active
  }

  /** The sum of two set sizes is bounded by the size of a set that holds both, if they are disjoint. */
  lemma DisjointSizes<T>(all: set<T>, a: set<T>, b: set<T>)
    requires a <= all && b <= all && a * b == {}
    ensures |a| + |b| <= |all|
  {
    assert |a + b| == |a| + |b|;
    SubsetSize(a + b, all);
  }

  lemma {:induction false} SubsetSize<T>(a: set<T>, b: set<T>)
    requires a <= b
    ensures |a| <= |b|
    decreases a
  {
    if a != {} {
      var x :| x in a;
      SubsetSize(a - {x}, b - {x});
    }
  }

  /** Any two sets of at least `ExpectVotes` nodes of one cluster share a node. */
  lemma QuorumsIntersect<T>(all: set<T>, a: set<T>, b: set<T>)
    requires all != {} && a <= all && b <= all
    requires |a| >= ExpectVotes(|all| - 1) && |b| >= ExpectVotes(|all| - 1)
    ensures exists x :: x in a && x in b
  {
    if a * b == {} {
      DisjointSizes(all, a, b);
      assert false;
    }
    var x :| x in a * b;
    assert x in a && x in b;
  }

  /** `isPartitioned` is exactly the negation of "my active nodes could elect a leader". */
  lemma ServesIffQuorum(nodeCount: nat, active: nat)
    ensures !Partitioned(nodeCount, active) <==> active >= ExpectVotes(nodeCount)
  {
  }

  /** Two nodes that both keep serving see active sets that share a node; so does a serving
      node and the electorate of any leader. */
  lemma ServingNodesOverlap<T>(all: set<T>, activeA: set<T>, activeB: set<T>)
    requires all != {} && activeA <= all && activeB <= all
    requires !Partitioned(|all| - 1, |activeA|) && !Partitioned(|all| - 1, |activeB|)
    ensures exists x :: x in activeA && x in activeB
  {
    ServesIffQuorum(|all| - 1, |activeA|);
    ServesIffQuorum(|all| - 1, |activeB|);
    QuorumsIntersect(all, activeA, activeB);
  }

  /** At most one side of any split of the cluster serves, and a side serves exactly when it is
      larger than the other one. */
  lemma AtMostOneSideServes<T>(all: set<T>, side: set<T>)
    requires all != {} && side <= all
    ensures Partitioned(|all| - 1, |side|) || Partitioned(|all| - 1, |all - side|)
    ensures !Partitioned(|all| - 1, |side|) <==> |side| > |all - side|
  {
    assert side + (all - side) == all;
    assert |side| + |all - side| == |all|;
  }
}

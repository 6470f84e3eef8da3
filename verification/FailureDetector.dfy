/** The leader's failure detector: consecutive failures per peer and an edge trigger for rehashing. */
module FailureDetector {
  import opened NodeRules

  type Counts = map<Node, nat>

  /** Failure counters after a round of health checks in which exactly `reached` answered. */
  function NextCounts(counts: Counts, reached: set<Node>): Counts {
    map p | p in counts :: if p in reached then 0 else counts[p] + 1
  }

  /** The active nodes recomputed from the counters: self and peers below the limit. */
  function Alive(self: Node, counts: Counts, limit: int): set<Node> {
    {self} + set p | p in counts && counts[p] < limit
  }

  /** The check for one peer that requests a rehash: it just reached the limit or just recovered. */
  predicate Edge(count: nat, answered: bool, limit: int) {
    if answered then count >= limit else count + 1 == limit
  }

  predicate EdgeFires(counts: Counts, reached: set<Node>, limit: int) {
    exists p :: p in counts && Edge(counts[p], p in reached, limit)
  }

  /** A round initiates a rehash if and only if the recomputed set of active nodes has changed. */
  lemma EdgeIffAliveChanges(self: Node, counts: Counts, reached: set<Node>, limit: int)
    requires limit >= 1 && self !in counts
    ensures EdgeFires(counts, reached, limit) <==>
            Alive(self, NextCounts(counts, reached), limit) != Alive(self, counts, limit)
  {
    var before, after := Alive(self, counts, limit), Alive(self, NextCounts(counts, reached), limit);
    forall p | p in counts
      ensures Edge(counts[p], p in reached, limit) <==> (p in before) != (p in after)
    {
    }
    if before != after {
      var p :| (p in before) != (p in after);
      assert p in counts && Edge(counts[p], p in reached, limit);
    }
  }

  /** Counters and active set after a sequence of rounds, the active set kept by the edge trigger alone. */
  datatype Detector = Detector(counts: Counts, active: set<Node>)

  function Start(self: Node, peers: set<Node>): Detector {
    Detector(map p | p in peers :: 0, {self} + peers)
  }

  function Round(self: Node, limit: int, d: Detector, reached: set<Node>): Detector {
    var counts := NextCounts(d.counts, reached);
    Detector(counts, if EdgeFires(d.counts, reached, limit) then Alive(self, counts, limit) else d.active)
  }

  function Rounds(self: Node, limit: int, d: Detector, rounds: seq<set<Node>>): Detector
    decreases |rounds|
  {
    if rounds == [] then d else Rounds(self, limit, Round(self, limit, d, rounds[0]), rounds[1..])
  }

  ghost predicate Exact(self: Node, limit: int, d: Detector) {
    self !in d.counts && d.active == Alive(self, d.counts, limit)
  }

  lemma {:induction false} RoundsStayExact(self: Node, limit: int, d: Detector, rounds: seq<set<Node>>)
    requires limit >= 1 && Exact(self, limit, d)
    ensures Exact(self, limit, Rounds(self, limit, d, rounds))
    decreases |rounds|
  {
    if rounds != [] {
      EdgeIffAliveChanges(self, d.counts, rounds[0], limit);
      RoundsStayExact(self, limit, Round(self, limit, d, rounds[0]), rounds[1..]);
    }
  }

  /** Edge-triggered detection equals recomputation after any number of rounds exactly when the
      configured limit is positive (or there is nobody to watch): with a limit of zero or less the
      freshly started node already lists peers which the counters exclude. */
  lemma DetectionExactIffLimitPositive(self: Node, limit: int, peers: set<Node>)
    requires self !in peers
    ensures (forall rounds :: Exact(self, limit, Rounds(self, limit, Start(self, peers), rounds)))
            <==> limit >= 1 || |peers| == 0
  {
    var d := Start(self, peers);
    if limit >= 1 {
      forall rounds ensures Exact(self, limit, Rounds(self, limit, d, rounds)) {
        RoundsStayExact(self, limit, d, rounds);
      }
    } else if |peers| == 0 {
      forall rounds ensures Exact(self, limit, Rounds(self, limit, d, rounds)) {
        NobodyToWatch(self, limit, d, rounds);
      }
    } else {
      var p :| p in peers;
      assert p in d.active && p !in Alive(self, d.counts, limit);
      var none: seq<set<Node>> := [];
      assert Rounds(self, limit, d, none) == d;
      assert !Exact(self, limit, Rounds(self, limit, Start(self, peers), none));
    }
  }

  lemma {:induction false} NobodyToWatch(self: Node, limit: int, d: Detector, rounds: seq<set<Node>>)
    requires d == Detector(map[], {self})
    ensures Rounds(self, limit, d, rounds) == d
    decreases |rounds|
  {
    if rounds != [] {
      NobodyToWatch(self, limit, Round(self, limit, d, rounds[0]), rounds[1..]);
    }
  }

  // ----- what being active means

  lemma {:induction false} LastRound(self: Node, limit: int, d: Detector, rounds: seq<set<Node>>)
    requires rounds != []
    ensures Rounds(self, limit, d, rounds) == Round(self, limit, Rounds(self, limit, d, rounds[..|rounds| - 1]), rounds[|rounds| - 1])
    decreases |rounds|
  {
    if |rounds| > 1 {
      LastRound(self, limit, Round(self, limit, d, rounds[0]), rounds[1..]);
      assert rounds[1..][..|rounds| - 2] == rounds[..|rounds| - 1][1..];
    } else {
      assert rounds[1..] == [] && rounds[..0] == [];
    }
  }

  /** The peer answered one of the last `limit` rounds, or there were fewer. */
  ghost predicate AnsweredLately(rounds: seq<set<Node>>, p: Node, limit: int) {
    |rounds| < limit || exists k :: 0 <= k < |rounds| && |rounds| - limit <= k && p in rounds[k]
  }

  /** The counter of a peer is the number of rounds since it answered last. */
  lemma {:induction false} CountsSinceAnswer(self: Node, limit: int, peers: set<Node>, rounds: seq<set<Node>>, p: Node)
    requires p in peers
    ensures var counts := Rounds(self, limit, Start(self, peers), rounds).counts;
            p in counts && counts[p] <= |rounds| && (counts[p] < |rounds| ==> p in rounds[|rounds| - 1 - counts[p]]) &&
            forall k :: |rounds| - counts[p] <= k < |rounds| ==> p !in rounds[k]
    decreases |rounds|
  {
    if rounds != [] {
      var before := rounds[..|rounds| - 1];
      CountsSinceAnswer(self, limit, peers, before, p);
      LastRound(self, limit, Start(self, peers), rounds);
      assert forall k :: 0 <= k < |before| ==> before[k] == rounds[k];
    }
  }

  /** After any number of rounds a peer is active if and only if it answered one of the last `limit` of
      them, or there were not so many. */
  lemma ActiveIffAnsweredLately(self: Node, limit: int, peers: set<Node>, rounds: seq<set<Node>>, p: Node)
    requires limit >= 1 && self !in peers && p in peers
    ensures p in Rounds(self, limit, Start(self, peers), rounds).active <==> AnsweredLately(rounds, p, limit)
  {
    var d := Rounds(self, limit, Start(self, peers), rounds);
    RoundsStayExact(self, limit, Start(self, peers), rounds);
    CountsSinceAnswer(self, limit, peers, rounds, p);
    if d.counts[p] < limit && limit <= |rounds| {
      assert p in rounds[|rounds| - 1 - d.counts[p]];
    }
  }
}

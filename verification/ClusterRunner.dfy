/** The failover runner of one node, in the imperative form of the source: the election loop, the
    handlers of vote requests and health checks, and the leader's round of health checks. */
module ClusterRunner {
  import opened Quorum
  import opened NodeRules
  import opened FailureDetector

  /** The counters after the wait loop has consumed completions in order; a channel that stays
      silent is ended by the timeout. */
  function TallyAll(t: Tally, cs: seq<Completion>, term: nat, nodeCount: nat): Tally
    decreases |cs|
  {
    if !Waiting(t, nodeCount) then t
    else if cs == [] then Count(t, TimedOut, term, nodeCount)
    else TallyAll(Count(t, cs[0], term, nodeCount), cs[1..], term, nodeCount)
  }

  function Ayes(cs: seq<Completion>): nat {
    if cs == [] then 0
    else (if cs[0].Voted? && cs[0].response.result then 1 else 0) + Ayes(cs[1..])
  }

  /** The election goes on after this completion: no timeout and no voter from a later term. */
  predicate GoesOn(c: Completion, term: nat) {
    !c.TimedOut? && (c.Voted? && !c.response.result ==> c.response.term <= term)
  }

  /** The first `k` completions arrive within the election and bring the candidate to a majority. */
  ghost predicate MajorityAfter(t: Tally, cs: seq<Completion>, term: nat, nodeCount: nat, k: nat) {
    k <= |cs| && t.i + k <= nodeCount &&
    (forall c :: c in cs[..k] ==> GoesOn(c, term)) &&
    t.voteCount + Ayes(cs[..k]) >= ExpectVotes(nodeCount)
  }

  /** The wait loop is won if and only if a majority says yes before a timeout, before a voter with a
      later term says no and before every peer has answered. */
  lemma {:induction false} WinsIffMajority(t: Tally, cs: seq<Completion>, term: nat, nodeCount: nat)
    requires t.i <= nodeCount
    ensures Won(TallyAll(t, cs, term, nodeCount), nodeCount)
            <==> exists k: nat :: MajorityAfter(t, cs, term, nodeCount, k)
    decreases |cs|
  {
    if Won(t, nodeCount) {
      assert cs[..0] == [];
      assert MajorityAfter(t, cs, term, nodeCount, 0);
    } else if t.i == nodeCount || cs == [] {
      forall k: nat ensures !MajorityAfter(t, cs, term, nodeCount, k) {
        assert k == 0 && k <= |cs| ==> cs[..k] == [];
      }
    } else {
      var t' := Count(t, cs[0], term, nodeCount);
      forall k: nat | 0 < k <= |cs| ensures cs[..k] == [cs[0]] + cs[1..][..k - 1] {
      }
      assert cs[..0] == [];
      if GoesOn(cs[0], term) {
        WinsIffMajority(t', cs[1..], term, nodeCount);
        forall k: nat | k < |cs| ensures MajorityAfter(t', cs[1..], term, nodeCount, k) <==>
                                         MajorityAfter(t, cs, term, nodeCount, k + 1) {
          ShiftMajority(t, cs, term, nodeCount, k);
        }
        if exists k: nat :: MajorityAfter(t, cs, term, nodeCount, k) {
          var k: nat :| MajorityAfter(t, cs, term, nodeCount, k);
          assert k > 0;
          ShiftMajority(t, cs, term, nodeCount, k - 1);
        }
      } else {
        assert !Waiting(t', nodeCount) && TallyAll(t', cs[1..], term, nodeCount) == t';
        forall k: nat ensures !MajorityAfter(t, cs, term, nodeCount, k) {
          if 0 < k <= |cs| {
            assert cs[0] in cs[..k];
          }
        }
      }
    }
  }

  lemma ShiftMajority(t: Tally, cs: seq<Completion>, term: nat, nodeCount: nat, k: nat)
    requires k < |cs| && t.i < nodeCount && GoesOn(cs[0], term)
    ensures MajorityAfter(Count(t, cs[0], term, nodeCount), cs[1..], term, nodeCount, k) <==>
            MajorityAfter(t, cs, term, nodeCount, k + 1)
  {
    assert cs[..k + 1] == [cs[0]] + cs[1..][..k];
    assert cs[..k + 1][1..] == cs[1..][..k];
    assert forall c :: c in cs[..k + 1] <==> c == cs[0] || c in cs[1..][..k];
  }

  class Cluster {
    const thisNode: Node
    const peers: seq<Node>
    const voteTimeout: int
    const failLimit: int

    var term: nat
    var leader: Node
    var missed: nat
    var failCount: Counts
    var activeNodes: seq<Node>

    ghost predicate Valid()
      reads this
    {
      (forall j, k :: 0 <= j < k < |peers| ==> peers[j] != peers[k]) && thisNode !in peers &&
      failCount.Keys == (set p | p in peers)
    }

    /** The node's active list is what its failure counters say, without repetitions. */
    ghost predicate DetectionExact()
      reads this
    {
      (set p | p in activeNodes) == Alive(thisNode, failCount, failLimit) &&
      |activeNodes| == |Alive(thisNode, failCount, failLimit)|
    }

    ghost function Known(): View
      reads this
    {
      View(term, leader)
    }

    constructor (thisNode: Node, peers: seq<Node>, voteTimeout: int, failLimit: int)
      requires forall j, k :: 0 <= j < k < |peers| ==> peers[j] != peers[k]
      requires thisNode !in peers
      ensures Valid() && Known() == View(0, NO_LEADER)
      ensures this.thisNode == thisNode && this.peers == peers
      ensures this.voteTimeout == voteTimeout && this.failLimit == failLimit
      ensures activeNodes == peers + [thisNode] && forall p :: p in failCount ==> failCount[p] == 0
      ensures failLimit >= 1 ==> DetectionExact()
    {
      this.thisNode, this.peers := thisNode, peers;
      this.voteTimeout, this.failLimit := voteTimeout, failLimit;
      term, leader, missed := 0, NO_LEADER, 0;
      failCount := map p | p in peers :: 0;
      activeNodes := peers + [thisNode];
      new;
      if failLimit >= 1 {
        assert (set p | p in activeNodes) == Alive(thisNode, failCount, failLimit);
        DistinctSize(activeNodes);
      }
    }

    /** One pass of the election; `done` is the order in which calls complete. */
    method ElectLeader(done: seq<Completion>)
      requires Valid()
      modifies this`term, this`leader
      ensures Valid() && term == old(term) + 1
      ensures leader == if Won(TallyAll(INITIAL_TALLY, done, term, |peers|), |peers|) then thisNode else NO_LEADER
      ensures leader == thisNode && thisNode != NO_LEADER ==>
              exists k: nat :: MajorityAfter(INITIAL_TALLY, done, term, |peers|, k)
    {
      term := term + 1;
      leader := NO_LEADER;
      var nodeCount := |peers|;
      var expectVotes := (nodeCount + 1) / 2 + 1;
      var voteCount, i, read := 1, 0, 0;
      while i < nodeCount && voteCount < expectVotes
        invariant read <= |done| && 0 <= i && read <= i
        invariant TallyAll(Tally(voteCount, i), done[read..], term, nodeCount)
               == TallyAll(INITIAL_TALLY, done, term, nodeCount)
        decreases nodeCount - i
      {
        if read < |done| {
          var c := done[read];
          assert done[read..][0] == c && done[read..][1..] == done[read + 1..];
          read := read + 1;
          match c {
            case Voted(reply) =>
              if reply.result {
                voteCount := voteCount + 1;
              } else if term < reply.term {
                i := nodeCount;
                voteCount := 0;
              }
              i := i + 1;
            case CallFailed => i := i + 1;
            case TimedOut => i := nodeCount;
          }
        } else {
          i := nodeCount;
        }
      }
      WinsIffMajority(INITIAL_TALLY, done, term, nodeCount);
      if voteCount >= expectVotes {
        leader := thisNode;
      }
    }

    /** The ticker: a leader checks on its followers, a follower counts towards an election. */
    method Tick(reached: set<Node>, done: seq<Completion>) returns (rehash: bool)
      requires Valid()
      modifies this
      ensures Valid()
      ensures old(leader) == thisNode ==>
              Known() == old(Known()) && missed == old(missed) &&
              failCount == NextCounts(old(failCount), reached) &&
              rehash == EdgeFires(old(failCount), reached, failLimit)
      ensures old(leader) != thisNode ==> !rehash && failCount == old(failCount) && activeNodes == old(activeNodes)
      ensures old(leader) != thisNode && old(missed) + 1 < voteTimeout ==>
              Known() == old(Known()) && missed == old(missed) + 1
      ensures old(leader) != thisNode && old(missed) + 1 >= voteTimeout ==>
              missed == 0 && term == old(term) + 1 &&
              leader == if Won(TallyAll(INITIAL_TALLY, done, term, |peers|), |peers|) then thisNode else NO_LEADER
      ensures failLimit >= 1 && old(DetectionExact()) ==> DetectionExact()
    {
      rehash := false;
      if leader == thisNode {
        rehash := SendHealthChecks(reached);
      } else {
        missed := missed + 1;
        if missed >= voteTimeout {
          missed := 0;
          ElectLeader(done);
        }
      }
    }

    /** A health check makes its sender the leader unless it is of an older term. */
    method HandleHealth(h: Health)
      requires Valid()
      modifies this`term, this`leader, this`missed
      ensures Valid() && Known() == OnHealth(old(Known()), h)
      ensures h.term < old(term) ==> Known() == old(Known()) && missed == old(missed)
      ensures h.term >= old(term) ==> term == h.term && leader == h.leader && missed == 0
    {
      if h.term < term {
        return;
      }
      if h.term > term {
        term := h.term;
        leader := h.leader;
      } else if h.leader != leader {
        leader := h.leader;
      }
      missed := 0;
    }

    /** The vote is granted exactly if the node has not seen the term, and the answer carries the term
        the node is in from now on. */
    method HandleVote(req: VoteRequest) returns (response: VoteResponse)
      requires Valid()
      modifies this`term, this`leader
      ensures Valid() && (Known(), response) == OnVote(old(Known()), req)
      ensures response.result <==> old(term) < req.term
      ensures term == (if old(term) < req.term then req.term else old(term)) && response.term == term
      ensures response.result ==> leader == NO_LEADER
      ensures !response.result ==> Known() == old(Known())
    {
      if term < req.term {
        term := req.term;
        leader := NO_LEADER;
        response := VoteResponse(true, term);
      } else {
        response := VoteResponse(false, term);
      }
    }

    /** One round of health checks; `reached` are the peers whose call succeeds. The list of active
        nodes is rebuilt only if some peer crossed the limit, which is exactly when it changes. */
    method SendHealthChecks(reached: set<Node>) returns (rehash: bool)
      requires Valid()
      modifies this`failCount, this`activeNodes
      ensures Valid() && failCount == NextCounts(old(failCount), reached)
      ensures rehash == EdgeFires(old(failCount), reached, failLimit)
      ensures !rehash ==> activeNodes == old(activeNodes)
      ensures rehash ==> DetectionExact()
      ensures failLimit >= 1 && old(DetectionExact()) ==>
              DetectionExact() && (rehash <==> (set p | p in activeNodes) != old(set p | p in activeNodes))
    {
      ghost var before := failCount;
      rehash := CountFailures(reached);
      if failLimit >= 1 {
        EdgeIffAliveChanges(thisNode, before, reached, failLimit);
      }
      if rehash {
        RebuildActive();
      }
    }

    method CountFailures(reached: set<Node>) returns (rehash: bool)
      requires Valid()
      modifies this`failCount
      ensures failCount == NextCounts(old(failCount), reached)
      ensures rehash == EdgeFires(old(failCount), reached, failLimit)
    {
      ghost var before := failCount;
      rehash := false;
      for k := 0 to |peers|
        invariant failCount.Keys == before.Keys
        invariant forall p :: p in before && p in peers[..k] ==>
          failCount[p] == if p in reached then 0 else before[p] + 1
        invariant forall p :: p in before && p !in peers[..k] ==> failCount[p] == before[p]
        invariant rehash <==> exists p :: p in peers[..k] && p in before && Edge(before[p], p in reached, failLimit)
      {
        var node := peers[k];
        assert peers[..k + 1] == peers[..k] + [node];
        assert node in peers && node !in peers[..k];
        if node !in reached {
          failCount := failCount[node := failCount[node] + 1];
          if failCount[node] == failLimit {
            rehash := true;
          }
        } else {
          if failCount[node] >= failLimit {
            rehash := true;
          }
          failCount := failCount[node := 0];
        }
      }
      assert peers[..|peers|] == peers;
    }

    method RebuildActive()
      requires Valid()
      modifies this`activeNodes
      ensures Valid() && DetectionExact()
    {
      activeNodes := [thisNode];
      for k := 0 to |peers|
        invariant forall p :: p in activeNodes <==>
          p == thisNode || (p in peers[..k] && failCount[p] < failLimit)
        invariant forall a, b :: 0 <= a < b < |activeNodes| ==> activeNodes[a] != activeNodes[b]
      {
        assert peers[..k + 1] == peers[..k] + [peers[k]];
        assert peers[k] in peers && peers[k] !in peers[..k];
        if failCount[peers[k]] < failLimit {
          assert peers[k] !in activeNodes;
          activeNodes := activeNodes + [peers[k]];
        }
      }
      assert peers[..|peers|] == peers;
      assert (set p | p in activeNodes) == Alive(thisNode, failCount, failLimit);
      DistinctSize(activeNodes);
    }

    /** The minority check is the election quorum counted over the nodes that are alive. */
    method IsPartitioned() returns (partitioned: bool)
      requires Valid() && DetectionExact()
      ensures !partitioned <==> |Alive(thisNode, failCount, failLimit)| >= ExpectVotes(|peers|)
    {
      partitioned := (|peers| + 1) / 2 >= |activeNodes|;
      ServesIffQuorum(|peers|, |activeNodes|);
    }
  }

  lemma {:induction false} DistinctSize<T>(s: seq<T>)
    requires forall j, k :: 0 <= j < k < |s| ==> s[j] != s[k]
    ensures |set x | x in s| == |s|
  {
    if s != [] {
      var rest := s[..|s| - 1];
      DistinctSize(rest);
      assert s[|s| - 1] !in rest;
      assert (set x | x in s) == (set x | x in rest) + {s[|s| - 1]};
    }
  }
}

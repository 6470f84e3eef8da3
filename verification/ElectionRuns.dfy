/** Elections succeed: in every cluster there is, for each of its nodes, a run in which that node is
    elected and all nodes follow it. */
module ElectionRuns {
  import opened Quorum
  import opened NodeRules
  import opened Election

  function Last(run: seq<State>): State
    requires run != []
  {
    run[|run| - 1]
  }

  lemma Extend(all: set<Node>, run: seq<State>, a: Action) returns (more: seq<State>)
    requires IsRun(all, run) && Enabled(Last(run), a)
    ensures IsRun(all, more) && Last(more) == Apply(Last(run), a)
  {
    more := run + [Apply(Last(run), a)];
    assert more[0] == run[0];
    forall k | 0 <= k < |more| - 1 ensures Next(more[k], more[k + 1]) {
      if k < |run| - 1 {
        assert more[k] == run[k] && more[k + 1] == run[k + 1];
      } else {
        assert more[k] == Last(run) && Enabled(more[k], a);
      }
    }
  }

  // ----- gathering votes

  /** Node `n` is a candidate of term 1 for whom exactly the nodes of `yes` have voted. */
  ghost predicate Gathering(all: set<Node>, n: Node, s: State, yes: set<Node>) {
    n in all && s.nodes.Keys == all && yes <= all - {n} && VoteRequest(n, 1) in s.requests &&
    s.nodes[n] == Candidate(all, n, yes) &&
    forall p :: p in all && p != n ==> s.nodes[p] == NodeState(View(if p in yes then 1 else 0, NO_LEADER), Looping)
  }

  lemma StartsGathering(all: set<Node>, n: Node, s: State)
    requires Cluster(all) && Init(all, s) && n in all
    ensures Enabled(s, StartElection(n)) && Gathering(all, n, Apply(s, StartElection(n)), {})
  {
    assert s.nodes.Keys == all;
    assert all - {n} - {} == all - {n} && {n} + {} == {n};
  }

  /** The same, with the vote of `p` on its way to the candidate. */
  ghost predicate Answered(all: set<Node>, n: Node, s: State, yes: set<Node>, p: Node) {
    n in all && s.nodes.Keys == all && yes <= all - {n} && p in all - {n} - yes && VoteRequest(n, 1) in s.requests &&
    Reply(p, n, 1, VoteResponse(true, 1)) in s.replies &&
    s.nodes[n] == Candidate(all, n, yes) &&
    forall q :: q in all && q != n ==> s.nodes[q] == NodeState(View(if q in yes + {p} then 1 else 0, NO_LEADER), Looping)
  }

  lemma SamePeers(s: State, t: State)
    requires s.nodes.Keys == t.nodes.Keys
    ensures Peers(s) == Peers(t)
  {
    assert |s.nodes| == |s.nodes.Keys| == |t.nodes.Keys| == |t.nodes|;
  }

  /** A node that has not voted grants its vote. */
  lemma VoteIsGranted(all: set<Node>, n: Node, s: State, yes: set<Node>, p: Node)
    requires Gathering(all, n, s, yes) && p in all - {n} - yes && StillWaiting(s, n)
    ensures Enabled(s, AnswerVote(p, VoteRequest(n, 1)))
    ensures var t := Apply(s, AnswerVote(p, VoteRequest(n, 1))); Answered(all, n, t, yes, p) && StillWaiting(t, n)
  {
    var t := Apply(s, AnswerVote(p, VoteRequest(n, 1)));
    assert t.nodes.Keys == all;
    SamePeers(s, t);
  }

  function Candidate(all: set<Node>, n: Node, yes: set<Node>): NodeState {
    NodeState(View(1, NO_LEADER), Electing(Tally(1 + |yes|, |yes|), all - {n} - yes, {n} + yes))
  }

  lemma CandidateCountsOn(all: set<Node>, n: Node, s: State, yes: set<Node>, p: Node)
    requires n in s.nodes && yes <= all - {n} && p in all - {n} - yes && s.nodes[n] == Candidate(all, n, yes) && StillWaiting(s, n)
    ensures Counted(s, n, Voted(VoteResponse(true, 1)), {p}, {p}) == s.(nodes := s.nodes[n := Candidate(all, n, yes + {p})])
  {
    OneMore(all, n, yes, p);
  }

  /** The candidate counts it. */
  lemma VoteIsCounted(all: set<Node>, n: Node, s: State, yes: set<Node>, p: Node)
    requires Answered(all, n, s, yes, p) && StillWaiting(s, n)
    ensures Enabled(s, CountVote(n, Reply(p, n, 1, VoteResponse(true, 1))))
    ensures Gathering(all, n, Apply(s, CountVote(n, Reply(p, n, 1, VoteResponse(true, 1)))), yes + {p})
  {
    var a := CountVote(n, Reply(p, n, 1, VoteResponse(true, 1)));
    CandidateCountsOn(all, n, s, yes, p);
    assert Apply(s, a) == s.(nodes := s.nodes[n := Candidate(all, n, yes + {p})]);
    assert Apply(s, a).nodes.Keys == all;
  }

  lemma OneMore<T>(all: set<T>, n: T, yes: set<T>, p: T)
    requires yes <= all - {n} && p in all - {n} - yes
    ensures all - {n} - yes - {p} == all - {n} - (yes + {p}) && {n} + yes + {p} == {n} + (yes + {p})
    ensures yes + {p} <= all - {n} && |yes + {p}| == |yes| + 1
  {
  }

  /** The candidate stops waiting only when it has won. */
  lemma DoneMeansWon(all: set<Node>, n: Node, s: State, yes: set<Node>)
    requires Gathering(all, n, s, yes)
    ensures StillWaiting(s, n) ==> |all - {n} - yes| > 0
    ensures !StillWaiting(s, n) ==> Won(s.nodes[n].phase.tally, Peers(s))
  {
    assert |s.nodes| == |s.nodes.Keys| == |all|;
    assert |all - {n}| == |all| - 1;
    assert |all - {n} - yes| == |all - {n}| - |yes|;
  }

  lemma {:induction false} GathersMajority(all: set<Node>, n: Node, run: seq<State>, yes: set<Node>) returns (more: seq<State>)
    requires IsRun(all, run) && Gathering(all, n, Last(run), yes)
    ensures IsRun(all, more) && exists votes :: Gathering(all, n, Last(more), votes) && !StillWaiting(Last(more), n)
    decreases |all - {n} - yes|
  {
    DoneMeansWon(all, n, Last(run), yes);
    if StillWaiting(Last(run), n) {
      var p :| p in all - {n} - yes;
      VoteIsGranted(all, n, Last(run), yes, p);
      var answered := Extend(all, run, AnswerVote(p, VoteRequest(n, 1)));
      VoteIsCounted(all, n, Last(answered), yes, p);
      var counted := Extend(all, answered, CountVote(n, Reply(p, n, 1, VoteResponse(true, 1))));
      assert all - {n} - (yes + {p}) == all - {n} - yes - {p};
      more := GathersMajority(all, n, counted, yes + {p});
    } else {
      more := run;
    }
  }

  // ----- taking office

  /** Node `n` was elected in term 1, its health check is out and the nodes of `rest` have not heard it. */
  ghost predicate Leading(all: set<Node>, n: Node, s: State, rest: set<Node>) {
    n in all && s.nodes.Keys == all && rest <= all - {n} && Reign(n, 1) in s.reigns && Health(n, 1) in s.healths &&
    forall p :: p in all ==> s.nodes[p].phase == Looping && s.nodes[p].view.term <= 1 && (p !in rest ==> s.nodes[p].view == View(1, n))
  }

  lemma TakesOffice(all: set<Node>, n: Node, s: State, yes: set<Node>)
    requires Cluster(all) && Gathering(all, n, s, yes) && !StillWaiting(s, n)
    ensures Enabled(s, FinishElection(n))
    ensures var t := Apply(s, FinishElection(n));
            Enabled(t, SendHealth(n)) && Leading(all, n, Apply(t, SendHealth(n)), all - {n})
  {
    DoneMeansWon(all, n, s, yes);
    var t := Apply(s, FinishElection(n));
    assert t.nodes.Keys == all;
    assert t.nodes[n] == NodeState(View(1, n), Looping);
  }

  lemma OneMoreFollower(all: set<Node>, n: Node, s: State, rest: set<Node>, p: Node)
    requires Leading(all, n, s, rest) && p in rest
    ensures Enabled(s, ReceiveHealth(p, Health(n, 1)))
    ensures Leading(all, n, Apply(s, ReceiveHealth(p, Health(n, 1))), rest - {p})
  {
    var t := Apply(s, ReceiveHealth(p, Health(n, 1)));
    assert t.nodes.Keys == all;
    assert t.nodes[p] == NodeState(View(1, n), Looping);
  }

  lemma {:induction false} AllFollow(all: set<Node>, n: Node, run: seq<State>, rest: set<Node>) returns (more: seq<State>)
    requires IsRun(all, run) && Leading(all, n, Last(run), rest)
    ensures IsRun(all, more) && Reign(n, 1) in Last(more).reigns
    ensures Last(more).nodes.Keys == all && forall p :: p in all ==> Last(more).nodes[p].view == View(1, n)
    decreases |rest|
  {
    if |rest| > 0 {
      var p :| p in rest;
      OneMoreFollower(all, n, Last(run), rest, p);
      var heard := Extend(all, run, ReceiveHealth(p, Health(n, 1)));
      more := AllFollow(all, n, heard, rest - {p});
    } else {
      more := run;
      assert forall p :: p !in rest;
    }
  }

  /** In every cluster every node can be elected, and then all nodes name it as their leader. */
  lemma EveryNodeCanLead(all: set<Node>, n: Node) returns (run: seq<State>)
    requires Cluster(all) && n in all
    ensures IsRun(all, run) && Reign(n, 1) in Last(run).reigns
    ensures Last(run).nodes.Keys == all && forall p :: p in all ==> Last(run).nodes[p].view == View(1, n)
  {
    var s := State(map m | m in all :: NodeState(View(0, NO_LEADER), Looping), {}, {}, {}, {}, {});
    StartsGathering(all, n, s);
    run := [s];
    run := Extend(all, run, StartElection(n));
    run := GathersMajority(all, n, run, {});
    var votes :| Gathering(all, n, Last(run), votes) && !StillWaiting(Last(run), n);
    TakesOffice(all, n, Last(run), votes);
    run := Extend(all, run, FinishElection(n));
    run := Extend(all, run, SendHealth(n));
    run := AllFollow(all, n, run, all - {n});
  }
}

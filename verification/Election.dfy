/** Leader election as a protocol: all nodes of a fixed cluster and every message ever sent.
    Messages are never removed from the sets, so each of them may be delayed without bound, lost
    (never received) or received again. Nodes do not restart: terms are not persisted. */
module Election {
  import opened Quorum
  import opened NodeRules

  datatype Reply = Reply(voter: Node, candidate: Node, term: nat, response: VoteResponse)

  /** A vote: the candidate's vote for itself or a granted request. History only, no node reads it. */
  datatype Grant = Grant(voter: Node, term: nat, candidate: Node)

  datatype Reign = Reign(leader: Node, term: nat)

  /** A node is either serving its event loop or blocked in the election it has started. `pending`
      holds the peers whose vote call has not completed yet (every call completes at most once) and
      `supporters` those counted in favour. */
  datatype Phase =
    | Looping
    | Electing(tally: Tally, pending: set<Node>, supporters: set<Node>)

  datatype NodeState = NodeState(view: View, phase: Phase)

  datatype State = State(
    nodes: map<Node, NodeState>,
    requests: set<VoteRequest>,
    replies: set<Reply>,
    healths: set<Health>,
    grants: set<Grant>,
    reigns: set<Reign>)

  datatype Action =
    | StartElection(node: Node)
    | CountVote(node: Node, reply: Reply)
    | LoseCall(node: Node, peer: Node)
    | ElectionTimeout(node: Node)
    | FinishElection(node: Node)
    | AnswerVote(node: Node, req: VoteRequest)
    | SendHealth(node: Node)
    | ReceiveHealth(node: Node, health: Health)

  ghost predicate Cluster(all: set<Node>) {
    all != {} && NO_LEADER !in all
  }

  ghost predicate Init(all: set<Node>, s: State) {
    s == State(map n | n in all :: NodeState(View(0, NO_LEADER), Looping), {}, {}, {}, {}, {})
  }

  /** The number of nodes other than oneself. */
  function Peers(s: State): nat {
    if |s.nodes| == 0 then 0 else |s.nodes| - 1
  }

  predicate InLoop(s: State, n: Node) {
    n in s.nodes && s.nodes[n].phase.Looping?
  }

  predicate StillWaiting(s: State, n: Node) {
    n in s.nodes && s.nodes[n].phase.Electing? && Waiting(s.nodes[n].phase.tally, Peers(s))
  }

  predicate Enabled(s: State, a: Action) {
    match a
    case StartElection(n) => InLoop(s, n) && s.nodes[n].view.leader != n
    case CountVote(n, r) =>
      StillWaiting(s, n) && r in s.replies && r.candidate == n &&
      r.term == s.nodes[n].view.term && r.voter in s.nodes[n].phase.pending
    case LoseCall(n, p) => StillWaiting(s, n) && p in s.nodes[n].phase.pending
    case ElectionTimeout(n) => StillWaiting(s, n)
    case FinishElection(n) => n in s.nodes && s.nodes[n].phase.Electing? && !StillWaiting(s, n)
    case AnswerVote(n, req) => InLoop(s, n) && req in s.requests && req.candidate != n
    case SendHealth(n) => InLoop(s, n) && s.nodes[n].view.leader == n
    case ReceiveHealth(n, h) => InLoop(s, n) && h in s.healths && h.leader != n
  }

  /** The candidate's counters after one completion. */
  function Counted(s: State, n: Node, c: Completion, done: set<Node>, won: set<Node>): State
    requires StillWaiting(s, n)
  {
    var me := s.nodes[n];
    var tally := Count(me.phase.tally, c, me.view.term, Peers(s));
    s.(nodes := s.nodes[n := me.(phase := Electing(tally, me.phase.pending - done, me.phase.supporters + won))])
  }

  function Apply(s: State, a: Action): State
    requires Enabled(s, a)
  {
    match a
    case StartElection(n) =>
      var term := s.nodes[n].view.term + 1;
      s.(nodes := s.nodes[n := NodeState(View(term, NO_LEADER), Electing(INITIAL_TALLY, s.nodes.Keys - {n}, {n}))],
         requests := s.requests + {VoteRequest(n, term)},
         grants := s.grants + {Grant(n, term, n)})
    case CountVote(n, r) =>
      Counted(s, n, Voted(r.response), {r.voter}, if r.response.result then {r.voter} else {})
    case LoseCall(n, p) => Counted(s, n, CallFailed, {p}, {})
    case ElectionTimeout(n) => Counted(s, n, TimedOut, {}, {})
    case FinishElection(n) =>
      var me := s.nodes[n];
      if Won(me.phase.tally, Peers(s)) then
        s.(nodes := s.nodes[n := NodeState(me.view.(leader := n), Looping)],
           reigns := s.reigns + {Reign(n, me.view.term)})
      else
        s.(nodes := s.nodes[n := me.(phase := Looping)])
    case AnswerVote(n, req) =>
      var (view, response) := OnVote(s.nodes[n].view, req);
      s.(nodes := s.nodes[n := NodeState(view, Looping)],
         replies := s.replies + {Reply(n, req.candidate, req.term, response)},
         grants := if response.result then s.grants + {Grant(n, req.term, req.candidate)} else s.grants)
    case SendHealth(n) =>
      s.(healths := s.healths + {Health(n, s.nodes[n].view.term)})
    case ReceiveHealth(n, h) =>
      s.(nodes := s.nodes[n := NodeState(OnHealth(s.nodes[n].view, h), Looping)])
  }

  ghost predicate Next(s: State, t: State) {
    exists a :: Enabled(s, a) && t == Apply(s, a)
  }

  ghost predicate IsRun(all: set<Node>, run: seq<State>) {
    Cluster(all) && run != [] && Init(all, run[0]) &&
    forall k :: 0 <= k < |run| - 1 ==> Next(run[k], run[k + 1])
  }

  // ----- invariants

  /** The nodes that backed `candidate` in `term`. */
  ghost function Voters(s: State, candidate: Node, term: nat): set<Node> {
    set v | v in s.nodes.Keys && Grant(v, term, candidate) in s.grants
  }

  /** A node has backed nobody in a term it has not reached, and only one candidate in a term. */
  ghost predicate OneVotePerTerm(s: State) {
    (forall g :: g in s.grants ==> g.voter in s.nodes && g.term <= s.nodes[g.voter].view.term) &&
    (forall g, h :: g in s.grants && h in s.grants && g.voter == h.voter && g.term == h.term ==> g == h)
  }

  ghost predicate RepliesBackedByGrants(s: State) {
    forall r :: r in s.replies && r.response.result ==> Grant(r.voter, r.term, r.candidate) in s.grants
  }

  /** A candidate counts itself and distinct peers which voted for it in its current term. */
  ghost predicate CandidateCounts(s: State, n: Node)
    requires n in s.nodes && s.nodes[n].phase.Electing?
  {
    var p := s.nodes[n].phase;
    p.tally.voteCount <= |p.supporters| && p.supporters !! p.pending &&
    p.supporters <= Voters(s, n, s.nodes[n].view.term)
  }

  ghost predicate CandidatesCount(s: State) {
    forall n :: n in s.nodes && s.nodes[n].phase.Electing? ==> CandidateCounts(s, n)
  }

  ghost predicate ReignsHaveQuorum(s: State) {
    forall r :: r in s.reigns ==> |Voters(s, r.leader, r.term)| >= ExpectVotes(Peers(s))
  }

  /** Whoever is named a leader, by a node or by a health check, was elected in that very term. */
  ghost predicate LeadersReign(s: State) {
    (forall n :: n in s.nodes && s.nodes[n].view.leader != NO_LEADER ==>
      Reign(s.nodes[n].view.leader, s.nodes[n].view.term) in s.reigns) &&
    (forall h :: h in s.healths ==> Reign(h.leader, h.term) in s.reigns)
  }

  ghost predicate Inv(all: set<Node>, s: State) {
    s.nodes.Keys == all && OneVotePerTerm(s) && RepliesBackedByGrants(s) &&
    CandidatesCount(s) && ReignsHaveQuorum(s) && LeadersReign(s)
  }

  lemma VotersGrow(s: State, t: State, candidate: Node, term: nat)
    requires s.nodes.Keys == t.nodes.Keys && s.grants <= t.grants
    ensures Voters(s, candidate, term) <= Voters(t, candidate, term)
    ensures |Voters(s, candidate, term)| <= |Voters(t, candidate, term)|
  {
    SubsetSize(Voters(s, candidate, term), Voters(t, candidate, term));
  }

  /** No action takes a vote back, so majorities and counted supporters stay what they were. */
  lemma QuorumsStay(all: set<Node>, s: State, t: State)
    requires Inv(all, s) && t.nodes.Keys == all && s.grants <= t.grants && t.reigns == s.reigns
    ensures ReignsHaveQuorum(t)
  {
    forall r | r in t.reigns ensures |Voters(t, r.leader, r.term)| >= ExpectVotes(Peers(t)) {
      VotersGrow(s, t, r.leader, r.term);
      assert |s.nodes| == |s.nodes.Keys| == |t.nodes.Keys| == |t.nodes|;
    }
  }

  lemma StartElectionKeeps(all: set<Node>, s: State, n: Node)
    requires Inv(all, s) && Enabled(s, StartElection(n))
    ensures Inv(all, Apply(s, StartElection(n)))
  {
    var t := Apply(s, StartElection(n));
    QuorumsStay(all, s, t);
    forall m | m in t.nodes && t.nodes[m].phase.Electing? ensures CandidateCounts(t, m) {
      VotersGrow(s, t, m, t.nodes[m].view.term);
    }
  }

  /** A completion that adds at most as many votes as new supporters. */
  lemma CountedKeeps(all: set<Node>, s: State, n: Node, c: Completion, done: set<Node>, won: set<Node>)
    requires Inv(all, s) && StillWaiting(s, n)
    requires won <= done <= s.nodes[n].phase.pending && won <= Voters(s, n, s.nodes[n].view.term)
    requires Count(s.nodes[n].phase.tally, c, s.nodes[n].view.term, Peers(s)).voteCount <= s.nodes[n].phase.tally.voteCount + |won|
    ensures Inv(all, Counted(s, n, c, done, won))
  {
    var t := Counted(s, n, c, done, won);
    QuorumsStay(all, s, t);
    forall m | m in t.nodes && t.nodes[m].phase.Electing? ensures CandidateCounts(t, m) {
      VotersGrow(s, t, m, t.nodes[m].view.term);
      assert CandidateCounts(s, m);
      if m == n {
        assert |s.nodes[n].phase.supporters + won| == |s.nodes[n].phase.supporters| + |won|;
      }
    }
  }

  lemma CountKeeps(all: set<Node>, s: State, a: Action)
    requires Inv(all, s) && Enabled(s, a)
    requires a.CountVote? || a.LoseCall? || a.ElectionTimeout?
    ensures Inv(all, Apply(s, a))
  {
    match a
    case CountVote(n, r) =>
      CountedKeeps(all, s, n, Voted(r.response), {r.voter}, if r.response.result then {r.voter} else {});
    case LoseCall(n, p) => CountedKeeps(all, s, n, CallFailed, {p}, {});
    case ElectionTimeout(n) => CountedKeeps(all, s, n, TimedOut, {}, {});
  }

  lemma FinishElectionKeeps(all: set<Node>, s: State, n: Node)
    requires Inv(all, s) && Enabled(s, FinishElection(n))
    ensures Inv(all, Apply(s, FinishElection(n)))
  {
    var t := Apply(s, FinishElection(n));
    var me := s.nodes[n];
    assert CandidateCounts(s, n);
    SubsetSize(me.phase.supporters, Voters(s, n, me.view.term));
    QuorumsStay(all, s, t.(reigns := s.reigns));
    forall r | r in t.reigns ensures |Voters(t, r.leader, r.term)| >= ExpectVotes(Peers(t)) {
      VotersGrow(s, t, r.leader, r.term);
      assert |s.nodes| == |s.nodes.Keys| == |t.nodes.Keys| == |t.nodes|;
    }
    forall m | m in t.nodes && t.nodes[m].phase.Electing? ensures CandidateCounts(t, m) {
      VotersGrow(s, t, m, t.nodes[m].view.term);
      assert CandidateCounts(s, m);
    }
  }

  lemma LoopActionKeeps(all: set<Node>, s: State, a: Action)
    requires Cluster(all) && Inv(all, s) && Enabled(s, a)
    requires a.AnswerVote? || a.SendHealth? || a.ReceiveHealth?
    ensures Inv(all, Apply(s, a))
  {
    var t := Apply(s, a);
    QuorumsStay(all, s, t);
    forall m | m in t.nodes && t.nodes[m].phase.Electing? ensures CandidateCounts(t, m) {
      VotersGrow(s, t, m, t.nodes[m].view.term);
      assert CandidateCounts(s, m);
    }
  }

  lemma ActionKeeps(all: set<Node>, s: State, a: Action)
    requires Cluster(all) && Inv(all, s) && Enabled(s, a)
    ensures Inv(all, Apply(s, a))
  {
    match a
    case StartElection(n) => StartElectionKeeps(all, s, n);
    case FinishElection(n) => FinishElectionKeeps(all, s, n);
    case CountVote(_, _) => CountKeeps(all, s, a);
    case LoseCall(_, _) => CountKeeps(all, s, a);
    case ElectionTimeout(_) => CountKeeps(all, s, a);
    case AnswerVote(_, _) => LoopActionKeeps(all, s, a);
    case SendHealth(_) => LoopActionKeeps(all, s, a);
    case ReceiveHealth(_, _) => LoopActionKeeps(all, s, a);
  }

  ghost predicate TermsGrow(s: State, t: State) {
    s.nodes.Keys == t.nodes.Keys && forall n :: n in s.nodes ==> s.nodes[n].view.term <= t.nodes[n].view.term
  }

  lemma StepGrows(s: State, a: Action)
    requires Enabled(s, a)
    ensures TermsGrow(s, Apply(s, a)) && s.reigns <= Apply(s, a).reigns
  {
  }

  lemma NextGrows(s: State, t: State)
    requires Next(s, t)
    ensures TermsGrow(s, t) && s.reigns <= t.reigns
  {
    var a :| Enabled(s, a) && t == Apply(s, a);
    StepGrows(s, a);
  }

  lemma TermsGrowOn(s: State, t: State, u: State)
    requires TermsGrow(s, t) && TermsGrow(t, u)
    ensures TermsGrow(s, u)
  {
  }

  lemma {:induction false} RunKeeps(all: set<Node>, run: seq<State>, k: nat)
    requires IsRun(all, run) && k < |run|
    ensures Inv(all, run[k])
  {
    if k > 0 {
      RunKeeps(all, run, k - 1);
      assert Next(run[k - 1], run[k]);
      var a :| Enabled(run[k - 1], a) && run[k] == Apply(run[k - 1], a);
      ActionKeeps(all, run[k - 1], a);
    }
  }

  // ----- what the protocol guarantees

  /** Terms never decrease on any node and an election is never forgotten. */
  lemma {:induction false} TermsNeverDecrease(all: set<Node>, run: seq<State>, j: nat, k: nat)
    requires IsRun(all, run) && j <= k < |run|
    ensures TermsGrow(run[j], run[k]) && run[j].reigns <= run[k].reigns
    decreases k - j
  {
    if j < k {
      TermsNeverDecrease(all, run, j, k - 1);
      assert Next(run[k - 1], run[k]);
      NextGrows(run[k - 1], run[k]);
      TermsGrowOn(run[j], run[k - 1], run[k]);
    }
  }

  /** Two majorities of one term would share a node which backed two candidates. */
  lemma OneReignPerTerm(all: set<Node>, s: State, r: Reign, q: Reign)
    requires Cluster(all) && Inv(all, s)
    requires r in s.reigns && q in s.reigns && r.term == q.term
    ensures r == q
  {
    assert |s.nodes| == |all|;
    QuorumsIntersect(all, Voters(s, r.leader, r.term), Voters(s, q.leader, q.term));
    var v :| v in Voters(s, r.leader, r.term) && v in Voters(s, q.leader, q.term);
    assert Grant(v, r.term, r.leader) in s.grants && Grant(v, q.term, q.leader) in s.grants;
  }

  /** Election safety: over a whole run at most one node is ever elected for a term. */
  lemma ElectionSafety(all: set<Node>, run: seq<State>, j: nat, k: nat, r: Reign, q: Reign)
    requires IsRun(all, run) && j < |run| && k < |run|
    requires r in run[j].reigns && q in run[k].reigns && r.term == q.term
    ensures r.leader == q.leader
  {
    var last := if j <= k then k else j;
    TermsNeverDecrease(all, run, j, last);
    TermsNeverDecrease(all, run, k, last);
    RunKeeps(all, run, last);
    OneReignPerTerm(all, run[last], r, q);
  }

  /** The same without history: two nodes which name a leader for the same term, at any two moments
      of a run, name the same one; a node that names itself was elected in its current term. */
  lemma LeadersAgree(all: set<Node>, run: seq<State>, j: nat, k: nat, m: Node, n: Node)
    requires IsRun(all, run) && j < |run| && k < |run| && m in all && n in all
    requires m in run[j].nodes && n in run[k].nodes
    requires run[j].nodes[m].view.term == run[k].nodes[n].view.term
    requires run[j].nodes[m].view.leader != NO_LEADER && run[k].nodes[n].view.leader != NO_LEADER
    ensures run[j].nodes[m].view.leader == run[k].nodes[n].view.leader
    ensures run[j].nodes[m].view.leader == m ==> Reign(m, run[j].nodes[m].view.term) in run[j].reigns
  {
    RunKeeps(all, run, j);
    RunKeeps(all, run, k);
    var a, b := run[j].nodes[m].view, run[k].nodes[n].view;
    ElectionSafety(all, run, j, k, Reign(a.leader, a.term), Reign(b.leader, b.term));
  }

  /** The "wrong leader" branch of the health handler is unreachable: no health check that a node can
      receive, however late, disagrees with the leader the node knows for that term. */
  lemma WrongLeaderUnreachable(all: set<Node>, run: seq<State>, k: nat, n: Node, h: Health)
    requires IsRun(all, run) && k < |run| && Enabled(run[k], ReceiveHealth(n, h))
    ensures !WrongLeader(run[k].nodes[n].view, h)
  {
    RunKeeps(all, run, k);
    var v := run[k].nodes[n].view;
    if WrongLeader(v, h) {
      OneReignPerTerm(all, run[k], Reign(v.leader, v.term), Reign(h.leader, h.term));
      assert false;
    }
  }

  /** A leader never hears of a leader of its own term other than itself: as long as its term
      stands, its reign is not contested by any health check in flight. */
  lemma LeaderIsNotDeposedInItsTerm(all: set<Node>, run: seq<State>, k: nat, n: Node, h: Health)
    requires IsRun(all, run) && k < |run| && Enabled(run[k], ReceiveHealth(n, h))
    requires run[k].nodes[n].view.leader == n
    ensures h.term != run[k].nodes[n].view.term
  {
    RunKeeps(all, run, k);
    assert n != NO_LEADER;
    WrongLeaderUnreachable(all, run, k, n, h);
  }

  /** A leader and a majority of active nodes elsewhere always share a voter of that leader. */
  lemma LeaderReachesEveryQuorum(all: set<Node>, run: seq<State>, k: nat, r: Reign, active: set<Node>)
    requires IsRun(all, run) && k < |run| && r in run[k].reigns
    requires active <= all && !Partitioned(|all| - 1, |active|)
    ensures exists v :: v in active && Grant(v, r.term, r.leader) in run[k].grants
  {
    RunKeeps(all, run, k);
    ServesIffQuorum(|all| - 1, |active|);
    assert |run[k].nodes| == |all|;
    QuorumsIntersect(all, active, Voters(run[k], r.leader, r.term));
  }
}

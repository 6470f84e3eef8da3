/** What one cluster node does with one message: the rules shared by the protocol model and by the
    imperative failover runner. */
module NodeRules {
  import opened Quorum

  type Node = string

  const NO_LEADER: Node := ""

  datatype VoteRequest = VoteRequest(candidate: Node, term: nat)
  datatype VoteResponse = VoteResponse(result: bool, term: nat)
  datatype Health = Health(leader: Node, term: nat)

  /** The term and the leader known to the node. */
  datatype View = View(term: nat, leader: Node)

  /** A vote request with a newer term is granted; granting clears the leader. */
  function OnVote(v: View, req: VoteRequest): (View, VoteResponse) {
    if v.term < req.term then
      (View(req.term, NO_LEADER), VoteResponse(true, req.term))
    else
      (v, VoteResponse(false, v.term))
  }

  /** A health check of an older term is ignored, otherwise its sender becomes the leader. */
  function OnHealth(v: View, h: Health): View {
    if h.term < v.term then v else View(h.term, h.leader)
  }

  /** The branch of the health handler which is reported as a bug: a second leader in one term. */
  predicate WrongLeader(v: View, h: Health) {
    h.term == v.term && v.leader != NO_LEADER && h.leader != v.leader
  }

  /** What the candidate's wait loop receives: the completion of one vote request or the timeout. */
  datatype Completion =
    | Voted(response: VoteResponse)
    | CallFailed
    | TimedOut

  /** The two counters of the candidate's wait loop. */
  datatype Tally = Tally(voteCount: nat, i: nat)

  const INITIAL_TALLY := Tally(1, 0)

  predicate Waiting(t: Tally, nodeCount: nat) {
    t.i < nodeCount && t.voteCount < ExpectVotes(nodeCount)
  }

  predicate Won(t: Tally, nodeCount: nat) {
    t.voteCount >= ExpectVotes(nodeCount)
  }

  function Count(t: Tally, c: Completion, term: nat, nodeCount: nat): Tally {
    match c
    case Voted(r) =>
      if r.result then Tally(t.voteCount + 1, t.i + 1)
      else if term < r.term then Tally(0, nodeCount + 1)
      else Tally(t.voteCount, t.i + 1)
    case CallFailed => Tally(t.voteCount, t.i + 1)
    case TimedOut => Tally(t.voteCount, nodeCount)
  }
}

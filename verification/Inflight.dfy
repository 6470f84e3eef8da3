/** The one-slot in-flight group of a session. Its token is taken when the session asks to subscribe
    or leave, travels with the request through hub, topic initialisation and topic, and is given back
    by whoever finishes the request. Giving back a token that was not taken is a panic. */
module Inflight {
  type Sid = string

  /** `tokens` are taken, `closed` is a session which dropped its group. `leaked` remembers that a
      request was dropped together with its token. */
  datatype Session = Session(tokens: nat, terminating: bool, closed: bool, leaked: bool)

  datatype Place = HubJoin | TopicInit | TopicReg | TopicUnreg

  /** `init` is false for the request by which a closed session leaves its topics. */
  datatype Request = Request(sid: Sid, init: bool, place: Place)

  datatype State = State(sessions: map<Sid, Session>, requests: map<nat, Request>, next: nat, panicked: bool)

  datatype HubOutcome = NoTenant | NewTopic | Inactive | Forwarded | QueueFull

  datatype Step =
    | Connect(sid: Sid)
    | Subscribe(sid: Sid, attached: bool, queueFull: bool)
    | Leave(sid: Sid, attached: bool, denied: bool)
    | Hub(id: nat, outcome: HubOutcome)
    | InitDone(id: nat)
    | InitFailed(id: nat)
    | Requeue(id: nat)
    | DrainUnreg(id: nat)
    | Register(id: nat)
    | Unregister(id: nat)
    | ProxyUnregister(id: nat, known: bool)
    | Forget(id: nat)
    | Terminate(sid: Sid)
    | CleanUp(sid: Sid, topics: nat)

  function Empty(): State {
    State(map[], map[], 0, false)
  }

  // ----- the group

  /** Taking the token waits until it is there: here, nothing happens if it is not. */
  predicate CanTake(s: State, sid: Sid) {
    sid in s.sessions && !s.sessions[sid].terminating && s.sessions[sid].tokens == 0
  }

  function Take(s: State, sid: Sid): State
    requires CanTake(s, sid)
  {
    s.(sessions := s.sessions[sid := s.sessions[sid].(tokens := 1)])
  }

  /** Gives the token back unless the session has dropped its group. */
  function Done(s: State, sid: Sid): State {
    if sid !in s.sessions || s.sessions[sid].closed then s
    else if s.sessions[sid].tokens == 0 then s.(panicked := true)
    else s.(sessions := s.sessions[sid := s.sessions[sid].(tokens := s.sessions[sid].tokens - 1)])
  }

  // ----- requests on their way

  function Add(s: State, r: Request): State {
    s.(requests := s.requests[s.next := r], next := s.next + 1)
  }

  function Remove(s: State, id: nat): State {
    s.(requests := map x | x in s.requests && x != id :: s.requests[x])
  }

  function Move(s: State, id: nat, place: Place): State
    requires id in s.requests
  {
    s.(requests := s.requests[id := s.requests[id].(place := place)])
  }

  /** A request that is dropped keeps its token. */
  function Leak(s: State, id: nat): State
    requires id in s.requests
  {
    var r := s.requests[id];
    var s' := Remove(s, id);
    if r.init && r.sid in s.sessions then s'.(sessions := s.sessions[r.sid := s.sessions[r.sid].(leaked := true)]) else s'
  }

  function Finish(s: State, id: nat): State
    requires id in s.requests
  {
    Done(Remove(s, id), s.requests[id].sid)
  }

  predicate Waits(s: State, id: nat, place: Place) {
    id in s.requests && s.requests[id].place == place
  }

  /** Messages of a closed session to the topics it is attached to. */
  function AddLeaves(s: State, sid: Sid, topics: nat): State
    decreases topics
  {
    if topics == 0 then s else AddLeaves(Add(s, Request(sid, false, TopicUnreg)), sid, topics - 1)
  }

  function Apply(s: State, step: Step): State {
    match step
    case Connect(sid) =>
      if sid in s.sessions then s else s.(sessions := s.sessions[sid := Session(0, false, false, false)])
    case Subscribe(sid, attached, queueFull) =>
      if !CanTake(s, sid) then s
      else if attached || queueFull then Done(Take(s, sid), sid)
      else Add(Take(s, sid), Request(sid, true, HubJoin))
    case Leave(sid, attached, denied) =>
      if !CanTake(s, sid) then s
      else if !attached || denied then Done(Take(s, sid), sid)
      else Add(Take(s, sid), Request(sid, true, TopicUnreg))
    case Hub(id, outcome) =>
      if !Waits(s, id, HubJoin) then s
      else (match outcome
            case NoTenant => Leak(s, id)
            case NewTopic => Move(s, id, TopicInit)
            case Forwarded => Move(s, id, TopicReg)
            case _ => Finish(s, id))
    case InitDone(id) => if Waits(s, id, TopicInit) then Move(s, id, TopicReg) else s
    case InitFailed(id) => if Waits(s, id, TopicInit) then Finish(s, id) else s
    case Requeue(id) => if Waits(s, id, TopicReg) then Move(s, id, HubJoin) else s
    case DrainUnreg(id) => if Waits(s, id, TopicUnreg) then Finish(s, id) else s
    case Register(id) => if Waits(s, id, TopicReg) then Finish(s, id) else s
    case Unregister(id) =>
      if !Waits(s, id, TopicUnreg) then s else if s.requests[id].init then Finish(s, id) else Remove(s, id)
    case ProxyUnregister(id, known) =>
      if !Waits(s, id, TopicUnreg) then s
      else if s.requests[id].init || known then Finish(s, id) else Remove(s, id)
    case Forget(id) =>
      if Waits(s, id, TopicReg) || Waits(s, id, TopicUnreg) then Leak(s, id) else s
    case Terminate(sid) =>
      if sid in s.sessions then s.(sessions := s.sessions[sid := s.sessions[sid].(terminating := true)]) else s
    case CleanUp(sid, topics) =>
      if sid in s.sessions && s.sessions[sid].terminating && !s.sessions[sid].closed && s.sessions[sid].tokens == 0 then
        AddLeaves(s.(sessions := s.sessions[sid := s.sessions[sid].(closed := true)]), sid, topics)
      else s
  }

  function Run(s: State, steps: seq<Step>): State {
    if steps == [] then s else Apply(Run(s, steps[..|steps| - 1]), steps[|steps| - 1])
  }

  // ----- what every step keeps

  /** A request with a token finds its session with the token taken and the group in place; one
      without comes from a session that dropped the group. */
  predicate Accounted(s: State, r: Request) {
    r.sid in s.sessions &&
    (if r.init then !s.sessions[r.sid].closed && s.sessions[r.sid].tokens == 1 && !s.sessions[r.sid].leaked
     else s.sessions[r.sid].closed && r.place == TopicUnreg)
  }

  ghost predicate InFlight(s: State, sid: Sid) {
    exists id :: id in s.requests && s.requests[id].init && s.requests[id].sid == sid
  }

  ghost predicate AllAccounted(s: State) {
    forall id :: id in s.requests ==> id < s.next && Accounted(s, s.requests[id])
  }

  /** No two requests with a token belong to the same session. */
  ghost predicate OneEach(s: State) {
    forall i, j :: i in s.requests && j in s.requests && i != j && s.requests[i].init && s.requests[j].init ==>
      s.requests[i].sid != s.requests[j].sid
  }

  /** A token is taken exactly for a request in flight or a dropped one. */
  ghost predicate Conserved(s: State) {
    forall sid :: sid in s.sessions ==>
      var x := s.sessions[sid];
      x.tokens <= 1 && (x.tokens == 1 <==> InFlight(s, sid) || x.leaked) && (x.closed ==> x.tokens == 0 && x.terminating)
  }

  ghost predicate Inv(s: State) {
    !s.panicked && AllAccounted(s) && OneEach(s) && Conserved(s)
  }

  /** Removing a request that carries no token. */
  lemma RemoveKeeps(s: State, id: nat)
    requires Inv(s) && id in s.requests && !s.requests[id].init
    ensures Inv(Remove(s, id))
  {
    var s' := Remove(s, id);
    forall sid | sid in s.sessions ensures InFlight(s', sid) <==> InFlight(s, sid) {
      if InFlight(s, sid) {
        var x :| x in s.requests && s.requests[x].init && s.requests[x].sid == sid;
        assert x in s'.requests;
      }
    }
  }

  /** Once its only request is removed a session has nothing in flight; others are not affected. */
  lemma RemoveOwn(s: State, id: nat)
    requires OneEach(s) && id in s.requests && s.requests[id].init
    ensures !InFlight(Remove(s, id), s.requests[id].sid)
    ensures forall sid :: sid != s.requests[id].sid ==> (InFlight(Remove(s, id), sid) <==> InFlight(s, sid))
  {
    var s' := Remove(s, id);
    forall sid | sid != s.requests[id].sid && InFlight(s, sid) ensures InFlight(s', sid) {
      var x :| x in s.requests && s.requests[x].init && s.requests[x].sid == sid;
      assert x in s'.requests;
    }
  }

  lemma FinishKeeps(s: State, id: nat)
    requires Inv(s) && id in s.requests
    ensures Inv(Finish(s, id))
  {
    if s.requests[id].init {
      RemoveOwn(s, id);
      var s' := Finish(s, id);
      assert forall sid :: InFlight(s', sid) <==> InFlight(Remove(s, id), sid);
    } else {
      RemoveKeeps(s, id);
    }
  }

  lemma LeakKeeps(s: State, id: nat)
    requires Inv(s) && id in s.requests
    ensures Inv(Leak(s, id))
  {
    if s.requests[id].init {
      RemoveOwn(s, id);
      var s' := Leak(s, id);
      assert forall sid :: InFlight(s', sid) <==> InFlight(Remove(s, id), sid);
    } else {
      RemoveKeeps(s, id);
    }
  }

  lemma MoveKeeps(s: State, id: nat, place: Place)
    requires Inv(s) && id in s.requests && s.requests[id].place != TopicUnreg
    ensures Inv(Move(s, id, place))
  {
    var s' := Move(s, id, place);
    forall sid ensures InFlight(s', sid) <==> InFlight(s, sid) {
      if InFlight(s, sid) {
        var x :| x in s.requests && s.requests[x].init && s.requests[x].sid == sid;
        assert s'.requests[x].init && s'.requests[x].sid == sid;
      }
      if InFlight(s', sid) {
        var x :| x in s'.requests && s'.requests[x].init && s'.requests[x].sid == sid;
        assert s.requests[x].init && s.requests[x].sid == sid;
      }
    }
  }

  lemma NewInFlight(s: State, sid: Sid, place: Place, x: Sid)
    requires AllAccounted(s) && CanTake(s, sid)
    ensures InFlight(Add(Take(s, sid), Request(sid, true, place)), x) <==> x == sid || InFlight(s, x)
  {
    var s' := Add(Take(s, sid), Request(sid, true, place));
    if InFlight(s, x) {
      var id :| id in s.requests && s.requests[id].init && s.requests[id].sid == x;
      assert s'.requests[id] == s.requests[id];
    }
    if x == sid {
      assert s'.requests[s.next].sid == sid;
    }
  }

  /** A session whose token is free has nothing in flight, so a new request is the only one. */
  lemma TakeKeeps(s: State, sid: Sid, place: Place)
    requires Inv(s) && CanTake(s, sid)
    ensures Inv(Add(Take(s, sid), Request(sid, true, place)))
  {
    var s' := Add(Take(s, sid), Request(sid, true, place));
    assert !InFlight(s, sid);
    assert AllAccounted(s') && OneEach(s');
    forall x | x in s'.sessions ensures InFlight(s', x) <==> x == sid || InFlight(s, x) {
      NewInFlight(s, sid, place, x);
    }
  }

  lemma {:induction false} AddLeavesKeeps(s: State, sid: Sid, topics: nat)
    requires Inv(s) && sid in s.sessions && s.sessions[sid].closed
    ensures Inv(AddLeaves(s, sid, topics))
    decreases topics
  {
    if topics > 0 {
      var s' := Add(s, Request(sid, false, TopicUnreg));
      forall x ensures InFlight(s', x) <==> InFlight(s, x) {
        if InFlight(s, x) {
          var id :| id in s.requests && s.requests[id].init && s.requests[id].sid == x;
          assert s'.requests[id] == s.requests[id];
        }
      }
      AddLeavesKeeps(s', sid, topics - 1);
    }
  }

  /** A change of one session's record that leaves its token and its group alone. */
  lemma SessionKeeps(s: State, sid: Sid, x: Session)
    requires Inv(s) && x.tokens <= 1 && (x.closed ==> x.tokens == 0 && x.terminating)
    requires if sid in s.sessions then x.tokens == s.sessions[sid].tokens && x.leaked == s.sessions[sid].leaked &&
                                       x.closed == s.sessions[sid].closed
             else x.tokens == 0 && !x.leaked
    ensures Inv(s.(sessions := s.sessions[sid := x]))
  {
    var s' := s.(sessions := s.sessions[sid := x]);
    assert forall y :: InFlight(s', y) <==> InFlight(s, y);
    if sid !in s.sessions {
      assert !InFlight(s, sid);
    }
  }

  lemma CleanUpKeeps(s: State, sid: Sid, topics: nat)
    requires Inv(s) && sid in s.sessions && s.sessions[sid].terminating && !s.sessions[sid].closed && s.sessions[sid].tokens == 0
    ensures Inv(AddLeaves(s.(sessions := s.sessions[sid := s.sessions[sid].(closed := true)]), sid, topics))
  {
    var s' := s.(sessions := s.sessions[sid := s.sessions[sid].(closed := true)]);
    assert !InFlight(s, sid);
    assert forall y :: InFlight(s', y) <==> InFlight(s, y);
    forall id | id in s.requests ensures Accounted(s', s.requests[id]) {
      assert Accounted(s, s.requests[id]);
    }
    AddLeavesKeeps(s', sid, topics);
  }

  /** Taking the token and giving it back at once changes nothing. */
  lemma TakeThenDone(s: State, sid: Sid)
    requires CanTake(s, sid) && Inv(s)
    ensures Done(Take(s, sid), sid) == s
  {
    var x := s.sessions[sid];
    assert s.sessions[sid := x.(tokens := 1)][sid := x] == s.sessions;
  }

  lemma StepKeepsInv(s: State, step: Step)
    requires Inv(s)
    ensures Inv(Apply(s, step))
  {
    match step
    case Connect(sid) =>
      if sid !in s.sessions {
        SessionKeeps(s, sid, Session(0, false, false, false));
      }
    case Subscribe(sid, _, _) =>
      if CanTake(s, sid) {
        TakeThenDone(s, sid);
        TakeKeeps(s, sid, HubJoin);
      }
    case Leave(sid, _, _) =>
      if CanTake(s, sid) {
        TakeThenDone(s, sid);
        TakeKeeps(s, sid, TopicUnreg);
      }
    case Hub(id, outcome) =>
      if Waits(s, id, HubJoin) {
        LeakKeeps(s, id);
        MoveKeeps(s, id, TopicInit);
        MoveKeeps(s, id, TopicReg);
        FinishKeeps(s, id);
      }
    case Terminate(sid) =>
      if sid in s.sessions {
        SessionKeeps(s, sid, s.sessions[sid].(terminating := true));
      }
    case CleanUp(sid, topics) =>
      if Apply(s, step) != s {
        CleanUpKeeps(s, sid, topics);
      }
    case _ => TopicStepKeepsInv(s, step);
  }

  lemma TopicStepKeepsInv(s: State, step: Step)
    requires Inv(s)
    requires step.InitDone? || step.InitFailed? || step.Requeue? || step.DrainUnreg? || step.Register? || step.Unregister? ||
             step.ProxyUnregister? || step.Forget?
    ensures Inv(Apply(s, step))
  {
    var id := step.id;
    if id in s.requests {
      FinishKeeps(s, id);
      LeakKeeps(s, id);
      if s.requests[id].place != TopicUnreg {
        MoveKeeps(s, id, TopicReg);
        MoveKeeps(s, id, HubJoin);
      }
      if !s.requests[id].init {
        RemoveKeeps(s, id);
      }
    }
  }

  lemma {:induction false} RunKeepsInv(steps: seq<Step>)
    ensures Inv(Run(Empty(), steps))
    decreases |steps|
  {
    if steps != [] {
      RunKeepsInv(steps[..|steps| - 1]);
      StepKeepsInv(Run(Empty(), steps[..|steps| - 1]), steps[|steps| - 1]);
    }
  }

  // ----- whole runs

  /** Over every run and every path through session, hub, topic initialisation, local topic, proxy topic
      and cleanup: no token is given back that was not taken. */
  lemma DoneIsNeverBeforeAdd(steps: seq<Step>)
    ensures !Run(Empty(), steps).panicked
  {
    RunKeepsInv(steps);
  }

  /** Over every run a session has at most one subscribe or leave in flight, and while there is one its
      token is taken and its group not dropped. */
  lemma AtMostOneInFlight(steps: seq<Step>, i: nat, j: nat)
    requires var s := Run(Empty(), steps);
             i in s.requests && j in s.requests && s.requests[i].init && s.requests[j].init &&
             s.requests[i].sid == s.requests[j].sid
    ensures i == j
    ensures var s := Run(Empty(), steps);
            var sid := s.requests[i].sid;
            sid in s.sessions && s.sessions[sid].tokens == 1 && !s.sessions[sid].closed
  {
    RunKeepsInv(steps);
  }

  /** The step drops a request of the session together with its token: at the hub for want of a valid
      tenant, or in the queue of a topic that exits. */
  predicate Drops(s: State, step: Step, sid: Sid) {
    ((step.Hub? && step.outcome == NoTenant && Waits(s, step.id, HubJoin)) ||
     (step.Forget? && (Waits(s, step.id, TopicReg) || Waits(s, step.id, TopicUnreg)))) &&
    s.requests[step.id].init && s.requests[step.id].sid == sid
  }

  ghost predicate WasDropped(steps: seq<Step>, sid: Sid) {
    exists k :: 0 <= k < |steps| && Drops(Run(Empty(), steps[..k]), steps[k], sid)
  }

  lemma {:induction false} AddLeavesSessions(s: State, sid: Sid, topics: nat)
    ensures AddLeaves(s, sid, topics).sessions == s.sessions
    decreases topics
  {
    if topics > 0 {
      AddLeavesSessions(Add(s, Request(sid, false, TopicUnreg)), sid, topics - 1);
    }
  }

  /** No session is forgotten and no token is lost. */
  ghost predicate SameLeaks(s: State, s': State) {
    (forall x :: x in s.sessions ==> x in s'.sessions) &&
    forall x :: x in s'.sessions ==> (s'.sessions[x].leaked <==> x in s.sessions && s.sessions[x].leaked)
  }

  lemma FinishLeaksNothing(s: State, id: nat)
    requires id in s.requests
    ensures SameLeaks(s, Finish(s, id)) && SameLeaks(s, Remove(s, id))
  {
  }

  lemma AskingLeaksNothing(s: State, sid: Sid, place: Place)
    requires CanTake(s, sid)
    ensures SameLeaks(s, Done(Take(s, sid), sid)) && SameLeaks(s, Add(Take(s, sid), Request(sid, true, place)))
  {
  }

  lemma SessionStepsLeakNothing(s: State, step: Step)
    requires step.Connect? || step.Subscribe? || step.Leave? || step.Terminate? || step.CleanUp?
    ensures SameLeaks(s, Apply(s, step))
  {
    match step
    case Subscribe(sid, _, _) =>
      if CanTake(s, sid) {
        AskingLeaksNothing(s, sid, HubJoin);
      }
    case Leave(sid, _, _) =>
      if CanTake(s, sid) {
        AskingLeaksNothing(s, sid, TopicUnreg);
      }
    case CleanUp(x, topics) =>
      if x in s.sessions {
        AddLeavesSessions(s.(sessions := s.sessions[x := s.sessions[x].(closed := true)]), x, topics);
      }
    case _ =>
  }

  /** A token is lost exactly when its request is dropped. */
  lemma LeakedStep(s: State, step: Step, sid: Sid)
    requires Inv(s)
    ensures sid in s.sessions ==> sid in Apply(s, step).sessions
    ensures sid in Apply(s, step).sessions ==>
            (Apply(s, step).sessions[sid].leaked <==> (sid in s.sessions && s.sessions[sid].leaked) || Drops(s, step, sid))
  {
    if step.Connect? || step.Subscribe? || step.Leave? || step.Terminate? || step.CleanUp? {
      SessionStepsLeakNothing(s, step);
    } else if step.id in s.requests {
      assert Accounted(s, s.requests[step.id]);
      FinishLeaksNothing(s, step.id);
    }
  }

  lemma WasDroppedGrows(steps: seq<Step>, sid: Sid)
    requires steps != []
    ensures var before := steps[..|steps| - 1];
            WasDropped(steps, sid) <==> WasDropped(before, sid) || Drops(Run(Empty(), before), steps[|steps| - 1], sid)
  {
    var before := steps[..|steps| - 1];
    forall k | 0 <= k < |before| ensures before[..k] == steps[..k] && before[k] == steps[k] {
    }
    if WasDropped(before, sid) {
      var k :| 0 <= k < |before| && Drops(Run(Empty(), before[..k]), before[k], sid);
      assert Drops(Run(Empty(), steps[..k]), steps[k], sid);
    }
    if WasDropped(steps, sid) {
      var k :| 0 <= k < |steps| && Drops(Run(Empty(), steps[..k]), steps[k], sid);
      if k < |before| {
        assert Drops(Run(Empty(), before[..k]), before[k], sid);
      }
    }
  }

  lemma {:induction false} LeakedIffDropped(steps: seq<Step>, sid: Sid)
    ensures sid in Run(Empty(), steps).sessions ==> (Run(Empty(), steps).sessions[sid].leaked <==> WasDropped(steps, sid))
    ensures WasDropped(steps, sid) ==> sid in Run(Empty(), steps).sessions
    decreases |steps|
  {
    if steps != [] {
      var before, step := steps[..|steps| - 1], steps[|steps| - 1];
      var s := Run(Empty(), before);
      LeakedIffDropped(before, sid);
      RunKeepsInv(before);
      LeakedStep(s, step, sid);
      WasDroppedGrows(steps, sid);
      assert Drops(s, step, sid) ==> Accounted(s, s.requests[step.id]);
    }
  }

  /** Over every run the token of a session is taken exactly while a request of it is in flight or after
      one was dropped. */
  lemma TokenTakenIffInFlightOrDropped(steps: seq<Step>, sid: Sid)
    requires sid in Run(Empty(), steps).sessions
    ensures var s := Run(Empty(), steps);
            s.sessions[sid].tokens == (if InFlight(s, sid) || WasDropped(steps, sid) then 1 else 0)
  {
    RunKeepsInv(steps);
    LeakedIffDropped(steps, sid);
  }

  lemma {:induction false} DroppedStaysDropped(steps: seq<Step>, n: nat, sid: Sid)
    requires n <= |steps| && WasDropped(steps[..n], sid)
    ensures WasDropped(steps, sid)
  {
    var k :| 0 <= k < n && Drops(Run(Empty(), steps[..n][..k]), steps[..n][k], sid);
    assert steps[..n][..k] == steps[..k];
  }

  /** Once a request was dropped the session can never again subscribe or leave, and never finish its
      cleanup: in every later state its token is taken. */
  lemma DroppedTokenIsKeptForGood(steps: seq<Step>, n: nat, sid: Sid)
    requires n <= |steps| && WasDropped(steps[..n], sid)
    ensures var s := Run(Empty(), steps);
            sid in s.sessions && s.sessions[sid].tokens == 1 && !CanTake(s, sid) && !s.sessions[sid].closed
  {
    DroppedStaysDropped(steps, n, sid);
    LeakedIffDropped(steps, sid);
    RunKeepsInv(steps);
  }

  /** It happens: a session asks to leave a topic which exits before it has read the request. */
  lemma LeaveOfExitingTopicIsDropped()
    ensures WasDropped([Connect("a"), Leave("a", true, false), Forget(0)], "a")
  {
    var steps := [Connect("a"), Leave("a", true, false), Forget(0)];
    assert steps[..1] == [Connect("a")] && steps[..2] == [Connect("a"), Leave("a", true, false)];
    assert steps[..2][..1] == steps[..1] && steps[..1][..0] == [];
    assert Run(Empty(), steps[..1][..0]) == Empty();
    var s1 := Run(Empty(), steps[..1]);
    assert s1 == Apply(Empty(), steps[0]) && CanTake(s1, "a");
    var s2 := Run(Empty(), steps[..2]);
    assert s2 == Apply(s1, steps[1]) && Waits(s2, 0, TopicUnreg);
    assert Drops(s2, steps[2], "a");
  }

  // ----- where a request goes

  /** A session that asks while its token is free has the request under way, unless it is answered at
      once; a session whose token is taken waits. */
  lemma AskIff(s: State, step: Step)
    requires Inv(s) && (step.Subscribe? || step.Leave?)
    ensures var sent := CanTake(s, step.sid) && (if step.Subscribe? then !step.attached && !step.queueFull else step.attached && !step.denied);
            var t := Apply(s, step);
            if sent then t.requests == s.requests[s.next := Request(step.sid, true, if step.Subscribe? then HubJoin else TopicUnreg)] &&
                         t.sessions[step.sid].tokens == 1
            else t == s
  {
    if CanTake(s, step.sid) {
      TakeThenDone(s, step.sid);
    }
  }

  /** The step that finishes the request at the place where it is. */
  predicate Finishes(s: State, step: Step, id: nat)
    requires id in s.requests
  {
    match s.requests[id].place
    case HubJoin => step in {Hub(id, Inactive), Hub(id, QueueFull)}
    case TopicInit => step == InitFailed(id)
    case TopicReg => step == Register(id)
    case TopicUnreg => step in {Unregister(id), ProxyUnregister(id, true), ProxyUnregister(id, false), DrainUnreg(id)}
  }

  /** Whoever finishes a request gives the token back: the session may ask again. */
  lemma FinishedRequestFreesToken(s: State, step: Step, id: nat)
    requires Inv(s) && id in s.requests && s.requests[id].init && Finishes(s, step, id)
    ensures var t, sid := Apply(s, step), s.requests[id].sid;
            id !in t.requests && sid in t.sessions && t.sessions[sid].tokens == 0 && !InFlight(t, sid) &&
            (!t.sessions[sid].terminating ==> CanTake(t, sid))
  {
    assert Accounted(s, s.requests[id]);
    var t := Apply(s, step);
    assert t == Finish(s, id);
    RemoveOwn(s, id);
  }

  /** The hub, and an initialised or failed topic, pass a request on with its token. */
  lemma PassedOnRequestKeepsToken(s: State, step: Step, id: nat)
    requires Inv(s) && id in s.requests
    requires match s.requests[id].place
             case HubJoin => step in {Hub(id, NewTopic), Hub(id, Forwarded)}
             case TopicInit => step == InitDone(id)
             case TopicReg => step == Requeue(id)
             case TopicUnreg => false
    ensures var t := Apply(s, step);
            t.sessions == s.sessions && id in t.requests && t.requests[id].init && t.requests[id].sid == s.requests[id].sid &&
            t.requests[id].place == if step in {Hub(id, NewTopic)} then TopicInit else if step.Requeue? then HubJoin else TopicReg
  {
    assert Accounted(s, s.requests[id]);
  }

  /** A session drops its group exactly when it terminates with no token taken; it then leaves all its
      topics without a token. */
  lemma CleanUpIff(s: State, sid: Sid, topics: nat)
    requires Inv(s) && sid in s.sessions && !s.sessions[sid].closed
    ensures var t := Apply(s, CleanUp(sid, topics));
            sid in t.sessions && (t.sessions[sid].closed <==> s.sessions[sid].terminating && s.sessions[sid].tokens == 0) &&
            (t.sessions[sid].closed ==>
               t.next == s.next + topics &&
               forall id :: s.next <= id < s.next + topics ==> id in t.requests && t.requests[id] == Request(sid, false, TopicUnreg))
  {
    var c := s.(sessions := s.sessions[sid := s.sessions[sid].(closed := true)]);
    AddLeavesSessions(c, sid, topics);
    AddLeavesAdds(c, sid, topics);
  }

  lemma {:induction false} AddLeavesAdds(s: State, sid: Sid, topics: nat)
    ensures var t := AddLeaves(s, sid, topics);
            t.next == s.next + topics &&
            (forall id :: s.next <= id < t.next ==> id in t.requests && t.requests[id] == Request(sid, false, TopicUnreg)) &&
            forall id :: id in s.requests && id < s.next ==> id in t.requests && t.requests[id] == s.requests[id]
    decreases topics
  {
    if topics > 0 {
      AddLeavesAdds(Add(s, Request(sid, false, TopicUnreg)), sid, topics - 1);
    }
  }

  /** The whole way of a subscription to a topic that has to be loaded: at its end the session is as it
      was before. */
  lemma SubscribeRoundTrip(s: State, sid: Sid)
    requires Inv(s) && CanTake(s, sid)
    ensures var id := s.next;
            var asked := Apply(s, Subscribe(sid, false, false));
            var done := Apply(Apply(Apply(asked, Hub(id, NewTopic)), InitDone(id)), Register(id));
            InFlight(asked, sid) && !CanTake(asked, sid) && done.sessions == s.sessions && CanTake(done, sid) && !InFlight(done, sid)
  {
    var id := s.next;
    var asked := Apply(s, Subscribe(sid, false, false));
    AskIff(s, Subscribe(sid, false, false));
    assert asked.requests[id] == Request(sid, true, HubJoin);
    StepKeepsInv(s, Subscribe(sid, false, false));
    var loading := Apply(asked, Hub(id, NewTopic));
    PassedOnRequestKeepsToken(asked, Hub(id, NewTopic), id);
    StepKeepsInv(asked, Hub(id, NewTopic));
    var loaded := Apply(loading, InitDone(id));
    PassedOnRequestKeepsToken(loading, InitDone(id), id);
    StepKeepsInv(loading, InitDone(id));
    FinishedRequestFreesToken(loaded, Register(id), id);
    var x := s.sessions[sid];
    assert s.sessions[sid := x.(tokens := 1)][sid := x] == s.sessions;
    assert Apply(loaded, Register(id)).sessions == loaded.sessions[sid := x];
  }
}

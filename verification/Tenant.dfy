/** Tenant separation: how sessions, the hub, topics and messages between them carry tenants. */
module Tenant {
  import opened AccessMode

  type Sid = string
  type TenantId = int

  const NONE: TenantId := 0
  const MIN_SUPPORTED_VERSION: nat := 20 * 256
  const MAX_TENANT_CODE: nat := 64

  /** `queue` holds the tenants of the messages put on the session's queue, `bound` how many there were
      before the session got its tenant. */
  datatype Session = Session(ver: nat, tenant: TenantId, code: string, terminating: bool, queue: seq<TenantId>, bound: nat)

  function NewSession(): Session {
    Session(0, NONE, "", false, [], 0)
  }

  datatype Record = Record(id: TenantId, code: string, active: bool)

  /** The first message of a client: the version if it is given, the trimmed code of the tenant and what
      the tenant store finds for it. */
  datatype Hello = Hello(version: Option<nat>, code: string, found: Option<Record>)

  /** A message of another tenant is rejected. A session without one accepts any. */
  predicate Rejects(s: Session, tenant: TenantId) {
    !s.terminating && tenant != NONE && s.tenant != NONE && tenant != s.tenant
  }

  /** A message without a tenant gets the one of the session. Nothing is added to a full queue. */
  function QueueOut(s: Session, tenant: TenantId, full: bool): Session {
    if s.terminating || Rejects(s, tenant) || full then s
    else s.(queue := s.queue + [if tenant == NONE then s.tenant else tenant])
  }

  predicate Binds(s: Session, h: Hello) {
    s.ver == 0 && h.version.Some? && h.version.value != 0 && h.version.value / 256 >= MIN_SUPPORTED_VERSION / 256 &&
    0 < |h.code| <= MAX_TENANT_CODE && h.found.Some? && h.found.value.id != NONE && h.found.value.active
  }

  /** {hi}: binds the tenant if everything is right; any outcome is reported to the client. */
  function Hi(s: Session, h: Hello, full: bool): Session {
    if Binds(s, h) then
      QueueOut(s.(ver := h.version.value, tenant := h.found.value.id, code := h.found.value.code, bound := |s.queue|), NONE, full)
    else QueueOut(s, NONE, full)
  }

  datatype Key = Key(tenant: TenantId, name: string) {
    predicate Valid() {
      tenant > NONE && name != ""
    }
  }

  datatype Topic = Topic(tenant: TenantId, name: string, attached: set<Sid>)

  /** A request to join, at the hub or at a topic. Once at a topic it stands for the link it may give to
      the session, so it can attach the session and publish on its behalf at any later time. */
  datatype JoinRequest = JoinRequest(sid: Sid, key: Key, topic: Option<nat>)

  /** A client or server message waiting in the queue of a topic. */
  datatype Message = Message(topic: nat, tenant: TenantId)

  /** Topics are numbered in the order of creation. A topic that is no longer in the hub may live on.
      `rejected` tells that some check for messages of another tenant struck. */
  datatype State = State(sessions: map<Sid, Session>, hub: map<Key, nat>, topics: seq<Topic>,
                         joins: seq<JoinRequest>, messages: seq<Message>, rejected: bool)

  datatype Step =
    | Connect(sid: Sid)
    | Greet(sid: Sid, hello: Hello, full: bool)
    | Reply(sid: Sid, full: bool)
    | Subscribe(sid: Sid, name: string, authenticated: bool)
    | HubJoin(j: nat)
    | Attach(j: nat)
    | Detach(topic: nat, sid: Sid)
    | Publish(j: nat)
    | RouteClient(sid: Sid, name: string)
    | RouteServer(topic: nat, name: string)
    | Handle(m: nat, to: set<Sid>, stuck: set<Sid>)
    | RemoveTopic(key: Key)
    | Terminate(sid: Sid)

  function Empty(): State {
    State(map[], map[], [], [], [], false)
  }

  function SetSession(s: State, sid: Sid, x: Session): State {
    s.(sessions := s.sessions[sid := x])
  }

  /** The guards of a request: version, tenant and, for most, user. */
  predicate MayAsk(s: State, sid: Sid, authenticated: bool) {
    sid in s.sessions && !s.sessions[sid].terminating && s.sessions[sid].ver != 0 && s.sessions[sid].tenant != NONE && authenticated
  }

  function PassTo(s: State, j: nat, topic: nat): State
    requires j < |s.joins|
  {
    s.(joins := s.joins[j := s.joins[j].(topic := Some(topic))])
  }

  /** The hub finds the topic or creates it under the key of the request. */
  function OnHubJoin(s: State, j: nat): State
    requires j < |s.joins|
  {
    var key := s.joins[j].key;
    if !key.Valid() || s.joins[j].topic.Some? then s
    else if key in s.hub then PassTo(s, j, s.hub[key])
    else
      PassTo(s, j, |s.topics|).(hub := s.hub[key := |s.topics|], topics := s.topics + [Topic(key.tenant, key.name, {})])
  }

  function Route(s: State, key: Key, tenant: TenantId): State {
    if key.Valid() && key in s.hub then s.(messages := s.messages + [Message(s.hub[key], tenant)]) else s
  }

  /** A topic stamps the message with its tenant and puts it on the queues of some attached sessions. */
  function Broadcast(s: State, t: Topic, to: set<Sid>, stuck: set<Sid>): State {
    s.(sessions := map x | x in s.sessions ::
         if x in t.attached && x in to then QueueOut(s.sessions[x], t.tenant, x in stuck) else s.sessions[x],
       rejected := s.rejected || exists x :: x in t.attached && x in s.sessions && x in to && Rejects(s.sessions[x], t.tenant))
  }

  function OnHandle(s: State, m: nat, to: set<Sid>, stuck: set<Sid>): State
    requires m < |s.messages| && s.messages[m].topic < |s.topics|
  {
    var t := s.topics[s.messages[m].topic];
    var tenant := s.messages[m].tenant;
    if tenant != NONE && tenant != t.tenant then s.(rejected := true) else Broadcast(s, t, to, stuck)
  }

  function Apply(s: State, step: Step): State {
    match step
    case Connect(sid) => if sid in s.sessions then s else SetSession(s, sid, NewSession())
    case Greet(sid, h, full) =>
      if sid in s.sessions && !s.sessions[sid].terminating then SetSession(s, sid, Hi(s.sessions[sid], h, full)) else s
    case Reply(sid, full) => if sid in s.sessions then SetSession(s, sid, QueueOut(s.sessions[sid], NONE, full)) else s
    case Terminate(sid) => if sid in s.sessions then SetSession(s, sid, s.sessions[sid].(terminating := true)) else s
    case Subscribe(sid, name, authenticated) =>
      if !MayAsk(s, sid, authenticated) then s
      else s.(joins := s.joins + [JoinRequest(sid, Key(s.sessions[sid].tenant, name), None)])
    case HubJoin(j) => if j < |s.joins| then OnHubJoin(s, j) else s
    case Attach(j) =>
      if j < |s.joins| && s.joins[j].topic.Some? && s.joins[j].topic.value < |s.topics| then
        var k := s.joins[j].topic.value;
        s.(topics := s.topics[k := s.topics[k].(attached := s.topics[k].attached + {s.joins[j].sid})])
      else s
    case Detach(k, sid) =>
      if k < |s.topics| then s.(topics := s.topics[k := s.topics[k].(attached := s.topics[k].attached - {sid})]) else s
    case Publish(j) =>
      if j < |s.joins| && s.joins[j].topic.Some? && MayAsk(s, s.joins[j].sid, true) then
        s.(messages := s.messages + [Message(s.joins[j].topic.value, s.sessions[s.joins[j].sid].tenant)])
      else s
    case RouteClient(sid, name) =>
      if MayAsk(s, sid, true) then Route(s, Key(s.sessions[sid].tenant, name), s.sessions[sid].tenant) else s
    case RouteServer(k, name) =>
      if k < |s.topics| then Route(s, Key(s.topics[k].tenant, name), s.topics[k].tenant) else s
    case Handle(m, to, stuck) =>
      if m < |s.messages| && s.messages[m].topic < |s.topics| then OnHandle(s, m, to, stuck) else s
    case RemoveTopic(key) => s.(hub := map x | x in s.hub && x != key :: s.hub[x])
  }

  function Run(steps: seq<Step>): State {
    if steps == [] then Empty() else Apply(Run(steps[..|steps| - 1]), steps[|steps| - 1])
  }

  // ----- what every step keeps

  /** Without a tenant while {hi} has not succeeded; queued messages carry the session's tenant, those
      queued before it had one carry none. */
  predicate SessionOK(x: Session) {
    (x.ver == 0 <==> x.tenant == NONE) && x.bound <= |x.queue| &&
    forall k :: 0 <= k < |x.queue| ==> x.queue[k] == if x.tenant != NONE && k >= x.bound then x.tenant else NONE
  }

  ghost predicate SessionsOK(s: State) {
    forall x :: x in s.sessions ==> SessionOK(s.sessions[x])
  }

  /** A key of the hub is the tenant and name of its topic. */
  ghost predicate HubOK(s: State) {
    forall key :: key in s.hub ==>
      key.Valid() && s.hub[key] < |s.topics| && s.topics[s.hub[key]].tenant == key.tenant && s.topics[s.hub[key]].name == key.name
  }

  ghost predicate HasTenant(s: State, sid: Sid, tenant: TenantId) {
    tenant != NONE && sid in s.sessions && s.sessions[sid].tenant == tenant
  }

  /** A session attached to a topic is of the topic's tenant. */
  ghost predicate AttachedOK(s: State) {
    forall k, x :: 0 <= k < |s.topics| && x in s.topics[k].attached ==> HasTenant(s, x, s.topics[k].tenant)
  }

  ghost predicate JoinOK(s: State, join: JoinRequest) {
    HasTenant(s, join.sid, join.key.tenant) &&
    (join.topic.Some? ==> join.topic.value < |s.topics| && s.topics[join.topic.value].tenant == join.key.tenant)
  }

  ghost predicate JoinsOK(s: State) {
    forall j :: 0 <= j < |s.joins| ==> JoinOK(s, s.joins[j])
  }

  ghost predicate MessagesOK(s: State) {
    forall m :: 0 <= m < |s.messages| ==>
      s.messages[m].topic < |s.topics| && s.topics[s.messages[m].topic].tenant == s.messages[m].tenant
  }

  ghost predicate Inv(s: State) {
    SessionsOK(s) && HubOK(s) && AttachedOK(s) && JoinsOK(s) && MessagesOK(s) && !s.rejected
  }

  /** Sessions are not forgotten and keep their tenants. */
  ghost predicate TenantsStay(s: State, s': State) {
    forall x :: x in s.sessions ==>
      x in s'.sessions && (s.sessions[x].tenant != NONE ==> s'.sessions[x].tenant == s.sessions[x].tenant)
  }

  /** Topics are not forgotten and keep tenants and names. */
  ghost predicate TopicsStay(s: State, s': State) {
    |s.topics| <= |s'.topics| &&
    forall k :: 0 <= k < |s.topics| ==> s'.topics[k].tenant == s.topics[k].tenant && s'.topics[k].name == s.topics[k].name
  }

  lemma QueueOutKeeps(x: Session, tenant: TenantId, full: bool)
    requires SessionOK(x) && tenant in {NONE, x.tenant}
    ensures SessionOK(QueueOut(x, tenant, full)) && !Rejects(x, tenant)
  {
  }

  lemma HiKeeps(x: Session, h: Hello, full: bool)
    requires SessionOK(x)
    ensures SessionOK(Hi(x, h, full)) && (x.tenant != NONE ==> Hi(x, h, full).tenant == x.tenant)
  {
    if Binds(x, h) {
      QueueOutKeeps(x.(ver := h.version.value, tenant := h.found.value.id, code := h.found.value.code, bound := |x.queue|), NONE, full);
    } else {
      QueueOutKeeps(x, NONE, full);
    }
  }

  /** One session changes and keeps its tenant. */
  lemma SetSessionKeeps(s: State, sid: Sid, x: Session)
    requires Inv(s) && SessionOK(x)
    requires sid in s.sessions && s.sessions[sid].tenant != NONE ==> x.tenant == s.sessions[sid].tenant
    ensures Inv(SetSession(s, sid, x)) && TenantsStay(s, SetSession(s, sid, x))
  {
    var s' := SetSession(s, sid, x);
    assert forall y, t :: HasTenant(s, y, t) ==> HasTenant(s', y, t);
    assert forall j :: 0 <= j < |s.joins| && JoinOK(s, s.joins[j]) ==> JoinOK(s', s'.joins[j]);
  }

  lemma BroadcastKeeps(s: State, k: nat, to: set<Sid>, stuck: set<Sid>)
    requires Inv(s) && k < |s.topics|
    ensures Inv(Broadcast(s, s.topics[k], to, stuck)) && TenantsStay(s, Broadcast(s, s.topics[k], to, stuck))
  {
    var t := s.topics[k];
    var s' := Broadcast(s, t, to, stuck);
    forall x | x in s.sessions
      ensures SessionOK(s'.sessions[x]) && s'.sessions[x].tenant == s.sessions[x].tenant
      ensures x in t.attached ==> !Rejects(s.sessions[x], t.tenant)
    {
      if x in t.attached {
        assert HasTenant(s, x, t.tenant);
        QueueOutKeeps(s.sessions[x], t.tenant, x in stuck);
      }
    }
    assert forall y, u :: HasTenant(s, y, u) ==> HasTenant(s', y, u);
    assert forall j :: 0 <= j < |s.joins| && JoinOK(s, s.joins[j]) ==> JoinOK(s', s'.joins[j]);
  }

  /** A request is passed to a topic of its tenant. */
  lemma PassToKeeps(s: State, j: nat, k: nat)
    requires Inv(s) && j < |s.joins| && k < |s.topics| && s.topics[k].tenant == s.joins[j].key.tenant
    ensures Inv(PassTo(s, j, k))
  {
    var s' := PassTo(s, j, k);
    assert forall y, u :: HasTenant(s, y, u) <==> HasTenant(s', y, u);
    forall i | 0 <= i < |s'.joins| ensures JoinOK(s', s'.joins[i]) {
      assert JoinOK(s, s.joins[i]);
    }
  }

  function NewTopic(s: State, key: Key): State {
    s.(hub := s.hub[key := |s.topics|], topics := s.topics + [Topic(key.tenant, key.name, {})])
  }

  lemma NewTopicKeeps(s: State, key: Key)
    requires Inv(s) && key.Valid()
    ensures Inv(NewTopic(s, key)) && TopicsStay(s, NewTopic(s, key))
  {
    var s' := NewTopic(s, key);
    assert forall y, u :: HasTenant(s, y, u) <==> HasTenant(s', y, u);
    forall i | 0 <= i < |s'.joins| ensures JoinOK(s', s'.joins[i]) {
      assert JoinOK(s, s.joins[i]);
    }
  }

  lemma HubJoinKeeps(s: State, j: nat)
    requires Inv(s) && j < |s.joins|
    ensures Inv(OnHubJoin(s, j)) && TopicsStay(s, OnHubJoin(s, j))
  {
    var key := s.joins[j].key;
    if key.Valid() && s.joins[j].topic.None? {
      if key in s.hub {
        PassToKeeps(s, j, s.hub[key]);
      } else {
        NewTopicKeeps(s, key);
        PassToKeeps(NewTopic(s, key), j, |s.topics|);
        assert OnHubJoin(s, j) == PassTo(NewTopic(s, key), j, |s.topics|);
      }
    }
  }

  /** A topic gains or loses sessions; who is gained is of its tenant. */
  lemma AttachedKeeps(s: State, k: nat, attached: set<Sid>)
    requires Inv(s) && k < |s.topics|
    requires forall x :: x in attached ==> HasTenant(s, x, s.topics[k].tenant)
    ensures Inv(s.(topics := s.topics[k := s.topics[k].(attached := attached)]))
  {
    var s' := s.(topics := s.topics[k := s.topics[k].(attached := attached)]);
    assert forall y, u :: HasTenant(s, y, u) <==> HasTenant(s', y, u);
    assert forall i :: 0 <= i < |s.joins| && JoinOK(s, s.joins[i]) ==> JoinOK(s', s'.joins[i]);
  }

  lemma SendKeeps(s: State, m: Message)
    requires Inv(s) && m.topic < |s.topics| && s.topics[m.topic].tenant == m.tenant
    ensures Inv(s.(messages := s.messages + [m]))
  {
    var s' := s.(messages := s.messages + [m]);
    assert forall y, u :: HasTenant(s, y, u) <==> HasTenant(s', y, u);
    assert forall i :: 0 <= i < |s.joins| && JoinOK(s, s.joins[i]) ==> JoinOK(s', s'.joins[i]);
  }

  lemma AskKeeps(s: State, sid: Sid, name: string)
    requires Inv(s) && MayAsk(s, sid, true)
    ensures Inv(Apply(s, Subscribe(sid, name, true)))
  {
    var s' := Apply(s, Subscribe(sid, name, true));
    assert forall y, u :: HasTenant(s, y, u) <==> HasTenant(s', y, u);
    assert forall i :: 0 <= i < |s.joins| && JoinOK(s, s.joins[i]) ==> JoinOK(s', s'.joins[i]);
  }

  lemma RemoveTopicKeeps(s: State, key: Key)
    requires Inv(s)
    ensures Inv(Apply(s, RemoveTopic(key)))
  {
    var s' := Apply(s, RemoveTopic(key));
    assert forall y, u :: HasTenant(s, y, u) <==> HasTenant(s', y, u);
    assert forall i :: 0 <= i < |s.joins| && JoinOK(s, s.joins[i]) ==> JoinOK(s', s'.joins[i]);
  }

  lemma SessionStepKeeps(s: State, step: Step)
    requires Inv(s) && (step.Connect? || step.Greet? || step.Reply? || step.Terminate?)
    ensures Inv(Apply(s, step)) && TenantsStay(s, Apply(s, step))
  {
    var sid := step.sid;
    if step.Connect? {
      if sid !in s.sessions {
        SetSessionKeeps(s, sid, NewSession());
      }
    } else if sid in s.sessions {
      var x := s.sessions[sid];
      assert SessionOK(x);
      match step
      case Greet(_, h, full) =>
        HiKeeps(x, h, full);
        SetSessionKeeps(s, sid, Hi(x, h, full));
      case Reply(_, full) =>
        QueueOutKeeps(x, NONE, full);
        SetSessionKeeps(s, sid, QueueOut(x, NONE, full));
      case Terminate(_) =>
        SetSessionKeeps(s, sid, x.(terminating := true));
    }
  }

  lemma TopicStepKeeps(s: State, step: Step)
    requires Inv(s) && !(step.Connect? || step.Greet? || step.Reply? || step.Terminate?)
    ensures Inv(Apply(s, step)) && TenantsStay(s, Apply(s, step))
  {
    match step
    case Subscribe(sid, name, authenticated) =>
      if MayAsk(s, sid, authenticated) {
        AskKeeps(s, sid, name);
      }
    case HubJoin(j) =>
      if j < |s.joins| {
        HubJoinKeeps(s, j);
      }
    case Attach(j) =>
      if j < |s.joins| && s.joins[j].topic.Some? {
        assert JoinOK(s, s.joins[j]);
        var k := s.joins[j].topic.value;
        AttachedKeeps(s, k, s.topics[k].attached + {s.joins[j].sid});
      }
    case Detach(k, sid) =>
      if k < |s.topics| {
        AttachedKeeps(s, k, s.topics[k].attached - {sid});
      }
    case Publish(j) =>
      if Apply(s, step) != s {
        assert JoinOK(s, s.joins[j]);
        SendKeeps(s, Message(s.joins[j].topic.value, s.sessions[s.joins[j].sid].tenant));
      }
    case RouteClient(sid, name) =>
      if Apply(s, step) != s {
        SendKeeps(s, Message(s.hub[Key(s.sessions[sid].tenant, name)], s.sessions[sid].tenant));
      }
    case RouteServer(k, name) =>
      if Apply(s, step) != s {
        SendKeeps(s, Message(s.hub[Key(s.topics[k].tenant, name)], s.topics[k].tenant));
      }
    case Handle(m, to, stuck) =>
      if m < |s.messages| && s.messages[m].topic < |s.topics| {
        BroadcastKeeps(s, s.messages[m].topic, to, stuck);
      }
    case RemoveTopic(key) => RemoveTopicKeeps(s, key);
  }

  lemma StepKeeps(s: State, step: Step)
    requires Inv(s)
    ensures Inv(Apply(s, step)) && TenantsStay(s, Apply(s, step))
  {
    if step.Connect? || step.Greet? || step.Reply? || step.Terminate? {
      SessionStepKeeps(s, step);
    } else {
      TopicStepKeeps(s, step);
    }
  }

  lemma {:induction false} RunKeeps(steps: seq<Step>)
    ensures Inv(Run(steps))
    decreases |steps|
  {
    if steps != [] {
      RunKeeps(steps[..|steps| - 1]);
      StepKeeps(Run(steps[..|steps| - 1]), steps[|steps| - 1]);
    }
  }

  // ----- whole runs

  /** Over every run: a tenant that a session has once it has for good. */
  lemma {:induction false} TenantIsBoundOnce(steps: seq<Step>, n: nat, sid: Sid)
    requires n <= |steps| && sid in Run(steps[..n]).sessions && Run(steps[..n]).sessions[sid].tenant != NONE
    ensures sid in Run(steps).sessions && Run(steps).sessions[sid].tenant == Run(steps[..n]).sessions[sid].tenant
    decreases |steps|
  {
    if n < |steps| {
      var before := steps[..|steps| - 1];
      assert before[..n] == steps[..n];
      TenantIsBoundOnce(before, n, sid);
      RunKeeps(before);
      StepKeeps(Run(before), steps[|steps| - 1]);
    } else {
      assert steps[..n] == steps;
    }
  }

  /** Over every run: keys of the hub match their topics and attached sessions their topic's tenant. */
  lemma TopicsKeepTenantsApart(steps: seq<Step>)
    ensures HubOK(Run(steps)) && AttachedOK(Run(steps))
  {
    RunKeeps(steps);
  }

  /** Over every run: every message on a session's queue carries the session's tenant or, if it was put
      there before {hi}, none. The checks for messages of another tenant never have to strike. */
  lemma MessagesStayWithTheTenant(steps: seq<Step>, sid: Sid)
    requires sid in Run(steps).sessions
    ensures SessionOK(Run(steps).sessions[sid]) && !Run(steps).rejected
  {
    RunKeeps(steps);
  }

  // ----- what the steps achieve

  /** A message is queued unless the session terminates, the queue is full or the message is of another
      tenant than the session; it carries its tenant or, if it has none, the session's. */
  lemma QueueOutEffect(x: Session, tenant: TenantId, full: bool)
    ensures var y := QueueOut(x, tenant, full);
            if !x.terminating && !full && (tenant == NONE || x.tenant == NONE || tenant == x.tenant)
            then y == x.(queue := y.queue) && |y.queue| == |x.queue| + 1 && y.queue[..|x.queue|] == x.queue &&
                 y.queue[|x.queue|] == (if tenant != NONE then tenant else x.tenant)
            else y == x
  {
  }

  /** {hi} binds a session that is not bound exactly if its version is supported and the tenant is named,
      known and active. It is then answered under the new tenant. */
  lemma HiEffect(x: Session, h: Hello, full: bool)
    ensures var y := Hi(x, h, full);
            if x.ver == 0 && h.version.Some? && h.version.value >= MIN_SUPPORTED_VERSION && 0 < |h.code| <= MAX_TENANT_CODE &&
               h.found.Some? && h.found.value.active && h.found.value.id != NONE
            then y.ver == h.version.value && y.tenant == h.found.value.id && y.code == h.found.value.code &&
                 (!x.terminating && !full ==> y.queue == x.queue + [h.found.value.id])
            else y == x.(queue := y.queue) && (!x.terminating && !full ==> y.queue == x.queue + [x.tenant])
  {
  }

  /** A request to join is sent under the session's tenant exactly if the session may ask. */
  lemma SubscribeEffect(s: State, sid: Sid, name: string, authenticated: bool)
    ensures var t := Apply(s, Subscribe(sid, name, authenticated));
            if sid in s.sessions && !s.sessions[sid].terminating && s.sessions[sid].ver != 0 && s.sessions[sid].tenant != NONE && authenticated
            then t == s.(joins := t.joins) && |t.joins| == |s.joins| + 1 && t.joins[..|s.joins|] == s.joins &&
                 t.joins[|s.joins|] == JoinRequest(sid, Key(s.sessions[sid].tenant, name), None)
            else t == s
  {
  }

  /** The hub sends a request with a valid key to the one topic of the key, which it creates if there is
      none. */
  lemma HubJoinEffect(s: State, j: nat)
    requires Inv(s) && j < |s.joins| && s.joins[j].topic.None? && s.joins[j].key.Valid()
    ensures var t, key := Apply(s, HubJoin(j)), s.joins[j].key;
            key in t.hub && |t.joins| == |s.joins| && t.joins[j] == s.joins[j].(topic := Some(t.hub[key])) &&
            (if key in s.hub then t.hub == s.hub && t.topics == s.topics
             else |t.topics| == |s.topics| + 1 && t.hub[key] == |s.topics| && t.topics[|s.topics|] == Topic(key.tenant, key.name, {})) &&
            forall x :: x in s.hub ==> x in t.hub && t.hub[x] == s.hub[x]
  {
  }

  /** Two requests for the same name of the same tenant meet in one topic. */
  lemma SameKeySameTopic(s: State, i: nat, j: nat)
    requires Inv(s) && i < |s.joins| && j < |s.joins| && i != j && s.joins[i].key == s.joins[j].key && s.joins[i].key.Valid()
    requires s.joins[i].topic.None? && s.joins[j].topic.None?
    ensures var t := Apply(Apply(s, HubJoin(i)), HubJoin(j));
            t.joins[i].topic.Some? && t.joins[i].topic == t.joins[j].topic
  {
    var t := Apply(s, HubJoin(i));
    HubJoinEffect(s, i);
    HubJoinKeeps(s, i);
    assert t.joins[j] == s.joins[j];
    HubJoinEffect(t, j);
  }

  /** Two requests of different tenants never do, whatever the names. */
  lemma OtherTenantOtherTopic(steps: seq<Step>, i: nat, j: nat)
    requires var s := Run(steps);
             i < |s.joins| && j < |s.joins| && s.joins[i].topic.Some? && s.joins[j].topic.Some? &&
             s.joins[i].key.tenant != s.joins[j].key.tenant
    ensures Run(steps).joins[i].topic != Run(steps).joins[j].topic
  {
    RunKeeps(steps);
    assert JoinOK(Run(steps), Run(steps).joins[i]) && JoinOK(Run(steps), Run(steps).joins[j]);
  }

  /** A message handled by a topic is put on the queue of exactly those of its sessions it is meant for
      which have room and are not terminating, under their tenant. */
  lemma HandleEffect(s: State, m: nat, to: set<Sid>, stuck: set<Sid>, x: Sid)
    requires Inv(s) && m < |s.messages| && x in s.sessions
    ensures var t, a := Apply(s, Handle(m, to, stuck)), s.sessions[x];
            x in t.sessions &&
            t.sessions[x] == if x in s.topics[s.messages[m].topic].attached && x in to && x !in stuck && !a.terminating
                             then a.(queue := a.queue + [a.tenant]) else a
  {
    var topic := s.topics[s.messages[m].topic];
    if x in topic.attached {
      assert HasTenant(s, x, topic.tenant);
    }
  }

  /** A session whose request has reached a topic is attached to it, and hears what is published there,
      itself included. */
  lemma AttachedHears(s: State, j: nat)
    requires Inv(s) && j < |s.joins| && s.joins[j].topic.Some? && MayAsk(s, s.joins[j].sid, true)
    ensures var sid := s.joins[j].sid;
            var t := Apply(Apply(Apply(s, Attach(j)), Publish(j)), Handle(|s.messages|, {sid}, {}));
            sid in t.topics[s.joins[j].topic.value].attached && sid in t.sessions &&
            t.sessions[sid].queue == s.sessions[sid].queue + [s.sessions[sid].tenant]
  {
    var sid, k := s.joins[j].sid, s.joins[j].topic.value;
    assert JoinOK(s, s.joins[j]);
    var a := Apply(s, Attach(j));
    StepKeeps(s, Attach(j));
    assert sid in a.topics[k].attached;
    var b := Apply(a, Publish(j));
    StepKeeps(a, Publish(j));
    assert b.messages == s.messages + [Message(k, s.sessions[sid].tenant)] && b.topics == a.topics;
    HandleEffect(b, |s.messages|, {sid}, {}, sid);
  }

  /** A message routed through the hub waits at the topic of its tenant and name, if there is one. */
  lemma RouteEffect(s: State, k: nat, name: string)
    requires Inv(s) && k < |s.topics|
    ensures var t, key := Apply(s, RouteServer(k, name)), Key(s.topics[k].tenant, name);
            if key in s.hub then t == s.(messages := s.messages + [Message(s.hub[key], key.tenant)]) else t == s
  {
  }
}

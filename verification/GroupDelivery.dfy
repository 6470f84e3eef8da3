/** Numbering and delivery of messages over whole runs: stored ids are consecutive and the queue of an
    attached session holds exactly the messages due to it, in order. */
module GroupDelivery {
  import opened AccessMode
  import opened Group
  import opened GroupFrames

  /** The id of the last message before the history starts. */
  function Base(s: State): int {
    s.lastID - |s.posts|
  }

  /** The reference rule: who is to get a message, decided from the history alone. */
  predicate Due(p: Post, x: Sid, uid: Uid) {
    p.skip != Some(x) && uid in p.readers && x !in p.quiet
  }

  /** The ids due to a session that was attached after message `since`. */
  function Expected(posts: seq<Post>, x: Sid, uid: Uid, since: int): seq<int> {
    if posts == [] then []
    else
      var p := posts[|posts| - 1];
      Expected(posts[..|posts| - 1], x, uid, since) + if p.id > since && Due(p, x, uid) then [p.id] else []
  }

  ghost predicate Numbered(s: State) {
    |s.stored| == |s.posts| &&
    forall k :: 0 <= k < |s.posts| ==> s.posts[k].id == Base(s) + 1 + k && s.stored[k] == s.posts[k].id
  }

  ghost predicate QueueOK(s: State, x: Sid)
    requires x in s.sessions
  {
    var a := s.sessions[x];
    Base(s) <= a.since <= s.lastID && a.queued == Expected(s.posts, x, a.uid, a.since)
  }

  ghost predicate DeliveryOK(s: State) {
    Numbered(s) && forall x :: x in s.sessions ==> QueueOK(s, x)
  }

  /** Nothing was published and no session was attached. */
  ghost predicate OnlyDetaches(s: State, t: State) {
    t.lastID == s.lastID && t.posts == s.posts && t.stored == s.stored &&
    forall x :: x in t.sessions ==> x in s.sessions && t.sessions[x] == s.sessions[x]
  }

  lemma DetachingKeepsDelivery(s: State, t: State)
    requires DeliveryOK(s) && OnlyDetaches(s, t)
    ensures DeliveryOK(t)
  {
    forall x | x in t.sessions ensures QueueOK(t, x) {
      assert QueueOK(s, x);
    }
  }

  lemma {:induction false} NothingDueYet(posts: seq<Post>, x: Sid, uid: Uid, since: int)
    requires forall k :: 0 <= k < |posts| ==> posts[k].id <= since
    ensures Expected(posts, x, uid, since) == []
  {
    if posts != [] {
      NothingDueYet(posts[..|posts| - 1], x, uid, since);
    }
  }

  lemma AttachKeepsDelivery(s: State, sid: Sid, uid: Uid)
    requires DeliveryOK(s) && uid in s.perUser
    ensures DeliveryOK(Attach(s, sid, uid))
  {
    var t := Attach(s, sid, uid);
    NothingDueYet(s.posts, sid, uid, s.lastID);
    forall x | x in t.sessions ensures QueueOK(t, x) {
      assert x in s.sessions ==> QueueOK(s, x);
    }
  }

  lemma ThisUserSubDetaches(s: State, uid: Uid, want: Option<Mode>, default: Mode, newsub: bool, w: Writes)
    ensures OnlyDetaches(s, ThisUserSub(s, uid, want, default, newsub, w).0)
  {
    StoreSelfFrame(s, uid, want, default, w);
  }

  lemma SubscribeKeepsDelivery(s: State, sid: Sid, uid: Uid, want: Option<Mode>, default: Mode, newsub: bool, w: Writes)
    requires DeliveryOK(s)
    ensures DeliveryOK(SubscribeSession(s, sid, uid, want, default, newsub, w))
  {
    var isNew := newsub || uid !in s.perUser;
    var t := ThisUserSub(s, uid, want, default, isNew, w).0;
    ThisUserSubDetaches(s, uid, want, default, isNew, w);
    DetachingKeepsDelivery(s, t);
    if uid in t.perUser {
      AttachKeepsDelivery(t, sid, uid);
    }
  }

  lemma InviteDetaches(s: State, host: Uid, target: Uid, given: Option<Mode>, default: Mode, access: Option<Mode>, w: Writes)
    ensures OnlyDetaches(s, InviteUser(s, host, target, given, default, access, w))
  {
    StoreInviteFrame(s, host, target, given, default, access, w);
  }

  lemma BroadcastReceives(r: State, id: int, skip: Option<Sid>, stuck: set<Sid>, x: Sid)
    requires x in Broadcast(r, id, skip, stuck).sessions
    ensures x in r.sessions
    ensures Broadcast(r, id, skip, stuck).sessions[x] ==
            if Receives(r, x, skip) && x !in r.quiet then r.sessions[x].(queued := r.sessions[x].queued + [id]) else r.sessions[x]
  {
    assert x !in Overflown(r, skip, stuck);
  }

  /** The broadcast puts the message on the queue of a remaining session exactly if it is due. */
  lemma BroadcastIsDue(s: State, uid: Uid, skip: Option<Sid>, x: Sid)
    requires uid in s.perUser && x in s.sessions
    ensures var r := Record(s, uid, skip);
            Receives(r, x, skip) && x !in r.quiet <==> Due(r.posts[|s.posts|], x, s.sessions[x].uid)
  {
    assert Read in ModeOf(Record(s, uid, skip), s.sessions[x].uid) <==> s.sessions[x].uid in Readers(s);
  }

  lemma RecordedNumbers(s: State, uid: Uid, skip: Option<Sid>)
    requires Numbered(s) && uid in s.perUser
    ensures Numbered(Record(s, uid, skip)) && Base(Record(s, uid, skip)) == Base(s)
  {
  }

  lemma ExpectedGrows(posts: seq<Post>, p: Post, x: Sid, uid: Uid, since: int)
    ensures Expected(posts + [p], x, uid, since) ==
            Expected(posts, x, uid, since) + if p.id > since && Due(p, x, uid) then [p.id] else []
  {
    assert (posts + [p])[..|posts + [p]| - 1] == posts;
  }

  lemma QueueExtends(s: State, t: State, p: Post, x: Sid)
    requires DeliveryOK(s) && x in s.sessions && x in t.sessions
    requires p.id == t.lastID == s.lastID + 1 && t.posts == s.posts + [p]
    requires t.sessions[x] ==
             if Due(p, x, s.sessions[x].uid) then s.sessions[x].(queued := s.sessions[x].queued + [p.id]) else s.sessions[x]
    ensures QueueOK(t, x)
  {
    var a := s.sessions[x];
    assert QueueOK(s, x);
    ExpectedGrows(s.posts, p, x, a.uid, a.since);
  }

  lemma BroadcastKeepsDelivery(s: State, uid: Uid, skip: Option<Sid>, stuck: set<Sid>)
    requires DeliveryOK(s) && uid in s.perUser
    ensures DeliveryOK(Broadcast(Record(s, uid, skip), Record(s, uid, skip).lastID, skip, stuck))
  {
    var r := Record(s, uid, skip);
    var t := Broadcast(r, r.lastID, skip, stuck);
    RecordedNumbers(s, uid, skip);
    assert t.lastID == r.lastID && t.posts == r.posts && t.stored == r.stored by {
      BroadcastFrame(r, r.lastID, skip, stuck);
    }
    forall x | x in t.sessions ensures QueueOK(t, x) {
      BroadcastReceives(r, r.lastID, skip, stuck, x);
      BroadcastIsDue(s, uid, skip, x);
      QueueExtends(s, t, r.posts[|s.posts|], x);
    }
  }

  lemma PublishKeepsDelivery(s: State, sid: Sid, uid: Uid, noEcho: bool, saved: bool, stuck: set<Sid>)
    requires DeliveryOK(s)
    ensures DeliveryOK(PublishMessage(s, sid, uid, noEcho, saved, stuck))
  {
    var t := PublishMessage(s, sid, uid, noEcho, saved, stuck);
    if !s.inactive && !s.readOnly && Write in ModeOf(s, uid) && saved {
      var skip := if noEcho then Some(sid) else None;
      assert t == Broadcast(Record(s, uid, skip), Record(s, uid, skip).lastID, skip, stuck);
      BroadcastKeepsDelivery(s, uid, skip, stuck);
    } else {
      assert t == s;
    }
  }

  lemma StepKeepsDelivery(s: State, r: Request)
    requires DeliveryOK(s)
    ensures DeliveryOK(Step(s, r))
  {
    if r.Subscribe? {
      SubscribeKeepsDelivery(s, r.sid, r.uid, r.want, r.default, r.newsub, r.writes);
    } else if r.Publish? {
      PublishKeepsDelivery(s, r.sid, r.uid, r.noEcho, r.saved, r.stuck);
    } else {
      OtherRequestsDetach(s, r);
      DetachingKeepsDelivery(s, Step(s, r));
    }
  }

  lemma OtherRequestsDetach(s: State, r: Request)
    requires !r.Subscribe? && !r.Publish?
    ensures OnlyDetaches(s, Step(s, r))
  {
    match r
    case SetSelf(uid, want, default, w) => ThisUserSubDetaches(s, uid, want, default, false, w);
    case Invite(host, target, given, default, access, w) => InviteDetaches(s, host, target, given, default, access, w);
    case DelSub(host, target, d) => RemovalDetaches(s, DeleteRow(s.rows, target), target);
    case Unsubscribe(uid, d) => RemovalDetaches(s, DeleteRow(s.rows, uid), uid);
    case DelTopic(uid, d) => RemovalDetaches(s, DeleteRow(s.rows, uid), uid);
    case DropStuck(sids) => DropDetaches(s, sids);
    case Leave(sid, asUid) => LeaveDetaches(s, sid, asUid);
    case _ => NotesDetachNobody(s, r);
  }

  lemma RemovalDetaches(s: State, rows: map<Uid, Row>, uid: Uid)
    ensures OnlyDetaches(s, Evict(s.(rows := rows), uid, true)) && OnlyDetaches(s, Evict(s, uid, true))
  {
  }

  lemma DropDetaches(s: State, sids: set<Sid>)
    ensures OnlyDetaches(s, DropSessions(s, sids))
  {
  }

  lemma LeaveDetaches(s: State, sid: Sid, asUid: Uid)
    ensures OnlyDetaches(s, LeaveSession(s, sid, asUid))
  {
  }

  lemma NotesDetachNobody(s: State, r: Request)
    requires r.Note? || r.DelMsg? || r.DetachDone? || r.Terminate? || r.SetStatus?
    ensures OnlyDetaches(s, Step(s, r))
  {
  }

  /** In every reachable state the stored ids are consecutive and every queue is what the history says. */
  lemma {:induction false} DeliveryFollowsHistory(s: State, rs: seq<Request>)
    requires DeliveryOK(s)
    ensures DeliveryOK(Exec(s, rs))
    decreases |rs|
  {
    if rs != [] {
      StepKeepsDelivery(s, rs[0]);
      DeliveryFollowsHistory(Step(s, rs[0]), rs[1..]);
    }
  }

  // ----- what a session observes

  ghost predicate NumberedFrom(posts: seq<Post>, base: int) {
    forall k :: 0 <= k < |posts| ==> posts[k].id == base + 1 + k
  }

  lemma {:induction false} ExpectedMembers(posts: seq<Post>, base: int, x: Sid, uid: Uid, since: int, id: int)
    requires NumberedFrom(posts, base)
    ensures id in Expected(posts, x, uid, since) <==>
            base < id <= base + |posts| && id > since && Due(posts[id - base - 1], x, uid)
  {
    if posts != [] {
      ExpectedMembers(posts[..|posts| - 1], base, x, uid, since, id);
    }
  }

  lemma {:induction false} ExpectedSorted(posts: seq<Post>, base: int, x: Sid, uid: Uid, since: int, i: nat, j: nat)
    requires NumberedFrom(posts, base) && i < j < |Expected(posts, x, uid, since)|
    ensures Expected(posts, x, uid, since)[i] < Expected(posts, x, uid, since)[j]
  {
    var rest := posts[..|posts| - 1];
    var before := Expected(rest, x, uid, since);
    if j < |before| {
      ExpectedSorted(rest, base, x, uid, since, i, j);
    } else {
      ExpectedMembers(rest, base, x, uid, since, before[i]);
    }
  }

  /** The session could read the topic and was not terminating at every message since it was attached. */
  ghost predicate AlwaysListening(s: State, x: Sid)
    requires x in s.sessions
  {
    forall k :: 0 <= k < |s.posts| && s.posts[k].id > s.sessions[x].since ==>
      s.sessions[x].uid in s.posts[k].readers && x !in s.posts[k].quiet
  }

  /** What was queued to an attached session is strictly increasing. */
  lemma QueueIncreases(s: State, x: Sid)
    requires DeliveryOK(s) && x in s.sessions
    ensures var q := s.sessions[x].queued; forall i, j :: 0 <= i < j < |q| ==> q[i] < q[j]
  {
    var a := s.sessions[x];
    assert QueueOK(s, x) && NumberedFrom(s.posts, Base(s));
    forall i, j | 0 <= i < j < |a.queued| ensures a.queued[i] < a.queued[j] {
      ExpectedSorted(s.posts, Base(s), x, a.uid, a.since, i, j);
    }
  }

  /** A message published since the session was attached is on its queue exactly if it was due. */
  lemma QueuedIffDue(s: State, x: Sid, k: nat)
    requires DeliveryOK(s) && x in s.sessions && k < |s.posts| && s.posts[k].id > s.sessions[x].since
    ensures s.posts[k].id in s.sessions[x].queued <==> Due(s.posts[k], x, s.sessions[x].uid)
  {
    var a := s.sessions[x];
    assert QueueOK(s, x) && NumberedFrom(s.posts, Base(s));
    ExpectedMembers(s.posts, Base(s), x, a.uid, a.since, s.posts[k].id);
  }

  /** The only messages a listening session has missed are its own no-echo posts. */
  ghost predicate MissesOnlyOwnPosts(s: State, x: Sid)
    requires x in s.sessions
  {
    forall k :: 0 <= k < |s.posts| && s.posts[k].id > s.sessions[x].since ==>
      (s.posts[k].id in s.sessions[x].queued <==> s.posts[k].skip != Some(x))
  }

  lemma ListenerMissesOnlyOwnPosts(s: State, x: Sid)
    requires DeliveryOK(s) && x in s.sessions && AlwaysListening(s, x)
    ensures MissesOnlyOwnPosts(s, x)
  {
    forall k | 0 <= k < |s.posts| && s.posts[k].id > s.sessions[x].since
      ensures s.posts[k].id in s.sessions[x].queued <==> s.posts[k].skip != Some(x)
    {
      QueuedIffDue(s, x, k);
    }
  }

  /** After any run: what was queued to an attached session is strictly increasing and, if the session
      was listening all along, the only ids missing since it was attached are its own no-echo posts. */
  lemma NoGapsButOwnPosts(s0: State, rs: seq<Request>, x: Sid)
    requires DeliveryOK(s0) && x in Exec(s0, rs).sessions
    ensures var q := Exec(s0, rs).sessions[x].queued; forall i, j :: 0 <= i < j < |q| ==> q[i] < q[j]
    ensures AlwaysListening(Exec(s0, rs), x) ==> MissesOnlyOwnPosts(Exec(s0, rs), x)
  {
    var s := Exec(s0, rs);
    DeliveryFollowsHistory(s0, rs);
    QueueIncreases(s, x);
    if AlwaysListening(s, x) {
      ListenerMissesOnlyOwnPosts(s, x);
    }
  }

  /** A session whose queue overflows is detached by the very broadcast that overflowed it. */
  lemma OverflowDetaches(s: State, sid: Sid, uid: Uid, noEcho: bool, stuck: set<Sid>, x: Sid)
    requires !s.inactive && !s.readOnly && Write in ModeOf(s, uid) && x in s.sessions && x in stuck && x !in s.quiet
    requires Read in ModeOf(s, s.sessions[x].uid) && !(noEcho && x == sid)
    ensures x !in PublishMessage(s, sid, uid, noEcho, true, stuck).sessions
    ensures PublishMessage(s, sid, uid, noEcho, true, stuck).lastID == s.lastID + 1
  {
    var skip := if noEcho then Some(sid) else None;
    var r := Record(s, uid, skip);
    assert Receives(r, x, skip) && x in Overflown(r, skip, stuck);
  }
}

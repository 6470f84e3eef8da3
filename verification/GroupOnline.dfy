/** Online counters: for every subscriber the counter equals the number of attached sessions. */
module GroupOnline {
  import opened AccessMode
  import opened Group
  import opened GroupFrames

  ghost predicate Counts(sessions: map<Sid, Attached>, perUser: map<Uid, Member>) {
    (forall x :: x in sessions ==> sessions[x].uid in perUser) &&
    (forall u :: u in perUser ==> perUser[u].online == |SessionsOf(sessions, u)|)
  }

  /** An attached session holds a link to the topic and has not been told to drop it. */
  ghost predicate LinksOK(s: State) {
    s.sessions.Keys <= s.linked && s.detaching <= s.linked && s.detaching !! s.sessions.Keys
  }

  ghost predicate OnlineOK(s: State) {
    Counts(s.sessions, s.perUser) && LinksOK(s)
  }

  lemma CarriedCounts(sessions: map<Sid, Attached>, p: map<Uid, Member>, q: map<Uid, Member>)
    requires Counts(sessions, p) && p.Keys <= q.Keys
    requires forall u :: u in q ==> q[u].online == if u in p then p[u].online else 0
    ensures Counts(sessions, q)
  {
    forall u | u in q && u !in p ensures SessionsOf(sessions, u) == {} {
    }
  }

  lemma EvictCounts(sessions: map<Sid, Attached>, p: map<Uid, Member>, uid: Uid, q: map<Uid, Member>)
    requires Counts(sessions, p)
    requires q == p - {uid} || (uid in p && q == p[uid := p[uid].(online := 0)])
    ensures Counts(sessions - SessionsOf(sessions, uid), q)
    ensures SessionsOf(sessions - SessionsOf(sessions, uid), uid) == {}
  {
    var rest := sessions - SessionsOf(sessions, uid);
    forall u ensures SessionsOf(rest, u) == if u == uid then {} else SessionsOf(sessions, u) {
    }
  }

  lemma EvictKeepsOnline(s: State, uid: Uid, unsub: bool)
    requires OnlineOK(s)
    ensures OnlineOK(Evict(s, uid, unsub)) && SessionsOf(Evict(s, uid, unsub).sessions, uid) == {}
  {
    var t := Evict(s, uid, unsub);
    if uid !in s.perUser {
      assert t.perUser == s.perUser - {uid};
    }
    EvictCounts(s.sessions, s.perUser, uid, t.perUser);
  }

  lemma ThisUserSubKeepsOnline(s: State, uid: Uid, want: Option<Mode>, default: Mode, newsub: bool, w: Writes)
    requires OnlineOK(s)
    ensures OnlineOK(ThisUserSub(s, uid, want, default, newsub, w).0)
    ensures ThisUserSub(s, uid, want, default, newsub, w).0.linked == s.linked
  {
    var t := StoreSelf(s, uid, want, default, w).0;
    StoreSelfFrame(s, uid, want, default, w);
    CarriedCounts(s.sessions, s.perUser, t.perUser);
    EvictKeepsOnline(t, uid, false);
  }

  lemma AttachCounts(sessions: map<Sid, Attached>, p: map<Uid, Member>, x: Sid, a: Attached)
    requires Counts(sessions, p) && x !in sessions && a.uid in p
    ensures Counts(sessions[x := a], p[a.uid := p[a.uid].(online := p[a.uid].online + 1)])
  {
    var q := p[a.uid := p[a.uid].(online := p[a.uid].online + 1)];
    forall u | u in q ensures q[u].online == |SessionsOf(sessions[x := a], u)| {
      AttachedSessions(sessions, x, a, u);
    }
  }

  lemma AttachedSessions(sessions: map<Sid, Attached>, x: Sid, a: Attached, u: Uid)
    requires x !in sessions
    ensures |SessionsOf(sessions[x := a], u)| == |SessionsOf(sessions, u)| + if u == a.uid then 1 else 0
  {
    if u == a.uid {
      assert SessionsOf(sessions[x := a], u) == SessionsOf(sessions, u) + {x};
    } else {
      assert SessionsOf(sessions[x := a], u) == SessionsOf(sessions, u);
    }
  }

  lemma AttachKeepsOnline(s: State, sid: Sid, uid: Uid)
    requires OnlineOK(s) && uid in s.perUser && sid !in s.linked
    ensures OnlineOK(Attach(s, sid, uid))
  {
    AttachCounts(s.sessions, s.perUser, sid, Attached(uid, s.lastID, []));
  }

  lemma SubscribeKeepsOnline(s: State, sid: Sid, uid: Uid, want: Option<Mode>, default: Mode, newsub: bool, w: Writes)
    requires OnlineOK(s)
    ensures OnlineOK(SubscribeSession(s, sid, uid, want, default, newsub, w))
  {
    var isNew := newsub || uid !in s.perUser;
    ThisUserSubKeepsOnline(s, uid, want, default, isNew, w);
    var t := ThisUserSub(s, uid, want, default, isNew, w).0;
    if sid !in s.linked && uid in t.perUser {
      AttachKeepsOnline(t, sid, uid);
    }
  }

  lemma InviteKeepsOnline(s: State, host: Uid, target: Uid, given: Option<Mode>, default: Mode, access: Option<Mode>, w: Writes)
    requires OnlineOK(s)
    ensures OnlineOK(InviteUser(s, host, target, given, default, access, w))
  {
    var t := StoreInvite(s, host, target, given, default, access, w).0;
    StoreInviteFrame(s, host, target, given, default, access, w);
    CarriedCounts(s.sessions, s.perUser, t.perUser);
    EvictKeepsOnline(t, target, false);
  }

  lemma DropCounts(sessions: map<Sid, Attached>, p: map<Uid, Member>, gone: set<Sid>)
    requires Counts(sessions, p)
    ensures Counts(sessions - gone, CountDown(p, sessions, gone))
  {
    forall u ensures |SessionsOf(sessions - gone, u)| == |SessionsOf(sessions, u)| - |Lost(sessions, gone, u)| {
      var rest := SessionsOf(sessions - gone, u);
      assert rest + Lost(sessions, gone, u) == SessionsOf(sessions, u);
      assert rest !! Lost(sessions, gone, u);
    }
  }

  /** Leaving is dropping a single session. */
  lemma LeaveIsDrop(s: State, sid: Sid, asUid: Uid)
    requires CanLeave(s, sid, asUid)
    ensures LeaveSession(s, sid, asUid) == DropSessions(s, {sid})
  {
    var uid := s.sessions[sid].uid;
    var gone := {sid} * s.sessions.Keys;
    assert gone == {sid};
    forall u | u in s.perUser ensures |Lost(s.sessions, gone, u)| == if u == uid then 1 else 0 {
      assert Lost(s.sessions, gone, u) == if u == uid then {sid} else {};
    }
    assert LeaveSession(s, sid, asUid).perUser == CountDown(s.perUser, s.sessions, gone);
  }

  /** Sessions may be dropped one by one. */
  lemma CountDownTwice(p: map<Uid, Member>, sessions: map<Sid, Attached>, gone: set<Sid>, x: Sid)
    requires x in sessions && x !in gone
    ensures CountDown(CountDown(p, sessions, gone), sessions - gone, {x}) == CountDown(p, sessions, gone + {x})
  {
    forall u | u in p
      ensures CountDown(CountDown(p, sessions, gone), sessions - gone, {x})[u] == CountDown(p, sessions, gone + {x})[u]
    {
      SplitDrop(sessions, gone, x, u);
    }
  }

  lemma CountDownNone(p: map<Uid, Member>, sessions: map<Sid, Attached>, none: set<Sid>)
    requires none == {}
    ensures CountDown(p, sessions, none) == p
  {
    forall u | u in p ensures |Lost(sessions, none, u)| == 0 {
      assert Lost(sessions, none, u) == {};
    }
  }

  lemma SplitDrop(sessions: map<Sid, Attached>, gone: set<Sid>, x: Sid, u: Uid)
    requires x in sessions && x !in gone
    ensures |Lost(sessions, gone, u)| + |Lost(sessions - gone, {x}, u)| == |Lost(sessions, gone + {x}, u)|
  {
    assert Lost(sessions, gone, u) + Lost(sessions - gone, {x}, u) == Lost(sessions, gone + {x}, u);
    assert Lost(sessions, gone, u) !! Lost(sessions - gone, {x}, u);
  }

  lemma DropKeepsOnline(s: State, sids: set<Sid>)
    requires OnlineOK(s)
    ensures OnlineOK(DropSessions(s, sids))
  {
    DropCounts(s.sessions, s.perUser, sids * s.sessions.Keys);
  }

  lemma LeaveKeepsOnline(s: State, sid: Sid, asUid: Uid)
    requires OnlineOK(s)
    ensures OnlineOK(LeaveSession(s, sid, asUid))
  {
    if CanLeave(s, sid, asUid) {
      LeaveIsDrop(s, sid, asUid);
      DropKeepsOnline(s, {sid});
    }
  }

  lemma DeliverCounts(s: State, id: int, skip: Option<Sid>, stuck: set<Sid>)
    requires Counts(s.sessions, s.perUser)
    ensures Counts(Deliver(s, id, skip, stuck).sessions, s.perUser)
  {
    forall u ensures SessionsOf(Deliver(s, id, skip, stuck).sessions, u) == SessionsOf(s.sessions, u) {
    }
  }

  lemma PublishKeepsOnline(s: State, sid: Sid, uid: Uid, noEcho: bool, saved: bool, stuck: set<Sid>)
    requires OnlineOK(s)
    ensures OnlineOK(PublishMessage(s, sid, uid, noEcho, saved, stuck))
  {
    if !s.inactive && !s.readOnly && Write in ModeOf(s, uid) && saved {
      var skip := if noEcho then Some(sid) else None;
      var t := Record(s, uid, skip);
      CarriedCounts(s.sessions, s.perUser, t.perUser);
      var d := Deliver(t, t.lastID, skip, stuck);
      DeliverCounts(t, t.lastID, skip, stuck);
      DropKeepsOnline(d, Overflown(t, skip, stuck));
    }
  }

  lemma NoteKeepsOnline(s: State, uid: Uid, kind: NoteKind, id: int, saved: bool)
    requires OnlineOK(s)
    ensures OnlineOK(NoteMarkers(s, uid, kind, id, saved))
  {
    CarriedCounts(s.sessions, s.perUser, NoteMarkers(s, uid, kind, id, saved).perUser);
  }

  lemma DeleteKeepsOnline(s: State, uid: Uid, hard: bool, wellFormed: bool, saved: bool)
    requires OnlineOK(s)
    ensures OnlineOK(DeleteMessages(s, uid, hard, wellFormed, saved))
  {
    CarriedCounts(s.sessions, s.perUser, DeleteMessages(s, uid, hard, wellFormed, saved).perUser);
  }

  lemma StatusKeepsOnline(s: State, r: Request)
    requires OnlineOK(s) && (r.DetachDone? || r.Terminate? || r.SetStatus?)
    ensures OnlineOK(Step(s, r))
  {
  }

  lemma StepKeepsOnline(s: State, r: Request)
    requires OnlineOK(s)
    ensures OnlineOK(Step(s, r))
  {
    match r
    case Subscribe(sid, uid, want, default, newsub, w) => SubscribeKeepsOnline(s, sid, uid, want, default, newsub, w);
    case SetSelf(uid, want, default, w) => ThisUserSubKeepsOnline(s, uid, want, default, false, w);
    case Invite(host, target, given, default, access, w) =>
      InviteKeepsOnline(s, host, target, given, default, access, w);
    case DelSub(_, target, d) => EvictKeepsOnline(if d.Deleted? then s.(rows := DeleteRow(s.rows, target)) else s, target, true);
    case Leave(sid, asUid) => LeaveKeepsOnline(s, sid, asUid);
    case Unsubscribe(uid, _) => EvictKeepsOnline(s.(rows := DeleteRow(s.rows, uid)), uid, true);
    case DelTopic(uid, _) => EvictKeepsOnline(s.(rows := DeleteRow(s.rows, uid)), uid, true);
    case Publish(sid, uid, noEcho, saved, stuck) => PublishKeepsOnline(s, sid, uid, noEcho, saved, stuck);
    case Note(uid, kind, id, saved) => NoteKeepsOnline(s, uid, kind, id, saved);
    case DelMsg(uid, hard, wellFormed, saved) => DeleteKeepsOnline(s, uid, hard, wellFormed, saved);
    case DropStuck(sids) => DropKeepsOnline(s, sids);
    case _ => StatusKeepsOnline(s, r);
  }

  /** In every reachable state each counter is the number of attached sessions, so never negative. */
  lemma {:induction false} OnlineCountsSessions(s: State, rs: seq<Request>)
    requires OnlineOK(s)
    ensures OnlineOK(Exec(s, rs))
    ensures forall u :: u in Exec(s, rs).perUser ==> Exec(s, rs).perUser[u].online >= 0
    decreases |rs|
  {
    if rs != [] {
      StepKeepsOnline(s, rs[0]);
      OnlineCountsSessions(Step(s, rs[0]), rs[1..]);
    }
  }

  /** A leaving session announces its user as "off" exactly when it was the last one attached. */
  lemma OffExactlyWhenLastSessionLeaves(s: State, sid: Sid, asUid: Uid)
    requires OnlineOK(s) && CanLeave(s, sid, asUid)
    ensures var uid := s.sessions[sid].uid;
            AnnouncedOff(s, sid, asUid) == (if SessionsOf(s.sessions, uid) == {sid} then Some(uid) else None)
  {
    var uid := s.sessions[sid].uid;
    LeaveKeepsOnline(s, sid, asUid);
    assert SessionsOf(LeaveSession(s, sid, asUid).sessions, uid) == SessionsOf(s.sessions, uid) - {sid};
    assert SessionsOf(s.sessions, uid) - {sid} == {} <==> SessionsOf(s.sessions, uid) == {sid};
  }
}

/** The group topic in the imperative form of the source: an object whose handlers update its fields
    in place. A topic is valid if it has an owner, exact online counters, ordered markers and exact
    queues. Every handler keeps it so and makes exactly the step that the model describes. */
module GroupRunner {
  import opened AccessMode
  import opened Group
  import opened GroupOwner
  import opened GroupOnline
  import opened GroupMarkers
  import opened GroupRuns

  class Topic {
    var lastID: int
    var delID: int
    var owner: Uid
    var perUser: map<Uid, Member>
    var sessions: map<Sid, Attached>
    var linked: set<Sid>
    var detaching: set<Sid>
    var quiet: set<Sid>
    var inactive: bool
    var readOnly: bool
    const maxSubs: nat
    var rows: map<Uid, Row>
    var stored: seq<int>
    ghost var posts: seq<Post>

    ghost function Now(): State
      reads this
    {
      State(lastID, delID, owner, perUser, sessions, linked, detaching, quiet, inactive, readOnly, maxSubs, rows, stored, posts)
    }

    ghost predicate Valid()
      reads this
    {
      Sound(Now())
    }

    /** A freshly created or loaded topic: nobody is attached. */
    constructor (s: State)
      requires Idle(s) && OwnerOK(s) && MarkersOK(s)
      ensures Now() == s && Valid()
    {
      IdleIsSound(s);
      lastID, delID, owner, perUser := s.lastID, s.delID, s.owner, s.perUser;
      sessions, linked, detaching, quiet := s.sessions, s.linked, s.detaching, s.quiet;
      inactive, readOnly, maxSubs := s.inactive, s.readOnly, s.maxSubs;
      rows, stored, posts := s.rows, s.stored, s.posts;
    }

    method EvictUser(uid: Uid, unsub: bool)
      modifies this
      ensures Now() == Evict(old(Now()), uid, unsub)
    {
      if uid in perUser {
        if unsub {
          perUser := perUser - {uid};
        } else {
          perUser := perUser[uid := perUser[uid].(online := 0)];
        }
      }
      DetachSessions(uid);
    }

    method DetachSessions(uid: Uid)
      modifies this`sessions, this`detaching
      ensures sessions == old(sessions) - SessionsOf(old(sessions), uid)
      ensures detaching == old(detaching) + (SessionsOf(old(sessions), uid) - quiet)
    {
      ghost var was := sessions;
      var todo := sessions.Keys;
      while todo != {}
        invariant todo <= was.Keys
        invariant sessions == map x | x in was && (x in todo || was[x].uid != uid) :: was[x]
        invariant detaching == old(detaching) + set x | x in was && x !in todo && was[x].uid == uid && x !in quiet
        decreases todo
      {
        var x :| x in todo;
        todo := todo - {x};
        if sessions[x].uid == uid {
          sessions := sessions - {x};
          if x !in quiet {
            detaching := detaching + {x};
          }
        }
      }
    }

    /** Creates the subscription of a user who has no cached record. */
    method AddSubscriber(uid: Uid, want: Option<Mode>, default: Mode, w: Writes) returns (ok: bool)
      modifies this
      ensures (Now(), ok) == AddMember(old(Now()), uid, want, default, w)
    {
      if |perUser| >= maxSubs {
        return false;
      }
      if !w.read {
        return false;
      }
      var given := default;
      if uid in rows {
        given := rows[uid].given;
      }
      var modeWant := default;
      if want.Some? {
        modeWant := want.value;
      }
      if Join !in given {
        return false;
      }
      if uid !in rows || rows[uid].deleted {
        if !w.own {
          return false;
        }
        rows := rows[uid := Row(modeWant, given, false)];
      }
      perUser := perUser[uid := Member(0, 0, 0, 0, modeWant, given)];
      ok := true;
    }

    /** Works out the modes an existing subscriber asks for, writes them and hands ownership over if the
        subscriber accepts it. */
    method UpdateSubscriber(uid: Uid, want: Option<Mode>, default: Mode, w: Writes) returns (ok: bool)
      requires uid in perUser
      modifies this
      ensures (Now(), ok) == StoreSelf(old(Now()), uid, want, default, w)
    {
      var userData := perUser[uid];
      var oldWant, oldGiven := userData.want, userData.given;
      var ownerChange := false;
      if want.Some? {
        var modeWant := want.value;
        if owner == uid && (Owner !in modeWant || Join !in modeWant) {
          return false;
        }
        if Owner in userData.given {
          ownerChange := Owner in modeWant && Owner !in userData.want;
          if Owner in modeWant && !(modeWant <= userData.given) {
            userData := userData.(given := userData.given + modeWant);
          }
        } else if Owner in modeWant {
          return false;
        } else if IsAdmin(userData.given) && IsAdmin(modeWant) {
          if !(modeWant - {Delete} <= userData.given) {
            userData := userData.(given := userData.given + (modeWant - {Delete}));
          }
        }
        userData := userData.(want := modeWant);
      } else if Join !in oldWant {
        userData := userData.(want := userData.given + default);
      }
      ghost var c := SelfChange(old(Now()), uid, want, default);
      assert c == Change(userData.want, userData.given, ownerChange);
      assert userData == old(perUser[uid]).(want := c.want, given := c.given);
      ok := WriteSubscriber(uid, userData, ownerChange, w);
    }

    method WriteSubscriber(uid: Uid, userData: Member, ownerChange: bool, w: Writes) returns (ok: bool)
      requires uid in perUser && userData == perUser[uid].(want := userData.want, given := userData.given)
      modifies this
      ensures (Now(), ok) == UpdateSelf(old(Now()), uid, Change(userData.want, userData.given, ownerChange), w)
    {
      var oldData := perUser[uid];
      if userData.want != oldData.want || userData.given != oldData.given {
        if !w.own {
          return false;
        }
        if uid in rows {
          var row := rows[uid];
          if userData.want != oldData.want {
            row := row.(want := userData.want);
          }
          if userData.given != oldData.given {
            row := row.(given := userData.given);
          }
          rows := rows[uid := row];
        }
      }
      if ownerChange {
        var oldOwnerData := if owner in perUser then perUser[owner] else Member(0, 0, 0, 0, {}, {});
        oldOwnerData := oldOwnerData.(given := oldOwnerData.given - {Owner});
        oldOwnerData := oldOwnerData.(want := oldOwnerData.want - {Owner});
        if !w.oldOwner {
          return false;
        }
        if owner in rows {
          rows := rows[owner := Row(oldOwnerData.want, oldOwnerData.given, rows[owner].deleted)];
        }
        if !w.topic {
          return false;
        }
        perUser := perUser[owner := oldOwnerData];
        owner := uid;
      }
      perUser := perUser[uid := userData];
      ok := true;
    }

    method ThisUser(uid: Uid, want: Option<Mode>, default: Mode, newsub: bool, w: Writes) returns (outcome: Outcome)
      requires Valid()
      modifies this
      ensures (Now(), outcome) == ThisUserSub(old(Now()), uid, want, default, newsub, w)
      ensures Valid() && Now() == Step(old(Now()), SetSelf(uid, want, default, w))
    {
      StepStaysSound(Now(), SetSelf(uid, want, default, w));
      var oldWant, oldGiven: Mode := {}, {};
      var ok;
      if uid !in perUser {
        ok := AddSubscriber(uid, want, default, w);
      } else {
        oldWant, oldGiven := perUser[uid].want, perUser[uid].given;
        ok := UpdateSubscriber(uid, want, default, w);
      }
      if !ok || uid !in perUser {
        return Refused;
      }
      var userData := perUser[uid];
      var changed := newsub || oldWant != userData.want || oldGiven != userData.given;
      if Join !in userData.want {
        EvictUser(uid, false);
        return Applied(changed);
      }
      if Join !in userData.given {
        return Refused;
      }
      return Applied(changed);
    }

    method RegisterSession(sid: Sid, uid: Uid, want: Option<Mode>, default: Mode, newsub: bool, w: Writes)
      requires Valid()
      modifies this
      ensures Valid() && Now() == Step(old(Now()), Subscribe(sid, uid, want, default, newsub, w))
    {
      StepStaysSound(Now(), Subscribe(sid, uid, want, default, newsub, w));
      if inactive || sid in linked {
        return;
      }
      var isNew := newsub || uid !in perUser;
      var outcome := ThisUser(uid, want, default, isNew, w);
      if outcome.Refused? || uid !in perUser {
        return;
      }
      var userData := perUser[uid];
      var hasJoined := outcome.changed ==> Join in userData.want * userData.given;
      if hasJoined {
        AddSession(sid, uid);
      }
    }

    method AddSession(sid: Sid, uid: Uid)
      requires uid in perUser
      modifies this`linked, this`sessions, this`perUser
      ensures Now() == Attach(old(Now()), sid, uid)
    {
      linked := linked + {sid};
      if sid !in sessions {
        sessions := sessions[sid := Attached(uid, lastID, [])];
      }
      var userData := perUser[uid];
      perUser := perUser[uid := userData.(online := userData.online + 1)];
    }

    method AnotherUser(host: Uid, target: Uid, given: Option<Mode>, default: Mode, access: Option<Mode>, w: Writes)
      requires Valid()
      modifies this
      ensures Valid() && Now() == Step(old(Now()), Invite(host, target, given, default, access, w))
    {
      StepStaysSound(Now(), Invite(host, target, given, default, access, w));
      var ok := WriteInvite(host, target, given, default, access, w);
      if ok && target in perUser && Join !in perUser[target].given {
        EvictUser(target, false);
      }
    }

    method WriteInvite(host: Uid, target: Uid, given: Option<Mode>, default: Mode, access: Option<Mode>, w: Writes) returns (ok: bool)
      modifies this`rows, this`perUser
      ensures (Now(), ok) == StoreInvite(old(Now()), host, target, given, default, access, w)
    {
      var hostMode := if host in perUser then perUser[host].given * perUser[host].want else {};
      assert hostMode == ModeOf(Now(), host);
      if host == target || !IsSharer(hostMode) || readOnly {
        return false;
      }
      if given.Some? && !IsAdmin(hostMode) {
        return false;
      }
      if given.Some? && Owner in given.value && owner != host {
        return false;
      }
      if target !in perUser {
        if |perUser| >= maxSubs || !w.read || (target !in rows && access.None?) {
          return false;
        }
        var modeGiven := if given.Some? then given.value else default + {Join};
        var modeWant := if target in rows then rows[target].want else access.value * modeGiven;
        if Join !in modeWant || !w.own {
          return false;
        }
        rows := rows[target := Row(modeWant, modeGiven, false)];
        perUser := perUser[target := Member(0, 0, 0, 0, modeWant, modeGiven)];
      } else if given.Some? && given.value != perUser[target].given {
        var modeGiven := given.value;
        if owner == target && (Owner !in modeGiven || Join !in modeGiven) {
          return false;
        }
        if !w.own {
          return false;
        }
        if target in rows {
          rows := rows[target := rows[target].(given := modeGiven)];
        }
        perUser := perUser[target := perUser[target].(given := modeGiven)];
      }
      ok := true;
    }

    method DelSub(host: Uid, target: Uid, d: Deletion)
      requires Valid()
      modifies this
      ensures Valid() && Now() == Step(old(Now()), Request.DelSub(host, target, d))
    {
      StepStaysSound(Now(), Request.DelSub(host, target, d));
      var hostMode := if host in perUser then perUser[host].given * perUser[host].want else {};
      assert hostMode == ModeOf(Now(), host);
      if !IsAdmin(hostMode) || target == ZERO_UID || target == host {
        return;
      }
      if target !in perUser {
        return;
      }
      var pud := perUser[target];
      assert pud.given * pud.want == ModeOf(Now(), target);
      if Owner in pud.given * pud.want || Join !in pud.want || d.Failed? {
        return;
      }
      if d.Deleted? && target in rows {
        rows := rows[target := rows[target].(deleted := true)];
      }
      EvictUser(target, true);
    }

    /** A user leaves for good with {leave unsub}, refused while the topic is inactive. */
    method LeaveForGood(uid: Uid, d: Deletion)
      requires Valid()
      modifies this
      ensures Valid() && Now() == Step(old(Now()), Unsubscribe(uid, d))
    {
      StepStaysSound(Now(), Unsubscribe(uid, d));
      if !inactive {
        LeaveUnsub(uid, d);
      }
    }

    /** {del topic} by somebody else than the owner is unsubscribing, whatever the state of the topic. */
    method DelTopic(uid: Uid, d: Deletion)
      requires Valid()
      modifies this
      ensures Valid() && Now() == Step(old(Now()), Request.DelTopic(uid, d))
    {
      StepStaysSound(Now(), Request.DelTopic(uid, d));
      if owner != uid {
        LeaveUnsub(uid, d);
      }
    }

    method LeaveUnsub(uid: Uid, d: Deletion)
      modifies this
      ensures Now() == UnsubscribeUser(old(Now()), uid, d)
    {
      if owner == uid || !d.Deleted? {
        return;
      }
      if uid in rows {
        rows := rows[uid := rows[uid].(deleted := true)];
      }
      EvictUser(uid, true);
    }

    /** A session leaves; `off` is the user announced as having gone offline. */
    method HandleLeave(sid: Sid, asUid: Uid) returns (off: Option<Uid>)
      requires Valid()
      modifies this`sessions, this`linked, this`perUser
      ensures Valid() && Now() == Step(old(Now()), Leave(sid, asUid))
      ensures old(CanLeave(Now(), sid, asUid)) ==>
                off == if SessionsOf(old(sessions), old(sessions)[sid].uid) == {sid} then Some(old(sessions)[sid].uid) else None
      ensures !old(CanLeave(Now(), sid, asUid)) ==> off.None?
    {
      StepStaysSound(Now(), Leave(sid, asUid));
      if CanLeave(Now(), sid, asUid) {
        OffExactlyWhenLastSessionLeaves(Now(), sid, asUid);
      }
      off := RemSession(sid, asUid);
    }

    /** Takes a session off the topic, also in the middle of a broadcast. */
    method RemSession(sid: Sid, asUid: Uid) returns (off: Option<Uid>)
      requires OnlineOK(Now())
      modifies this`sessions, this`linked, this`perUser
      ensures Now() == LeaveSession(old(Now()), sid, asUid) && OnlineOK(Now())
      ensures off == AnnouncedOff(old(Now()), sid, asUid)
    {
      LeaveKeepsOnline(Now(), sid, asUid);
      off := None;
      if inactive || sid !in sessions || (asUid != ZERO_UID && asUid != sessions[sid].uid) {
        return;
      }
      var uid := sessions[sid].uid;
      sessions := sessions - {sid};
      linked := linked - {sid};
      var pud := perUser[uid];
      pud := pud.(online := pud.online - 1);
      perUser := perUser[uid := pud];
      if pud.online == 0 {
        off := Some(uid);
      }
    }

    /** Queues a message to the attached sessions. `stuck` sessions have no room left on their queue and
        are detached once everyone was served. */
    method BroadcastData(id: int, skip: Option<Sid>, stuck: set<Sid>)
      requires !inactive && OnlineOK(Now())
      modifies this`sessions, this`linked, this`perUser
      ensures Now() == Broadcast(old(Now()), id, skip, stuck)
    {
      DeliverCounts(Now(), id, skip, stuck);
      var drop := DeliverAll(id, skip, stuck);
      assert drop * sessions.Keys == drop;
      DropAll(drop);
    }

    method DeliverAll(id: int, skip: Option<Sid>, stuck: set<Sid>) returns (drop: set<Sid>)
      modifies this`sessions
      ensures sessions == Deliver(old(Now()), id, skip, stuck).sessions && sessions.Keys == old(sessions.Keys)
      ensures drop == Overflown(old(Now()), skip, stuck)
    {
      ghost var was := Now();
      ghost var served := Deliver(was, id, skip, stuck).sessions;
      drop := {};
      var todo := sessions.Keys;
      while todo != {}
        invariant todo <= was.sessions.Keys && sessions.Keys == was.sessions.Keys
        invariant forall x :: x in sessions ==> sessions[x] == if x in todo then was.sessions[x] else served[x]
        invariant drop == Overflown(was, skip, stuck) - todo
        decreases todo
      {
        var x :| x in todo;
        todo := todo - {x};
        var pssd := sessions[x];
        var mode := if pssd.uid in perUser then perUser[pssd.uid].want * perUser[pssd.uid].given else {};
        assert mode == ModeOf(was, pssd.uid);
        if skip != Some(x) && Read in mode {
          var queued := QueueOut(x, id, stuck);
          if !queued {
            drop := drop + {x};
          }
        }
      }
    }

    /** Puts the message on a session's queue unless the queue is full; a terminating session takes it
        silently. */
    method QueueOut(x: Sid, id: int, stuck: set<Sid>) returns (queued: bool)
      requires x in sessions
      modifies this`sessions
      ensures queued == (x in quiet || x !in stuck)
      ensures sessions == if x !in quiet && x !in stuck
                          then old(sessions)[x := old(sessions)[x].(queued := old(sessions)[x].queued + [id])]
                          else old(sessions)
    {
      if x in quiet {
        return true;
      }
      if x in stuck {
        return false;
      }
      sessions := sessions[x := sessions[x].(queued := sessions[x].queued + [id])];
      return true;
    }

    method DropAll(drop: set<Sid>)
      requires !inactive && OnlineOK(Now()) && drop <= sessions.Keys
      modifies this`sessions, this`linked, this`perUser
      ensures sessions == old(sessions) - drop && linked == old(linked) - drop
      ensures perUser == CountDown(old(perUser), old(sessions), drop)
    {
      ghost var before := Now();
      ghost var gone: set<Sid> := {};
      DroppedNone(before, gone);
      var todo := drop;
      while todo != {}
        invariant OnlineOK(Now()) && todo <= sessions.Keys
        invariant forall x :: x in todo ==> x in drop && x !in gone
        invariant forall x :: x in drop <==> x in todo || x in gone
        invariant Dropped(before, gone, sessions, linked, perUser)
        decreases todo
      {
        var x :| x in todo;
        DropNext(x, before, gone);
        todo, gone := todo - {x}, gone + {x};
      }
      assert gone == drop;
    }

    method DropNext(x: Sid, ghost before: State, ghost gone: set<Sid>)
      requires !inactive && OnlineOK(Now()) && x in sessions && x !in gone
      requires Dropped(before, gone, sessions, linked, perUser)
      modifies this`sessions, this`linked, this`perUser
      ensures OnlineOK(Now()) && sessions.Keys == old(sessions.Keys) - {x}
      ensures Dropped(before, gone + {x}, sessions, linked, perUser)
    {
      DroppedOneMore(before, gone, sessions, linked, perUser, x);
      DropOne(x);
    }

    method DropOne(x: Sid)
      requires !inactive && OnlineOK(Now()) && x in sessions
      modifies this`sessions, this`linked, this`perUser
      ensures OnlineOK(Now()) && sessions == old(sessions) - {x} && linked == old(linked) - {x}
      ensures perUser == CountDown(old(perUser), old(sessions), {x})
    {
      LeaveIsDrop(Now(), x, ZERO_UID);
      assert {x} * sessions.Keys == {x};
      var _ := RemSession(x, ZERO_UID);
    }

    /** Saves the message under the next id and broadcasts it; a failed save changes nothing. */
    method SaveAndBroadcast(sid: Sid, uid: Uid, noEcho: bool, saved: bool, stuck: set<Sid>)
      requires Valid()
      modifies this
      ensures Valid() && Now() == Step(old(Now()), Publish(sid, uid, noEcho, saved, stuck))
    {
      StepStaysSound(Now(), Publish(sid, uid, noEcho, saved, stuck));
      if inactive || readOnly {
        return;
      }
      var mode := if uid in perUser then perUser[uid].want * perUser[uid].given else {};
      assert mode == ModeOf(Now(), uid);
      if Write !in mode || !saved {
        return;
      }
      var skip := if noEcho then Some(sid) else None;
      SaveMessage(uid, skip);
      BroadcastData(lastID, skip, stuck);
    }

    method SaveMessage(uid: Uid, skip: Option<Sid>)
      requires uid in perUser && OnlineOK(Now())
      modifies this`posts, this`stored, this`lastID, this`perUser
      ensures Now() == Record(old(Now()), uid, skip) && OnlineOK(Now())
    {
      ghost var was := perUser;
      posts := posts + [Post(lastID + 1, skip, Readers(Now()), quiet)];
      stored := stored + [lastID + 1];
      lastID := lastID + 1;
      perUser := perUser[uid := perUser[uid].(readID := lastID, recvID := lastID)];
      CarriedCounts(sessions, was, perUser);
    }

    method HandleNote(uid: Uid, kind: NoteKind, id: int, saved: bool)
      requires Valid()
      modifies this`perUser
      ensures Valid() && Now() == Step(old(Now()), Note(uid, kind, id, saved))
    {
      StepStaysSound(Now(), Note(uid, kind, id, saved));
      if inactive || id > lastID || uid !in perUser {
        return;
      }
      var pud := perUser[uid];
      if Read !in pud.want * pud.given {
        return;
      }
      var mark;
      if kind.ReadNote? {
        if id <= pud.readID {
          return;
        }
        pud := pud.(readID := id);
        if pud.readID > pud.recvID {
          pud := pud.(recvID := pud.readID);
        }
        mark := pud.readID;
      } else {
        if id <= pud.recvID {
          return;
        }
        pud := pud.(recvID := id);
        if pud.readID > pud.recvID {
          pud := pud.(recvID := pud.readID);
        }
        mark := pud.recvID;
      }
      if mark > 0 {
        if !saved {
          return;
        }
        perUser := perUser[uid := pud];
      }
    }

    method DelMsg(uid: Uid, hardRequested: bool, wellFormed: bool, saved: bool)
      requires Valid()
      modifies this`delID, this`perUser
      ensures Valid() && Now() == Step(old(Now()), Request.DelMsg(uid, hardRequested, wellFormed, saved))
    {
      StepStaysSound(Now(), Request.DelMsg(uid, hardRequested, wellFormed, saved));
      var mode := if uid in perUser then perUser[uid].want * perUser[uid].given else {};
      assert mode == ModeOf(Now(), uid);
      var hard := hardRequested;
      if Delete !in mode {
        if Read !in mode {
          return;
        }
        hard := false;
      }
      if !wellFormed || !saved {
        return;
      }
      delID := delID + 1;
      if hard {
        MarkAllDeleted();
      } else {
        perUser := perUser[uid := perUser[uid].(delID := delID)];
      }
    }

    method MarkAllDeleted()
      modifies this`perUser
      ensures perUser == map u | u in old(perUser) :: old(perUser)[u].(delID := delID)
    {
      ghost var was := perUser;
      ghost var marked := map u | u in was :: was[u].(delID := delID);
      var todo := perUser.Keys;
      while |todo| > 0
        invariant todo <= was.Keys && perUser.Keys == was.Keys
        invariant forall u :: u in was ==> perUser[u] == if u in todo then was[u] else marked[u]
        decreases |todo|
      {
        var u := Pick(todo);
        todo := todo - {u};
        perUser := perUser[u := perUser[u].(delID := delID)];
      }
      assert todo == {};
      forall u | u in was ensures perUser[u] == marked[u] {
      }
      SameMap(perUser, marked);
    }
  }

  /** What is left after the sessions `gone` were dropped. */
  ghost predicate Dropped(s: State, gone: set<Sid>, sessions: map<Sid, Attached>, linked: set<Sid>, perUser: map<Uid, Member>) {
    sessions == s.sessions - gone && linked == s.linked - gone && perUser == CountDown(s.perUser, s.sessions, gone)
  }

  lemma DroppedNone(s: State, none: set<Sid>)
    requires none == {}
    ensures Dropped(s, none, s.sessions, s.linked, s.perUser)
  {
    CountDownNone(s.perUser, s.sessions, none);
  }

  lemma DroppedOneMore(s: State, gone: set<Sid>, sessions: map<Sid, Attached>, linked: set<Sid>, perUser: map<Uid, Member>, x: Sid)
    requires Dropped(s, gone, sessions, linked, perUser) && x in s.sessions && x !in gone
    ensures Dropped(s, gone + {x}, sessions - {x}, linked - {x}, CountDown(perUser, sessions, {x}))
  {
    CountDownTwice(s.perUser, s.sessions, gone, x);
    assert s.sessions - gone - {x} == s.sessions - (gone + {x});
  }

  /** Iteration over a map takes its keys in any order. */
  method Pick<T>(s: set<T>) returns (x: T)
    requires |s| > 0
    ensures x in s
  {
    x :| x in s;
  }

  lemma SameMap<K, V>(a: map<K, V>, b: map<K, V>)
    requires a.Keys == b.Keys && forall k :: k in a ==> a[k] == b[k]
    ensures a == b
  {
  }
}

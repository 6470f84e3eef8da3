/** Read, received and deletion markers stay in order over every run. */
module GroupMarkers {
  import opened AccessMode
  import opened Group
  import opened GroupFrames

  predicate Sane(m: Member, lastID: int, delID: int) {
    0 <= m.readID <= m.recvID <= lastID && 0 <= m.delID <= delID
  }

  ghost predicate MarkersOK(s: State) {
    0 <= s.lastID && 0 <= s.delID && forall u :: u in s.perUser ==> Sane(s.perUser[u], s.lastID, s.delID)
  }

  /** The markers of a member are those it had or, for a new member, zero. */
  predicate SameMarkers(m: Member, n: Member) {
    m.readID == n.readID && m.recvID == n.recvID && m.delID == n.delID
  }

  ghost predicate CarriesMarkers(s: State, t: State) {
    t.lastID == s.lastID && t.delID == s.delID &&
    forall u :: u in t.perUser ==>
      SameMarkers(t.perUser[u], if u in s.perUser then s.perUser[u] else NewMember({}, {}))
  }

  /** While a user stays subscribed its markers never move back. */
  ghost predicate MovesForward(s: State, t: State) {
    forall u :: u in s.perUser && u in t.perUser ==>
      s.perUser[u].readID <= t.perUser[u].readID && s.perUser[u].recvID <= t.perUser[u].recvID &&
      s.perUser[u].delID <= t.perUser[u].delID
  }

  lemma CarriedMarkers(s: State, t: State)
    requires MarkersOK(s) && CarriesMarkers(s, t)
    ensures MarkersOK(t) && MovesForward(s, t)
  {
  }

  lemma ThisUserSubMarkers(s: State, uid: Uid, want: Option<Mode>, default: Mode, newsub: bool, w: Writes)
    ensures CarriesMarkers(s, ThisUserSub(s, uid, want, default, newsub, w).0)
  {
    StoreSelfFrame(s, uid, want, default, w);
  }

  lemma SubscribeMarkers(s: State, sid: Sid, uid: Uid, want: Option<Mode>, default: Mode, newsub: bool, w: Writes)
    ensures CarriesMarkers(s, SubscribeSession(s, sid, uid, want, default, newsub, w))
  {
    ThisUserSubMarkers(s, uid, want, default, newsub || uid !in s.perUser, w);
  }

  lemma InviteMarkers(s: State, host: Uid, target: Uid, given: Option<Mode>, default: Mode, access: Option<Mode>, w: Writes)
    ensures CarriesMarkers(s, InviteUser(s, host, target, given, default, access, w))
  {
    StoreInviteFrame(s, host, target, given, default, access, w);
  }

  lemma DropMarkers(s: State, sids: set<Sid>)
    ensures CarriesMarkers(s, DropSessions(s, sids))
  {
  }

  lemma LeaveMarkers(s: State, sid: Sid, asUid: Uid)
    ensures CarriesMarkers(s, LeaveSession(s, sid, asUid))
  {
  }

  lemma RemovalMarkers(s: State, rows: map<Uid, Row>, uid: Uid)
    ensures CarriesMarkers(s, Evict(s.(rows := rows), uid, true))
  {
  }

  lemma RecordMarkers(s: State, uid: Uid, skip: Option<Sid>)
    requires MarkersOK(s) && uid in s.perUser
    ensures MarkersOK(Record(s, uid, skip)) && MovesForward(s, Record(s, uid, skip))
  {
  }

  lemma BroadcastMarkers(s: State, r: State, t: State)
    requires MarkersOK(r) && MovesForward(s, r)
    requires t.lastID == r.lastID && t.delID == r.delID && OnlyOnlineDiffers(r.perUser, t.perUser)
    ensures MarkersOK(t) && MovesForward(s, t)
  {
    forall u | u in t.perUser ensures SameMarkers(t.perUser[u], r.perUser[u]) {
      assert t.perUser[u].(online := 0) == r.perUser[u].(online := 0);
    }
  }

  lemma PublishMarkers(s: State, sid: Sid, uid: Uid, noEcho: bool, saved: bool, stuck: set<Sid>)
    requires MarkersOK(s)
    ensures MarkersOK(PublishMessage(s, sid, uid, noEcho, saved, stuck))
    ensures MovesForward(s, PublishMessage(s, sid, uid, noEcho, saved, stuck))
  {
    var r := Recorded(s, sid, uid, noEcho, saved);
    if uid in s.perUser {
      RecordMarkers(s, uid, if noEcho then Some(sid) else None);
    }
    PublishFrame(s, sid, uid, noEcho, saved, stuck);
    BroadcastMarkers(s, r, PublishMessage(s, sid, uid, noEcho, saved, stuck));
  }

  lemma NoteMarkersOK(s: State, uid: Uid, kind: NoteKind, id: int, saved: bool)
    requires MarkersOK(s)
    ensures MarkersOK(NoteMarkers(s, uid, kind, id, saved)) && MovesForward(s, NoteMarkers(s, uid, kind, id, saved))
  {
  }

  lemma DeleteMarkers(s: State, uid: Uid, hard: bool, wellFormed: bool, saved: bool)
    requires MarkersOK(s)
    ensures MarkersOK(DeleteMessages(s, uid, hard, wellFormed, saved))
    ensures MovesForward(s, DeleteMessages(s, uid, hard, wellFormed, saved))
  {
  }

  lemma StepKeepsMarkers(s: State, r: Request)
    requires MarkersOK(s)
    ensures MarkersOK(Step(s, r)) && MovesForward(s, Step(s, r))
  {
    match r
    case Publish(sid, uid, noEcho, saved, stuck) => PublishMarkers(s, sid, uid, noEcho, saved, stuck);
    case Note(uid, kind, id, saved) => NoteMarkersOK(s, uid, kind, id, saved);
    case DelMsg(uid, hard, wellFormed, saved) => DeleteMarkers(s, uid, hard, wellFormed, saved);
    case _ =>
      OtherRequestsCarryMarkers(s, r);
      CarriedMarkers(s, Step(s, r));
  }

  /** Subscribing anew starts from zero markers, all else about subscriptions leaves them alone. */
  lemma OtherRequestsCarryMarkers(s: State, r: Request)
    requires !r.Publish? && !r.Note? && !r.DelMsg?
    ensures CarriesMarkers(s, Step(s, r))
  {
    match r
    case Subscribe(sid, uid, want, default, newsub, w) => SubscribeMarkers(s, sid, uid, want, default, newsub, w);
    case SetSelf(uid, want, default, w) => ThisUserSubMarkers(s, uid, want, default, false, w);
    case Invite(host, target, given, default, access, w) => InviteMarkers(s, host, target, given, default, access, w);
    case Leave(sid, asUid) => LeaveMarkers(s, sid, asUid);
    case DelSub(_, target, d) => RemovalMarkers(s, if d.Deleted? then DeleteRow(s.rows, target) else s.rows, target);
    case Unsubscribe(uid, _) => RemovalMarkers(s, DeleteRow(s.rows, uid), uid);
    case DelTopic(uid, _) => RemovalMarkers(s, DeleteRow(s.rows, uid), uid);
    case DropStuck(sids) => DropMarkers(s, sids);
    case _ =>
  }

  /** If loaded markers are sane they are sane in every later state. */
  lemma {:induction false} MarkersStaySane(s: State, rs: seq<Request>)
    requires MarkersOK(s)
    ensures MarkersOK(Exec(s, rs))
    decreases |rs|
  {
    if rs != [] {
      StepKeepsMarkers(s, rs[0]);
      MarkersStaySane(Step(s, rs[0]), rs[1..]);
    }
  }
}

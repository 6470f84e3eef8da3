/** What requests leave alone: subscription requests do not touch counters and markers of existing
    members, nor sessions other than by evicting a user. */
module GroupFrames {
  import opened AccessMode
  import opened Group

  predicate SameCounters(m: Member, n: Member) {
    m.online == n.online && m.readID == n.readID && m.recvID == n.recvID && m.delID == n.delID
  }

  /** Members of `q` have the counters they had in `p`, new members start from zero. */
  ghost predicate CarriesCounters(p: map<Uid, Member>, q: map<Uid, Member>) {
    p.Keys <= q.Keys &&
    forall u :: u in q ==> SameCounters(q[u], if u in p then p[u] else NewMember({}, {}))
  }

  ghost predicate OnlyModesDiffer(s: State, t: State) {
    t == s.(rows := t.rows, perUser := t.perUser, owner := t.owner) && CarriesCounters(s.perUser, t.perUser)
  }

  lemma UpdateSelfFrame(s: State, uid: Uid, c: Change, w: Writes)
    requires uid in s.perUser && c.Change?
    ensures OnlyModesDiffer(s, UpdateSelf(s, uid, c, w).0)
  {
  }

  lemma StoreSelfFrame(s: State, uid: Uid, want: Option<Mode>, default: Mode, w: Writes)
    ensures OnlyModesDiffer(s, StoreSelf(s, uid, want, default, w).0)
  {
    if uid in s.perUser {
      var c := SelfChange(s, uid, want, default);
      if c.Change? {
        UpdateSelfFrame(s, uid, c, w);
      }
    }
  }

  lemma StoreInviteFrame(s: State, host: Uid, target: Uid, given: Option<Mode>, default: Mode, access: Option<Mode>, w: Writes)
    ensures OnlyModesDiffer(s, StoreInvite(s, host, target, given, default, access, w).0)
  {
  }

  ghost predicate OnlyOnlineDiffers(p: map<Uid, Member>, q: map<Uid, Member>) {
    p.Keys == q.Keys && forall u :: u in p ==> q[u].(online := 0) == p[u].(online := 0)
  }

  /** A broadcast changes queues, detaches overflown sessions and counts them down. */
  lemma BroadcastFrame(s: State, id: int, skip: Option<Sid>, stuck: set<Sid>)
    ensures var t := Broadcast(s, id, skip, stuck);
            t == s.(sessions := t.sessions, linked := t.linked, perUser := t.perUser) &&
            OnlyOnlineDiffers(s.perUser, t.perUser)
  {
  }

  /** The state in which an accepted message is recorded but not yet broadcast, or the unchanged one. */
  ghost function Recorded(s: State, sid: Sid, uid: Uid, noEcho: bool, saved: bool): State {
    if s.inactive || s.readOnly || Write !in ModeOf(s, uid) || !saved then s
    else Record(s, uid, if noEcho then Some(sid) else None)
  }

  lemma PublishFrame(s: State, sid: Sid, uid: Uid, noEcho: bool, saved: bool, stuck: set<Sid>)
    ensures var r, t := Recorded(s, sid, uid, noEcho, saved), PublishMessage(s, sid, uid, noEcho, saved, stuck);
            t == r.(sessions := t.sessions, linked := t.linked, perUser := t.perUser) &&
            OnlyOnlineDiffers(r.perUser, t.perUser)
  {
    var r, skip := Recorded(s, sid, uid, noEcho, saved), if noEcho then Some(sid) else None;
    if r != s {
      BroadcastFrame(r, r.lastID, skip, stuck);
    }
  }
}

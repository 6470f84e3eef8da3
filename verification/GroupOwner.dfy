/** A group topic always has an owner: in memory, and in the store unless the last write of an
    ownership transfer fails. */
module GroupOwner {
  import opened AccessMode
  import opened Group
  import opened GroupFrames

  /** The owner is a cached subscriber with the owner permission both wanted and given. */
  ghost predicate OwnerOK(s: State) {
    s.owner in s.perUser && Owner in s.perUser[s.owner].Effective()
  }

  lemma EvictKeepsOwner(s: State, uid: Uid, unsub: bool)
    requires OwnerOK(s) && (unsub ==> uid != s.owner)
    ensures OwnerOK(Evict(s, uid, unsub))
  {
  }

  lemma StoreSelfKeepsOwner(s: State, uid: Uid, want: Option<Mode>, default: Mode, w: Writes)
    requires OwnerOK(s)
    ensures OwnerOK(StoreSelf(s, uid, want, default, w).0)
  {
  }

  lemma ThisUserSubKeepsOwner(s: State, uid: Uid, want: Option<Mode>, default: Mode, newsub: bool, w: Writes)
    requires OwnerOK(s)
    ensures OwnerOK(ThisUserSub(s, uid, want, default, newsub, w).0)
  {
    StoreSelfKeepsOwner(s, uid, want, default, w);
    EvictKeepsOwner(StoreSelf(s, uid, want, default, w).0, uid, false);
  }

  lemma StoreInviteKeepsOwner(s: State, host: Uid, target: Uid, given: Option<Mode>, default: Mode, access: Option<Mode>, w: Writes)
    requires OwnerOK(s)
    ensures OwnerOK(StoreInvite(s, host, target, given, default, access, w).0)
  {
  }

  predicate TouchesModes(r: Request) {
    r.Subscribe? || r.SetSelf? || r.Invite? || r.DelSub? || r.Unsubscribe? || r.DelTopic?
  }

  ghost predicate SameModes(s: State, t: State) {
    t.owner == s.owner && t.rows == s.rows && t.perUser.Keys == s.perUser.Keys &&
    forall u :: u in s.perUser ==> t.perUser[u].want == s.perUser[u].want && t.perUser[u].given == s.perUser[u].given
  }

  lemma PublishKeepsModes(s: State, sid: Sid, uid: Uid, noEcho: bool, saved: bool, stuck: set<Sid>)
    ensures SameModes(s, PublishMessage(s, sid, uid, noEcho, saved, stuck))
  {
    PublishFrame(s, sid, uid, noEcho, saved, stuck);
  }

  lemma DropKeepsModes(s: State, sids: set<Sid>)
    ensures SameModes(s, DropSessions(s, sids))
  {
  }

  lemma LeaveKeepsModes(s: State, sid: Sid, asUid: Uid)
    ensures SameModes(s, LeaveSession(s, sid, asUid))
  {
  }

  lemma NoteKeepsModes(s: State, uid: Uid, kind: NoteKind, id: int, saved: bool)
    ensures SameModes(s, NoteMarkers(s, uid, kind, id, saved))
  {
  }

  lemma DeleteKeepsModes(s: State, uid: Uid, hard: bool, wellFormed: bool, saved: bool)
    ensures SameModes(s, DeleteMessages(s, uid, hard, wellFormed, saved))
  {
  }

  /** Messages, notes and sessions coming and going change neither modes nor ownership. */
  lemma OtherRequestsKeepModes(s: State, r: Request)
    requires !TouchesModes(r)
    ensures SameModes(s, Step(s, r))
  {
    match r
    case Publish(sid, uid, noEcho, saved, stuck) => PublishKeepsModes(s, sid, uid, noEcho, saved, stuck);
    case Leave(sid, asUid) => LeaveKeepsModes(s, sid, asUid);
    case DropStuck(sids) => DropKeepsModes(s, sids);
    case Note(uid, kind, id, saved) => NoteKeepsModes(s, uid, kind, id, saved);
    case DelMsg(uid, hard, wellFormed, saved) => DeleteKeepsModes(s, uid, hard, wellFormed, saved);
    case _ =>
  }

  lemma StepKeepsOwner(s: State, r: Request)
    requires OwnerOK(s)
    ensures OwnerOK(Step(s, r))
  {
    if !TouchesModes(r) {
      OtherRequestsKeepModes(s, r);
    } else if r.Subscribe? {
      ThisUserSubKeepsOwner(s, r.uid, r.want, r.default, r.newsub || r.uid !in s.perUser, r.writes);
    } else if r.SetSelf? {
      ThisUserSubKeepsOwner(s, r.uid, r.want, r.default, false, r.writes);
    } else if r.Invite? {
      StoreInviteKeepsOwner(s, r.host, r.target, r.given, r.default, r.access, r.writes);
    }
  }

  /** No sequence of requests leaves the group without an owner. */
  lemma {:induction false} AlwaysOwned(s: State, rs: seq<Request>)
    requires OwnerOK(s)
    ensures OwnerOK(Exec(s, rs))
    decreases |rs|
  {
    if rs != [] {
      StepKeepsOwner(s, rs[0]);
      AlwaysOwned(Step(s, rs[0]), rs[1..]);
    }
  }

  lemma EvictKeepsModes(s: State, uid: Uid)
    ensures SameModes(s, Evict(s, uid, false))
  {
  }

  lemma ThisUserSubOwnership(s: State, uid: Uid, want: Option<Mode>, default: Mode, newsub: bool, w: Writes)
    ensures SameModes(StoreSelf(s, uid, want, default, w).0, ThisUserSub(s, uid, want, default, newsub, w).0)
  {
    var t := StoreSelf(s, uid, want, default, w).0;
    EvictKeepsModes(t, uid);
    assert ThisUserSub(s, uid, want, default, newsub, w).0 in {t, Evict(t, uid, false)};
  }

  /** Attaching the session changes no modes either. */
  lemma SubscribeModes(s: State, sid: Sid, uid: Uid, want: Option<Mode>, default: Mode, newsub: bool, w: Writes)
    requires !s.inactive && sid !in s.linked
    ensures SameModes(StoreSelf(s, uid, want, default, w).0, SubscribeSession(s, sid, uid, want, default, newsub, w))
  {
    ThisUserSubOwnership(s, uid, want, default, newsub || uid !in s.perUser, w);
    var t := ThisUserSub(s, uid, want, default, newsub || uid !in s.perUser, w).0;
    if uid in t.perUser {
      AttachKeepsModes(t, sid, uid);
    }
  }

  lemma AttachKeepsModes(s: State, sid: Sid, uid: Uid)
    requires uid in s.perUser
    ensures SameModes(s, Attach(s, sid, uid))
  {
  }

  lemma UpdateSelfOwnership(s: State, uid: Uid, c: Change, w: Writes)
    requires OwnerOK(s) && uid in s.perUser && c.Change? && (Owner in c.given ==> Owner in s.perUser[uid].given)
    ensures var t := UpdateSelf(s, uid, c, w).0;
            (t.owner != s.owner ==> t.owner == uid && c.transfer) &&
            forall u :: u in s.perUser ==>
              u in t.perUser && (Owner in t.perUser[u].given ==> Owner in s.perUser[u].given)
  {
  }

  lemma StoreSelfOwnership(s: State, uid: Uid, want: Option<Mode>, default: Mode, w: Writes)
    requires OwnerOK(s)
    ensures var t := StoreSelf(s, uid, want, default, w).0;
            t.owner != s.owner ==>
              t.owner == uid && want.Some? && Owner in want.value &&
              uid in s.perUser && Owner in s.perUser[uid].given && Owner !in s.perUser[uid].want
    ensures var t := StoreSelf(s, uid, want, default, w).0;
            forall u :: u in s.perUser ==>
              u in t.perUser && (Owner in t.perUser[u].given ==> Owner in s.perUser[u].given)
  {
    if uid in s.perUser {
      var c := SelfChange(s, uid, want, default);
      if c.Change? {
        UpdateSelfOwnership(s, uid, c, w);
      }
    }
  }

  lemma StoreInviteOwnership(s: State, host: Uid, target: Uid, given: Option<Mode>, default: Mode, access: Option<Mode>, w: Writes)
    ensures var t := StoreInvite(s, host, target, given, default, access, w).0;
            t.owner == s.owner && s.perUser.Keys <= t.perUser.Keys &&
            forall u :: u in s.perUser && Owner in t.perUser[u].given && Owner !in s.perUser[u].given
              ==> host == s.owner && target == u
  {
  }

  /** The request accepts ownership, which its user was granted. */
  predicate AcceptsOwnership(s: State, r: Request) {
    (r.Subscribe? || r.SetSelf?) && r.want.Some? && Owner in r.want.value &&
    r.uid in s.perUser && Owner in s.perUser[r.uid].given && Owner !in s.perUser[r.uid].want
  }

  lemma SelfRequestOwnership(s: State, r: Request)
    requires OwnerOK(s) && (r.Subscribe? || r.SetSelf?)
    ensures Step(s, r).owner != s.owner ==> Step(s, r).owner == r.uid && AcceptsOwnership(s, r)
    ensures forall u :: u in s.perUser && u in Step(s, r).perUser && Owner in Step(s, r).perUser[u].given ==> Owner in s.perUser[u].given
  {
    StoreSelfOwnership(s, r.uid, r.want, r.default, r.writes);
    if r.SetSelf? {
      ThisUserSubOwnership(s, r.uid, r.want, r.default, false, r.writes);
    } else if !s.inactive && r.sid !in s.linked {
      SubscribeModes(s, r.sid, r.uid, r.want, r.default, r.newsub, r.writes);
    }
  }

  /** Ownership only passes to a user who asks for it while holding a grant of it, and a subscriber is
      given the owner permission by the owner alone. */
  lemma OwnershipByConsent(s: State, r: Request)
    requires OwnerOK(s)
    ensures Step(s, r).owner != s.owner ==> AcceptsOwnership(s, r) && Step(s, r).owner == r.uid
    ensures var t := Step(s, r);
            forall u :: u in s.perUser && u in t.perUser && Owner in t.perUser[u].given && Owner !in s.perUser[u].given ==>
              r.Invite? && r.host == s.owner && r.target == u
  {
    if !TouchesModes(r) {
      OtherRequestsKeepModes(s, r);
    } else if r.Subscribe? || r.SetSelf? {
      SelfRequestOwnership(s, r);
    } else if r.Invite? {
      StoreInviteOwnership(s, r.host, r.target, r.given, r.default, r.access, r.writes);
    }
  }

  // ----- the store

  ghost predicate StoredOwner(rows: map<Uid, Row>, u: Uid) {
    u in rows && !rows[u].deleted && Owner in rows[u].want && Owner in rows[u].given
  }

  ghost predicate HasStoredOwner(rows: map<Uid, Row>) {
    exists u :: StoredOwner(rows, u)
  }

  /** Every cached subscriber is stored, a grant of ownership is stored, and the owner in memory is an
      owner in the store. */
  ghost predicate StoreOK(s: State) {
    (forall u :: u in s.perUser ==> u in s.rows && !s.rows[u].deleted) &&
    (forall u :: u in s.perUser && Owner in s.perUser[u].given ==> Owner in s.rows[u].given) &&
    s.owner in s.rows && Owner in s.rows[s.owner].want
  }

  /** The request is an accepted transfer whose last write fails, after the old owner was stripped. */
  predicate Stranded(s: State, r: Request) {
    (r.Subscribe? || r.SetSelf?) && (r.Subscribe? ==> !s.inactive && r.sid !in s.linked) &&
    r.uid in s.perUser &&
    var c := SelfChange(s, r.uid, r.want, r.default);
    c.Change? && c.transfer && r.writes.own && r.writes.oldOwner && !r.writes.topic
  }

  lemma UpdateSelfAndStore(s: State, uid: Uid, c: Change, w: Writes)
    requires OwnerOK(s) && StoreOK(s) && uid in s.perUser && c.Change?
    requires Owner in c.given <==> Owner in s.perUser[uid].given
    requires c.transfer ==> Owner in c.want && Owner in c.given && Owner !in s.perUser[uid].want
    requires uid == s.owner ==> Owner in c.want
    requires !(c.transfer && w.own && w.oldOwner && !w.topic)
    ensures StoreOK(UpdateSelf(s, uid, c, w).0)
  {
  }

  lemma StoreSelfAndStore(s: State, uid: Uid, want: Option<Mode>, default: Mode, w: Writes)
    requires OwnerOK(s) && StoreOK(s)
    requires uid in s.perUser ==> !Stranded(s, SetSelf(uid, want, default, w))
    ensures StoreOK(StoreSelf(s, uid, want, default, w).0)
  {
    if uid in s.perUser {
      var c := SelfChange(s, uid, want, default);
      if c.Change? {
        UpdateSelfAndStore(s, uid, c, w);
      }
    }
  }

  lemma StrandedStore(s: State, uid: Uid, want: Option<Mode>, default: Mode, newsub: bool, w: Writes)
    requires OwnerOK(s) && StoreOK(s) && Stranded(s, SetSelf(uid, want, default, w))
    ensures var t := ThisUserSub(s, uid, want, default, newsub, w).0;
            !StoreOK(t) && StoredOwner(t.rows, uid) && !StoredOwner(t.rows, s.owner) && t.owner == s.owner
  {
  }

  lemma ThisUserSubAndStore(s: State, uid: Uid, want: Option<Mode>, default: Mode, newsub: bool, w: Writes)
    requires OwnerOK(s) && StoreOK(s) && !Stranded(s, SetSelf(uid, want, default, w))
    ensures StoreOK(ThisUserSub(s, uid, want, default, newsub, w).0)
  {
    StoreSelfAndStore(s, uid, want, default, w);
  }

  lemma SubscribeAndStore(s: State, r: Request)
    requires OwnerOK(s) && StoreOK(s) && r.Subscribe?
    ensures StoreOK(Step(s, r)) <==> !Stranded(s, r)
  {
    var isNew := r.newsub || r.uid !in s.perUser;
    if s.inactive || r.sid in s.linked {
    } else if Stranded(s, SetSelf(r.uid, r.want, r.default, r.writes)) {
      StrandedStore(s, r.uid, r.want, r.default, isNew, r.writes);
    } else {
      ThisUserSubAndStore(s, r.uid, r.want, r.default, isNew, r.writes);
    }
  }

  lemma SetSelfAndStore(s: State, r: Request)
    requires OwnerOK(s) && StoreOK(s) && r.SetSelf?
    ensures StoreOK(Step(s, r)) <==> !Stranded(s, r)
  {
    if Stranded(s, r) {
      StrandedStore(s, r.uid, r.want, r.default, false, r.writes);
    } else {
      ThisUserSubAndStore(s, r.uid, r.want, r.default, false, r.writes);
    }
  }

  lemma StoreInviteAndStore(s: State, host: Uid, target: Uid, given: Option<Mode>, default: Mode, access: Option<Mode>, w: Writes)
    requires OwnerOK(s) && StoreOK(s)
    ensures StoreOK(StoreInvite(s, host, target, given, default, access, w).0)
  {
  }

  lemma RemovalAndStore(s: State, uid: Uid, deleted: bool)
    requires OwnerOK(s) && StoreOK(s) && uid != s.owner
    ensures StoreOK(Evict(if deleted then s.(rows := DeleteRow(s.rows, uid)) else s, uid, true))
  {
  }

  /** The store keeps naming the owner in memory if and only if the request is not a transfer that
      fails at its last write. */
  lemma StoreKeptIffNotStranded(s: State, r: Request)
    requires OwnerOK(s) && StoreOK(s)
    ensures StoreOK(Step(s, r)) <==> !Stranded(s, r)
  {
    if !TouchesModes(r) {
      OtherRequestsKeepModes(s, r);
    } else if r.Subscribe? {
      SubscribeAndStore(s, r);
    } else if r.SetSelf? {
      SetSelfAndStore(s, r);
    } else if r.Invite? {
      StoreInviteAndStore(s, r.host, r.target, r.given, r.default, r.access, r.writes);
    } else if r.DelSub? && r.target != s.owner {
      RemovalAndStore(s, r.target, r.deletion.Deleted?);
    } else if (r.Unsubscribe? || r.DelTopic?) && r.uid != s.owner {
      RemovalAndStore(s, r.uid, true);
    }
  }

  /** Whatever prefix of its store writes a request gets through, some stored subscription still has
      the owner permission in effect. */
  lemma EveryPrefixLeavesAStoredOwner(s: State, r: Request)
    requires OwnerOK(s) && StoreOK(s)
    ensures HasStoredOwner(Step(s, r).rows)
  {
    StepKeepsOwner(s, r);
    StoreKeptIffNotStranded(s, r);
    var t := Step(s, r);
    if Stranded(s, r) {
      var isNew := r.Subscribe? && (r.newsub || r.uid !in s.perUser);
      StrandedStore(s, r.uid, r.want, r.default, isNew, r.writes);
      assert StoredOwner(t.rows, r.uid);
    } else {
      assert StoredOwner(t.rows, t.owner);
    }
  }

  /** No request of the sequence is a transfer that fails at its last write. */
  ghost predicate NeverStranded(s: State, rs: seq<Request>)
    decreases |rs|
  {
    rs == [] || (!Stranded(s, rs[0]) && NeverStranded(Step(s, rs[0]), rs[1..]))
  }

  lemma {:induction false} StoreAlwaysOwned(s: State, rs: seq<Request>)
    requires OwnerOK(s) && StoreOK(s) && NeverStranded(s, rs)
    ensures StoreOK(Exec(s, rs)) && HasStoredOwner(Exec(s, rs).rows)
    decreases |rs|
  {
    if rs == [] {
      assert StoredOwner(s.rows, s.owner);
    } else {
      StepKeepsOwner(s, rs[0]);
      StoreKeptIffNotStranded(s, rs[0]);
      StoreAlwaysOwned(Step(s, rs[0]), rs[1..]);
    }
  }

  // ----- creating and loading

  /** A freshly created group: the creator has every permission given and may not give up joining or
      owning. */
  function NewGroup(creator: Uid, want: Option<Mode>, maxSubs: nat): State {
    var w := if want.Some? then want.value + {Join, Owner} else FULL;
    State(0, 0, creator, map[creator := NewMember(w, FULL)], map[], {}, {}, {}, false, false, maxSubs,
          map[creator := Row(w, FULL, false)], [], [])
  }

  lemma NewGroupIsOwned(creator: Uid, want: Option<Mode>, maxSubs: nat)
    ensures OwnerOK(NewGroup(creator, want, maxSubs)) && StoreOK(NewGroup(creator, want, maxSubs))
    ensures var s := NewGroup(creator, want, maxSubs);
            s.owner == creator && s.perUser.Keys == {creator} && s.rows.Keys == {creator} && s.perUser[creator].given == FULL &&
            s.perUser[creator].want == (if want.None? then FULL else want.value + {Join, Owner}) &&
            s.rows[creator] == Row(s.perUser[creator].want, FULL, false)
  {
  }

  /** A stored subscription as the loader sees it. */
  datatype Loaded = Loaded(uid: Uid, want: Mode, given: Mode, readID: int, recvID: int, delID: int)

  function LoadedMember(l: Loaded): Member {
    Member(0, l.readID, l.recvID, l.delID, l.want, l.given)
  }

  /** The loader lists the subscriptions which are not deleted, once each, in any order. */
  ghost predicate Lists(subs: seq<Loaded>, rows: map<Uid, Row>) {
    (forall k :: 0 <= k < |subs| ==>
      subs[k].uid in rows && rows[subs[k].uid] == Row(subs[k].want, subs[k].given, false)) &&
    (forall u :: u in rows && !rows[u].deleted ==> exists k :: 0 <= k < |subs| && subs[k].uid == u) &&
    Distinct(subs)
  }

  function LoadMembers(subs: seq<Loaded>): map<Uid, Member> {
    if subs == [] then map[]
    else
      var last := subs[|subs| - 1];
      LoadMembers(subs[..|subs| - 1])[last.uid := LoadedMember(last)]
  }

  /** The last effective owner listed wins. */
  function LoadOwner(subs: seq<Loaded>): Uid {
    if subs == [] then ZERO_UID
    else
      var last := subs[|subs| - 1];
      if Owner in last.given * last.want then last.uid else LoadOwner(subs[..|subs| - 1])
  }

  ghost predicate Distinct(subs: seq<Loaded>) {
    forall j, k :: 0 <= j < k < |subs| ==> subs[j].uid != subs[k].uid
  }

  lemma {:induction false} LoadedOne(subs: seq<Loaded>, u: Uid)
    requires Distinct(subs)
    ensures u in LoadMembers(subs) <==> exists k :: 0 <= k < |subs| && subs[k].uid == u
    ensures forall k :: 0 <= k < |subs| && subs[k].uid == u ==> u in LoadMembers(subs) && LoadMembers(subs)[u] == LoadedMember(subs[k])
    decreases |subs|
  {
    if subs != [] {
      var before := subs[..|subs| - 1];
      assert forall k :: 0 <= k < |before| ==> before[k] == subs[k];
      LoadedOne(before, u);
      if u in LoadMembers(before) {
        var k :| 0 <= k < |before| && before[k].uid == u;
        assert subs[k].uid == u;
      }
      assert u == subs[|subs| - 1].uid ==> subs[|subs| - 1].uid == u;
    }
  }

  lemma {:induction false} LoadedOwner(subs: seq<Loaded>)
    ensures (exists k :: 0 <= k < |subs| && Owner in subs[k].want * subs[k].given) ==>
              exists k :: 0 <= k < |subs| && subs[k].uid == LoadOwner(subs) && Owner in subs[k].want * subs[k].given
    ensures (forall k :: 0 <= k < |subs| ==> Owner !in subs[k].want * subs[k].given) ==> LoadOwner(subs) == ZERO_UID
    decreases |subs|
  {
    if subs != [] {
      var before, last := subs[..|subs| - 1], subs[|subs| - 1];
      assert forall k :: 0 <= k < |before| ==> before[k] == subs[k];
      LoadedOwner(before);
      if Owner !in last.given * last.want {
        if k :| 0 <= k < |subs| && Owner in subs[k].want * subs[k].given {
          assert Owner in before[k].want * before[k].given;
          var j :| 0 <= j < |before| && before[j].uid == LoadOwner(before) && Owner in before[j].want * before[j].given;
          assert subs[j].uid == LoadOwner(subs);
        }
      } else {
        assert subs[|subs| - 1].uid == LoadOwner(subs);
      }
    }
  }

  /** What is loaded are exactly the stored subscriptions, and an owner from any store that has one. */
  lemma LoadingRecoversAnOwner(subs: seq<Loaded>, rows: map<Uid, Row>)
    requires Lists(subs, rows)
    ensures forall u :: u in LoadMembers(subs) <==> u in rows && !rows[u].deleted
    ensures forall u :: u in LoadMembers(subs) ==> LoadMembers(subs)[u].want == rows[u].want && LoadMembers(subs)[u].given == rows[u].given
    ensures HasStoredOwner(rows) ==> StoredOwner(rows, LoadOwner(subs)) && LoadOwner(subs) in LoadMembers(subs)
    ensures !HasStoredOwner(rows) ==> LoadOwner(subs) == ZERO_UID
  {
    forall u
      ensures u in LoadMembers(subs) <==> u in rows && !rows[u].deleted
      ensures u in LoadMembers(subs) ==> LoadMembers(subs)[u].want == rows[u].want && LoadMembers(subs)[u].given == rows[u].given
    {
      LoadedOne(subs, u);
    }
    LoadedOwner(subs);
    if HasStoredOwner(rows) {
      var u :| StoredOwner(rows, u);
      var k :| 0 <= k < |subs| && subs[k].uid == u;
      assert Owner in subs[k].want * subs[k].given;
    } else {
      forall k | 0 <= k < |subs| ensures Owner !in subs[k].want * subs[k].given {
        assert !StoredOwner(rows, subs[k].uid);
      }
    }
  }

  /** The loading loop; it finds an owner in any store that has one. */
  method LoadSubscribers(subs: seq<Loaded>, ghost rows: map<Uid, Row>) returns (perUser: map<Uid, Member>, owner: Uid)
    requires Lists(subs, rows)
    ensures perUser == LoadMembers(subs) && owner == LoadOwner(subs)
    ensures forall u :: u in perUser <==> u in rows && !rows[u].deleted
    ensures HasStoredOwner(rows) ==> StoredOwner(rows, owner) && owner in perUser && Owner in perUser[owner].Effective()
    ensures !HasStoredOwner(rows) ==> owner == ZERO_UID
  {
    LoadingRecoversAnOwner(subs, rows);
    perUser, owner := map[], ZERO_UID;
    for k := 0 to |subs|
      invariant perUser == LoadMembers(subs[..k]) && owner == LoadOwner(subs[..k])
    {
      var sub := subs[k];
      assert subs[..k + 1][..k] == subs[..k];
      perUser := perUser[sub.uid := Member(0, sub.readID, sub.recvID, sub.delID, sub.want, sub.given)];
      if Owner in sub.given * sub.want {
        owner := sub.uid;
      }
    }
    assert subs[..|subs|] == subs;
  }
}

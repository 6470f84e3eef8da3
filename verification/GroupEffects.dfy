/** What each request achieves, and exactly when: stated by the guards a caller can check, without the
    functions that describe the requests. */
module GroupEffects {
  import opened AccessMode
  import opened Group
  import opened GroupOwner
  import opened GroupSoleOwner

  // ----- a request for oneself

  /** The owner may neither give up ownership nor ban itself, and nobody may ask for ownership without
      a grant. */
  predicate Refuses(s: State, uid: Uid, want: Option<Mode>)
    requires uid in s.perUser
  {
    want.Some? &&
    if uid == s.owner then Owner !in want.value || Join !in want.value
    else Owner in want.value && Owner !in s.perUser[uid].given
  }

  /** The mode a subscriber wants after its request; without one a ban is lifted. */
  function AskedMode(s: State, uid: Uid, want: Option<Mode>, default: Mode): Mode
    requires uid in s.perUser
  {
    var m := s.perUser[uid];
    if want.Some? then want.value else if Join in m.want then m.want else m.given + default
  }

  /** A subscriber with a grant of ownership who asks for ownership adds all it asks for to its grant, an
      admin who asks to stay one all but deletion. */
  function OwnGrant(s: State, uid: Uid, want: Option<Mode>): Mode
    requires uid in s.perUser
  {
    var given := s.perUser[uid].given;
    if want.None? then given
    else if Owner in given then if Owner in want.value then given + want.value else given
    else if IsAdmin(given) && IsAdmin(want.value) then given + (want.value - {Delete})
    else given
  }

  predicate Alters(s: State, uid: Uid, want: Option<Mode>, default: Mode)
    requires uid in s.perUser
  {
    AskedMode(s, uid, want, default) != s.perUser[uid].want || OwnGrant(s, uid, want) != s.perUser[uid].given
  }

  /** The subscriber accepts a transfer of ownership. */
  predicate TakesOver(s: State, uid: Uid, want: Option<Mode>)
    requires uid in s.perUser
  {
    want.Some? && Owner in want.value && Owner in s.perUser[uid].given && Owner !in s.perUser[uid].want
  }

  predicate Succeeds(s: State, uid: Uid, want: Option<Mode>, default: Mode, w: Writes)
    requires uid in s.perUser
  {
    !Refuses(s, uid, want) && (Alters(s, uid, want, default) ==> w.own) && (TakesOver(s, uid, want) ==> w.oldOwner && w.topic)
  }

  lemma SelfChangeIs(s: State, uid: Uid, want: Option<Mode>, default: Mode)
    requires OwnerOK(s) && uid in s.perUser
    ensures SelfChange(s, uid, want, default) ==
            if Refuses(s, uid, want) then Denied
            else Change(AskedMode(s, uid, want, default), OwnGrant(s, uid, want), TakesOver(s, uid, want))
  {
  }

  /** A successful request gives the subscriber the mode asked for and the grant it may add to, and takes
      ownership over from the old owner if it is such a request; any other changes no modes. */
  lemma StoreSelfEffect(s: State, uid: Uid, want: Option<Mode>, default: Mode, w: Writes)
    requires OwnerOK(s) && uid in s.perUser
    ensures var (t, ok) := StoreSelf(s, uid, want, default, w);
            ok == Succeeds(s, uid, want, default, w) &&
            (ok ==> t.perUser.Keys == s.perUser.Keys && t.sessions == s.sessions && t.linked == s.linked &&
                    t.perUser[uid] == s.perUser[uid].(want := AskedMode(s, uid, want, default), given := OwnGrant(s, uid, want)) &&
                    t.owner == (if TakesOver(s, uid, want) then uid else s.owner)) &&
            (!ok ==> t == s.(rows := t.rows))
  {
    SelfChangeIs(s, uid, want, default);
  }

  /** The transfer itself: the old owner loses the owner flag in cache and store, the new one has it in
      both modes in cache and store, everybody else is untouched. */
  lemma TransferEffect(s: State, uid: Uid, want: Option<Mode>, default: Mode, w: Writes)
    requires OwnerOK(s) && uid in s.perUser && TakesOver(s, uid, want) && Succeeds(s, uid, want, default, w)
    ensures var t := StoreSelf(s, uid, want, default, w).0;
            t.owner == uid && Owner in t.perUser[uid].want && Owner in t.perUser[uid].given &&
            Owner !in t.perUser[s.owner].want && Owner !in t.perUser[s.owner].given &&
            forall u :: u in s.perUser && u != uid && u != s.owner ==> t.perUser[u] == s.perUser[u]
    ensures StoreOK(s) ==>
            var t := StoreSelf(s, uid, want, default, w).0;
            StoredOwner(t.rows, uid) && s.owner in t.rows && Owner !in t.rows[s.owner].want && Owner !in t.rows[s.owner].given
  {
    SelfChangeIs(s, uid, want, default);
  }

  /** A request for oneself that is handled at all. */
  predicate Handled(s: State, r: Request) {
    r.SetSelf? || (r.Subscribe? && !s.inactive && r.sid !in s.linked)
  }

  lemma HandledModes(s: State, r: Request)
    requires Handled(s, r)
    ensures SameModes(StoreSelf(s, r.uid, r.want, r.default, r.writes).0, Step(s, r))
  {
    if r.SetSelf? {
      ThisUserSubOwnership(s, r.uid, r.want, r.default, false, r.writes);
    } else {
      SubscribeModes(s, r.sid, r.uid, r.want, r.default, r.newsub, r.writes);
    }
  }

  /** The owner changes if and only if a subscriber with a grant of ownership asks for it and all three
      writes succeed. */
  lemma TransferIff(s: State, r: Request)
    requires OwnerOK(s)
    ensures Step(s, r).owner != s.owner <==>
            AcceptsOwnership(s, r) && Handled(s, r) && r.writes.own && r.writes.oldOwner && r.writes.topic
    ensures Step(s, r).owner != s.owner ==>
            var t := Step(s, r);
            t.owner == r.uid && s.owner in t.perUser && r.uid in t.perUser &&
            Owner in t.perUser[r.uid].want && Owner in t.perUser[r.uid].given &&
            Owner !in t.perUser[s.owner].want && Owner !in t.perUser[s.owner].given
    ensures Step(s, r).owner != s.owner && StoreOK(s) ==>
            var t := Step(s, r);
            StoredOwner(t.rows, r.uid) && s.owner in t.rows && Owner !in t.rows[s.owner].want && Owner !in t.rows[s.owner].given
  {
    OwnershipByConsent(s, r);
    if Handled(s, r) {
      HandledModes(s, r);
      if r.uid in s.perUser {
        StoreSelfEffect(s, r.uid, r.want, r.default, r.writes);
        if TakesOver(s, r.uid, r.want) && Succeeds(s, r.uid, r.want, r.default, r.writes) {
          TransferEffect(s, r.uid, r.want, r.default, r.writes);
        }
      }
    }
  }

  /** What a successful request stores: the modes that changed, and nothing of anybody but the old owner
      in a transfer. */
  lemma StoredModes(s: State, uid: Uid, want: Option<Mode>, default: Mode, w: Writes, u: Uid)
    requires OwnerOK(s) && uid in s.perUser && Succeeds(s, uid, want, default, w) && u in s.rows
    ensures var rows := StoreSelf(s, uid, want, default, w).0.rows;
            var asked, grant := AskedMode(s, uid, want, default), OwnGrant(s, uid, want);
            u in rows &&
            (u == uid ==>
               rows[u] == Row(if asked != s.perUser[u].want then asked else s.rows[u].want,
                              if grant != s.perUser[u].given then grant else s.rows[u].given, s.rows[u].deleted)) &&
            (u != uid && !(u == s.owner && TakesOver(s, uid, want)) ==> rows[u] == s.rows[u])
  {
    SelfChangeIs(s, uid, want, default);
  }

  // ----- a user who is not subscribed

  /** The grant of an older subscription counts, otherwise the default. */
  function FirstGrant(s: State, uid: Uid, default: Mode): Mode {
    if uid in s.rows then s.rows[uid].given else default
  }

  predicate Admits(s: State, uid: Uid, default: Mode, w: Writes) {
    |s.perUser| < s.maxSubs && w.read && Join in FirstGrant(s, uid, default) && (w.own || (uid in s.rows && !s.rows[uid].deleted))
  }

  lemma AdmissionEffect(s: State, uid: Uid, want: Option<Mode>, default: Mode, w: Writes)
    requires uid !in s.perUser
    ensures var (t, ok) := StoreSelf(s, uid, want, default, w);
            ok == Admits(s, uid, default, w) && t.sessions == s.sessions && t.linked == s.linked && t.owner == s.owner &&
            (ok ==> t.perUser == s.perUser[uid := Member(0, 0, 0, 0, want.GetOr(default), FirstGrant(s, uid, default))] &&
                    uid in t.rows && !t.rows[uid].deleted && t.rows[uid].given == FirstGrant(s, uid, default)) &&
            (!ok ==> t == s)
  {
  }

  // ----- attaching a session

  /** The user is or becomes a subscriber and is not banned. A self-banned user whose request changes
      nothing is let in all the same. */
  predicate MayAttach(s: State, r: Request)
    requires r.Subscribe?
  {
    if r.uid !in s.perUser then Admits(s, r.uid, r.default, r.writes) && Join in r.want.GetOr(r.default)
    else
      Succeeds(s, r.uid, r.want, r.default, r.writes) &&
      if Join in AskedMode(s, r.uid, r.want, r.default) then Join in OwnGrant(s, r.uid, r.want)
      else !r.newsub && !Alters(s, r.uid, r.want, r.default)
  }

  lemma SubscriptionOutcome(s: State, r: Request)
    requires OwnerOK(s) && r.Subscribe?
    ensures var (t, o) := ThisUserSub(s, r.uid, r.want, r.default, r.newsub || r.uid !in s.perUser, r.writes);
            (o.Applied? && r.uid in t.perUser && (o.changed ==> Join in t.perUser[r.uid].Effective())) <==> MayAttach(s, r)
  {
    if r.uid in s.perUser {
      StoreSelfEffect(s, r.uid, r.want, r.default, r.writes);
    } else {
      AdmissionEffect(s, r.uid, r.want, r.default, r.writes);
    }
  }

  /** A session is attached by a subscription exactly if the topic is active, the session does not hold
      a link to it and the user may attach; it then starts with an empty queue, holds a link and counts. */
  lemma AttachIff(s: State, r: Request)
    requires OwnerOK(s) && r.Subscribe? && r.sid !in s.sessions
    ensures r.sid in Step(s, r).sessions <==> Handled(s, r) && MayAttach(s, r)
    ensures Handled(s, r) && MayAttach(s, r) ==>
            var t, before := Step(s, r), ThisUserSub(s, r.uid, r.want, r.default, r.newsub || r.uid !in s.perUser, r.writes).0;
            t.sessions[r.sid] == Attached(r.uid, s.lastID, []) && r.sid in t.linked && r.uid in t.perUser && r.uid in before.perUser &&
            t.perUser[r.uid].online == before.perUser[r.uid].online + 1
  {
    if Handled(s, r) {
      SubscriptionOutcome(s, r);
      SubscriptionKeepsSessions(s, r.uid, r.want, r.default, r.newsub || r.uid !in s.perUser, r.writes);
    }
  }

  lemma SubscriptionKeepsSessions(s: State, uid: Uid, want: Option<Mode>, default: Mode, newsub: bool, w: Writes)
    requires OwnerOK(s)
    ensures var t := ThisUserSub(s, uid, want, default, newsub, w).0;
            t.lastID == s.lastID && forall x :: x in t.sessions ==> x in s.sessions
  {
    if uid in s.perUser {
      StoreSelfEffect(s, uid, want, default, w);
    } else {
      AdmissionEffect(s, uid, want, default, w);
    }
  }

  /** A request for oneself detaches sessions only of a user who bans itself, and then all of them. */
  lemma BanDetaches(s: State, r: Request)
    requires OwnerOK(s) && r.SetSelf? && r.uid in s.perUser
    ensures var banned := Succeeds(s, r.uid, r.want, r.default, r.writes) && Join !in AskedMode(s, r.uid, r.want, r.default);
            Step(s, r).sessions == if banned then s.sessions - SessionsOf(s.sessions, r.uid) else s.sessions
  {
    StoreSelfEffect(s, r.uid, r.want, r.default, r.writes);
  }

  // ----- invites and removals

  /** An invite changes the grant of a subscriber, except for one that would take ownership or joining
      from the owner. */
  predicate ChangesGrant(s: State, r: Request)
    requires r.Invite? && r.target in s.perUser
  {
    MayInvite(s, r.host, r.target, r.given) && r.given.Some? && r.given.value != s.perUser[r.target].given && r.writes.own &&
    !(r.target == s.owner && !({Owner, Join} <= r.given.value))
  }

  lemma StoredGrant(s: State, r: Request)
    requires r.Invite? && r.target in s.perUser
    ensures var (t, ok) := StoreInvite(s, r.host, r.target, r.given, r.default, r.access, r.writes);
            var m := s.perUser[r.target];
            if ChangesGrant(s, r)
            then ok && t == s.(perUser := s.perUser[r.target := m.(given := r.given.value)], rows := t.rows) &&
                 (r.target in s.rows ==> t.rows == s.rows[r.target := s.rows[r.target].(given := r.given.value)])
            else t == s
  {
  }

  /** A changed grant is stored and cached; a grant without joining detaches the user's sessions. */
  lemma GrantEffect(s: State, r: Request)
    requires r.Invite? && r.target in s.perUser
    ensures var t, m := Step(s, r), s.perUser[r.target];
            t.owner == s.owner && t.perUser.Keys == s.perUser.Keys && t.perUser[r.target].want == m.want &&
            t.perUser[r.target].given == (if ChangesGrant(s, r) then r.given.value else m.given)
    ensures var t := Step(s, r);
            r.target in s.rows ==>
              r.target in t.rows && t.rows[r.target] == if ChangesGrant(s, r) then s.rows[r.target].(given := r.given.value) else s.rows[r.target]
    ensures ChangesGrant(s, r) ==>
            Step(s, r).sessions == if Join in r.given.value then s.sessions else s.sessions - SessionsOf(s.sessions, r.target)
  {
    StoredGrant(s, r);
    EvictKeepsModes(StoreInvite(s, r.host, r.target, r.given, r.default, r.access, r.writes).0, r.target);
  }

  /** The wish a newly invited user is given: that of an older subscription, or what it lets others ask
      of it within the grant. */
  function FirstWish(s: State, r: Request): Option<Mode>
    requires r.Invite?
  {
    if r.target in s.rows then Some(s.rows[r.target].want)
    else if r.access.Some? then Some(r.access.value * r.given.GetOr(r.default + {Join}))
    else None
  }

  lemma InviteEffect(s: State, r: Request)
    requires r.Invite? && r.target !in s.perUser
    ensures var t := Step(s, r);
            var grant, wish := r.given.GetOr(r.default + {Join}), FirstWish(s, r);
            (r.target in t.perUser <==>
               MayInvite(s, r.host, r.target, r.given) && |s.perUser| < s.maxSubs && r.writes.read && r.writes.own &&
               wish.Some? && Join in wish.value) &&
            (r.target in t.perUser ==>
               t.perUser[r.target] == Member(0, 0, 0, 0, wish.value, grant) && r.target in t.rows && t.rows[r.target] == Row(wish.value, grant, false))
  {
  }

  /** All sessions of the user are gone, those which are not terminating are told, others stay. */
  ghost predicate Evicted(s: State, t: State, uid: Uid) {
    uid !in t.perUser && (forall u :: u != uid && u in s.perUser ==> u in t.perUser && t.perUser[u] == s.perUser[u]) &&
    (forall x :: x in s.sessions && s.sessions[x].uid == uid ==> x !in t.sessions && (x !in s.quiet ==> x in t.detaching)) &&
    forall x :: x in s.sessions && s.sessions[x].uid != uid ==> x in t.sessions && t.sessions[x] == s.sessions[x]
  }

  /** An admin removes another subscriber who is neither an effective owner nor self-banned. */
  lemma RemovalIff(s: State, r: Request)
    requires r.DelSub? && r.target in s.perUser
    ensures r.target !in Step(s, r).perUser <==>
            IsAdmin(ModeOf(s, r.host)) && r.target != r.host && r.target != ZERO_UID &&
            Owner !in ModeOf(s, r.target) && Join in s.perUser[r.target].want && !r.deletion.Failed?
    ensures r.target !in Step(s, r).perUser ==>
            Evicted(s, Step(s, r), r.target) &&
            (r.deletion.Deleted? && r.target in s.rows ==> r.target in Step(s, r).rows && Step(s, r).rows[r.target].deleted)
    ensures r.target in Step(s, r).perUser ==> Step(s, r) == s
  {
  }

  /** Anybody but the owner unsubscribes, which deletes the stored subscription. */
  lemma UnsubscribeIff(s: State, r: Request)
    requires r.Unsubscribe? || r.DelTopic?
    ensures var t := Step(s, r);
            if r.uid != s.owner && r.deletion.Deleted? && (r.Unsubscribe? ==> !s.inactive)
            then Evicted(s, t, r.uid) && (r.uid in s.rows ==> r.uid in t.rows && t.rows[r.uid] == s.rows[r.uid].(deleted := true)) &&
                 forall u :: u in s.rows && u != r.uid ==> u in t.rows && t.rows[u] == s.rows[u]
            else t == s
  {
  }

  /** A session leaves exactly if it is attached for the user it names, if any, in an active topic. */
  lemma LeaveIff(s: State, sid: Sid, asUid: Uid)
    requires sid in s.sessions && s.sessions[sid].uid in s.perUser
    ensures var t := Step(s, Leave(sid, asUid));
            var uid := s.sessions[sid].uid;
            if !s.inactive && asUid in {ZERO_UID, uid}
            then sid !in t.sessions && sid !in t.linked && t.perUser[uid] == s.perUser[uid].(online := s.perUser[uid].online - 1) &&
                 forall x :: x in s.sessions && x != sid ==> x in t.sessions && t.sessions[x] == s.sessions[x]
            else t == s
  {
  }

  // ----- messages and markers

  predicate Accepts(s: State, r: Request)
    requires r.Publish?
  {
    !s.inactive && !s.readOnly && Write in ModeOf(s, r.uid) && r.saved
  }

  /** The session is to get what is published by `r`. */
  predicate Gets(s: State, r: Request, x: Sid)
    requires r.Publish? && x in s.sessions
  {
    !(r.noEcho && x == r.sid) && Read in ModeOf(s, s.sessions[x].uid) && x !in s.quiet
  }

  lemma RecordKeepsReaders(s: State, uid: Uid, skip: Option<Sid>)
    requires uid in s.perUser
    ensures forall u :: ModeOf(Record(s, uid, skip), u) == ModeOf(s, u)
  {
  }

  /** An accepted message takes the next id, is stored and counts as read by its sender; each attached
      session that is to get it has it next on its queue, or is detached if the queue is full. */
  lemma PublishEffect(s: State, r: Request)
    requires r.Publish?
    ensures !Accepts(s, r) ==> Step(s, r) == s
    ensures Accepts(s, r) ==>
            var t := Step(s, r);
            t.lastID == s.lastID + 1 && t.stored == s.stored + [t.lastID] && r.uid in t.perUser &&
            t.perUser[r.uid].readID == t.lastID && t.perUser[r.uid].recvID == t.lastID
    ensures Accepts(s, r) ==>
            forall x :: x in s.sessions ==>
              var t, a := Step(s, r), s.sessions[x];
              (x in t.sessions <==> !(Gets(s, r, x) && x in r.stuck)) &&
              (x in t.sessions ==> t.sessions[x] == a.(queued := if Gets(s, r, x) then a.queued + [s.lastID + 1] else a.queued))
  {
    if Accepts(s, r) {
      RecordKeepsReaders(s, r.uid, if r.noEcho then Some(r.sid) else None);
    }
  }

  /** A note of a reader about a message that exists moves its marker there, if this is forward and can
      be stored; reading implies having received. Anything else changes nothing. */
  lemma NoteEffect(s: State, uid: Uid, kind: NoteKind, id: int, saved: bool)
    requires uid in s.perUser && 0 <= s.perUser[uid].readID <= s.perUser[uid].recvID
    ensures var t := Step(s, Note(uid, kind, id, saved));
            var m := s.perUser[uid];
            if !s.inactive && id <= s.lastID && Read in m.Effective() && saved && id > (if kind.ReadNote? then m.readID else m.recvID)
            then t == s.(perUser := s.perUser[uid := if kind.ReadNote? then m.(readID := id, recvID := if id > m.recvID then id else m.recvID)
                                                     else m.(recvID := id)])
            else t == s
  {
  }

  /** A deletion takes the next id. A hard one, which takes the right to delete, marks all subscribers,
      a soft one the user alone. */
  lemma DeleteEffect(s: State, r: Request)
    requires r.DelMsg?
    ensures var t := Step(s, r);
            var mode := ModeOf(s, r.uid);
            if (Delete in mode || Read in mode) && r.wellFormed && r.saved
            then t.delID == s.delID + 1 && t.perUser.Keys == s.perUser.Keys && r.uid in s.perUser &&
                 forall u :: u in s.perUser ==>
                   t.perUser[u] == if (r.hard && Delete in mode) || u == r.uid then s.perUser[u].(delID := t.delID) else s.perUser[u]
            else t == s
  {
  }
}

/** When the owner of a group is its only effective owner. The code aims for at least one: a transfer
    strips the old owner, but there are other ways to hold the owner flag wanted and given. */
module GroupSoleOwner {
  import opened AccessMode
  import opened Group
  import opened GroupOwner
  import opened GroupAccess

  /** The user has the owner flag wanted and given while the owner is another one. */
  predicate SecondOwner(s: State, u: Uid) {
    u in s.perUser && Owner in s.perUser[u].want && Owner in s.perUser[u].given && u != s.owner
  }

  predicate SoleOwner(s: State) {
    forall u :: u in s.perUser ==> !SecondOwner(s, u)
  }

  // ----- the ways to a second owner

  /** A user without a cached record is admitted with ownership in its grant, which comes from an older
      subscription or the defaults, and in the mode it asks for, which is not checked. */
  predicate AdmittedAsOwner(s: State, uid: Uid, want: Option<Mode>, default: Mode, w: Writes) {
    uid !in s.perUser && |s.perUser| < s.maxSubs && w.read &&
    var given := if uid in s.rows then s.rows[uid].given else default;
    Join in given && Owner in given && Owner in want.GetOr(default) && (w.own || (uid in s.rows && !s.rows[uid].deleted))
  }

  /** A subscriber who had banned itself and holds a grant of ownership comes back without asking for a
      mode: it then wants all it is given. */
  predicate ReturnsAsOwner(s: State, uid: Uid, want: Option<Mode>, w: Writes) {
    uid in s.perUser && uid != s.owner && want.None? && Join !in s.perUser[uid].want && Owner in s.perUser[uid].given && w.own
  }

  predicate MayInvite(s: State, host: Uid, target: Uid, given: Option<Mode>) {
    host != target && IsSharer(ModeOf(s, host)) && !s.readOnly &&
    (given.Some? ==> IsAdmin(ModeOf(s, host)) && (Owner in given.value ==> host == s.owner))
  }

  /** An invited user who is not cached wants what its older subscription says or what it lets others
      ask of it; a cached one already wants ownership and is now given it. */
  predicate InvitedAsOwner(s: State, host: Uid, target: Uid, given: Option<Mode>, default: Mode, access: Option<Mode>, w: Writes) {
    MayInvite(s, host, target, given) && w.own &&
    if target in s.perUser then
      target != s.owner && given.Some? && Owner in given.value && Owner in s.perUser[target].want
    else
      |s.perUser| < s.maxSubs && w.read && Owner in given.GetOr(default) &&
      if target in s.rows then Join in s.rows[target].want && Owner in s.rows[target].want
      else access.Some? && Owner in access.value && Join in access.value && (given.Some? ==> Join in given.value)
  }

  predicate MakesSecondOwner(s: State, r: Request) {
    match r
    case Subscribe(sid, uid, want, default, _, w) =>
      !s.inactive && sid !in s.linked && (AdmittedAsOwner(s, uid, want, default, w) || ReturnsAsOwner(s, uid, want, w))
    case SetSelf(uid, want, default, w) => AdmittedAsOwner(s, uid, want, default, w) || ReturnsAsOwner(s, uid, want, w)
    case Invite(host, target, given, default, access, w) => InvitedAsOwner(s, host, target, given, default, access, w)
    case _ => false
  }

  // ----- one request

  /** Whether the owner is the only one depends on modes alone. */
  lemma SoleByModes(s: State, t: State)
    requires SameModes(s, t)
    ensures SoleOwner(s) <==> SoleOwner(t)
  {
    if SoleOwner(t) {
      forall u | u in s.perUser ensures !SecondOwner(s, u) {
        assert !SecondOwner(t, u);
      }
    }
  }

  lemma AddMemberSole(s: State, uid: Uid, want: Option<Mode>, default: Mode, w: Writes)
    requires OwnerOK(s) && SoleOwner(s) && uid !in s.perUser
    ensures SoleOwner(AddMember(s, uid, want, default, w).0) <==> !AdmittedAsOwner(s, uid, want, default, w)
  {
    var t := AddMember(s, uid, want, default, w).0;
    if AdmittedAsOwner(s, uid, want, default, w) {
      assert SecondOwner(t, uid);
    }
  }

  lemma UpdateSelfSole(s: State, uid: Uid, want: Option<Mode>, default: Mode, w: Writes)
    requires OwnerOK(s) && SoleOwner(s) && uid in s.perUser && SelfChange(s, uid, want, default).Change?
    ensures SoleOwner(UpdateSelf(s, uid, SelfChange(s, uid, want, default), w).0) <==> !ReturnsAsOwner(s, uid, want, w)
  {
    var c := SelfChange(s, uid, want, default);
    var t := UpdateSelf(s, uid, c, w).0;
    assert !SecondOwner(s, uid);
    if ReturnsAsOwner(s, uid, want, w) {
      assert SecondOwner(t, uid);
    }
  }

  lemma StoreSelfSole(s: State, uid: Uid, want: Option<Mode>, default: Mode, w: Writes)
    requires OwnerOK(s) && SoleOwner(s)
    ensures SoleOwner(StoreSelf(s, uid, want, default, w).0) <==>
            !(AdmittedAsOwner(s, uid, want, default, w) || ReturnsAsOwner(s, uid, want, w))
  {
    if uid !in s.perUser {
      AddMemberSole(s, uid, want, default, w);
    } else if SelfChange(s, uid, want, default).Change? {
      UpdateSelfSole(s, uid, want, default, w);
    }
  }

  lemma StoreInviteSole(s: State, host: Uid, target: Uid, given: Option<Mode>, default: Mode, access: Option<Mode>, w: Writes)
    requires OwnerOK(s) && SoleOwner(s)
    ensures SoleOwner(StoreInvite(s, host, target, given, default, access, w).0) <==>
            !InvitedAsOwner(s, host, target, given, default, access, w)
  {
    var t := StoreInvite(s, host, target, given, default, access, w).0;
    if InvitedAsOwner(s, host, target, given, default, access, w) {
      assert SecondOwner(t, target);
    }
  }

  lemma EvictSole(s: State, uid: Uid, unsub: bool)
    requires unsub ==> uid != s.owner && SoleOwner(s)
    ensures SoleOwner(s) <==> SoleOwner(Evict(s, uid, unsub))
  {
    if !unsub {
      SoleByModes(s, Evict(s, uid, unsub));
    }
  }

  lemma InviteSole(s: State, r: Request)
    requires OwnerOK(s) && SoleOwner(s) && r.Invite?
    ensures SoleOwner(Step(s, r)) <==> !MakesSecondOwner(s, r)
  {
    StoreInviteSole(s, r.host, r.target, r.given, r.default, r.access, r.writes);
    EvictSole(StoreInvite(s, r.host, r.target, r.given, r.default, r.access, r.writes).0, r.target, false);
  }

  lemma SelfSole(s: State, r: Request)
    requires OwnerOK(s) && SoleOwner(s) && (r.Subscribe? || r.SetSelf?)
    ensures SoleOwner(Step(s, r)) <==> !MakesSecondOwner(s, r)
  {
    var t := StoreSelf(s, r.uid, r.want, r.default, r.writes).0;
    StoreSelfSole(s, r.uid, r.want, r.default, r.writes);
    if r.SetSelf? {
      ThisUserSubOwnership(s, r.uid, r.want, r.default, false, r.writes);
      SoleByModes(t, Step(s, r));
    } else if !s.inactive && r.sid !in s.linked {
      SubscribeModes(s, r.sid, r.uid, r.want, r.default, r.newsub, r.writes);
      SoleByModes(t, Step(s, r));
    }
  }

  lemma RemovalSole(s: State, r: Request)
    requires OwnerOK(s) && SoleOwner(s) && (r.DelSub? || r.Unsubscribe? || r.DelTopic?)
    ensures SoleOwner(Step(s, r))
  {
    var uid := if r.DelSub? then r.target else r.uid;
    if uid != s.owner {
      EvictSole(s, uid, true);
      EvictSole(s.(rows := DeleteRow(s.rows, uid)), uid, true);
    }
  }

  /** A request leaves the owner the only effective owner if and only if it is none of those. */
  lemma SoleOwnerKeptIff(s: State, r: Request)
    requires OwnerOK(s) && SoleOwner(s)
    ensures SoleOwner(Step(s, r)) <==> !MakesSecondOwner(s, r)
  {
    if !TouchesModes(r) {
      OtherRequestsKeepModes(s, r);
      SoleByModes(s, Step(s, r));
    } else if r.Invite? {
      InviteSole(s, r);
    } else if r.Subscribe? || r.SetSelf? {
      SelfSole(s, r);
    } else {
      RemovalSole(s, r);
    }
  }

  // ----- whole runs

  /** No request of the run makes a second owner. */
  predicate NeverSecondOwner(s: State, rs: seq<Request>)
    decreases |rs|
  {
    rs == [] || (!MakesSecondOwner(s, rs[0]) && NeverSecondOwner(Step(s, rs[0]), rs[1..]))
  }

  /** Over every run: the owner is the only effective owner in all states of the run if and only if none
      of its requests makes a second one. */
  lemma {:induction false} SoleOwnerThroughoutIff(s: State, rs: seq<Request>)
    requires OwnerOK(s) && SoleOwner(s)
    ensures (forall k :: 0 <= k <= |rs| ==> SoleOwner(Exec(s, rs[..k]))) <==> NeverSecondOwner(s, rs)
    decreases |rs|
  {
    if rs != [] {
      var t, rest := Step(s, rs[0]), rs[1..];
      StepKeepsOwner(s, rs[0]);
      SoleOwnerKeptIff(s, rs[0]);
      forall k | 0 <= k <= |rest| ensures Exec(t, rest[..k]) == Exec(s, rs[..k + 1]) {
        assert rs[..k + 1][1..] == rest[..k];
      }
      if SoleOwner(t) {
        SoleOwnerThroughoutIff(t, rest);
        assert forall k :: 0 < k <= |rs| ==> Exec(s, rs[..k]) == Exec(t, rest[..k - 1]);
        assert rs[..0] == [];
      } else {
        assert Exec(t, rest[..0]) == t;
        assert !SoleOwner(Exec(s, rs[..1]));
      }
    }
  }

  lemma NewGroupHasSoleOwner(creator: Uid, want: Option<Mode>, maxSubs: nat)
    ensures SoleOwner(NewGroup(creator, want, maxSubs))
  {
  }
}

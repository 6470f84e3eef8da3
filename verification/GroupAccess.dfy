/** Who may change whose permissions: a subscriber's wishes are its own, grants come from admins. */
module GroupAccess {
  import opened AccessMode
  import opened Group
  import opened GroupOwner

  predicate AsksForSelf(r: Request, u: Uid) {
    (r.Subscribe? || r.SetSelf?) && r.uid == u
  }

  predicate Unsubscribes(r: Request) {
    r.Unsubscribe? || r.DelTopic?
  }

  predicate InvitedByAdmin(s: State, r: Request, u: Uid) {
    r.Invite? && r.target == u && r.host != u && r.given.Some? && IsAdmin(ModeOf(s, r.host)) &&
    (Owner in r.given.value ==> r.host == s.owner)
  }

  /** The former owner, who lost the owner flag and nothing else. */
  predicate HandedOver(s: State, t: State, u: Uid)
    requires u in s.perUser && u in t.perUser
  {
    u == s.owner && t.owner != u &&
    t.perUser[u].want == s.perUser[u].want - {Owner} && t.perUser[u].given == s.perUser[u].given - {Owner}
  }

  /** An admin may add to its own grant what it asks for, but not deletion unless it is given ownership,
      and never ownership. */
  predicate AddsAsAdmin(before: Mode, after: Mode, want: Mode) {
    IsAdmin(before) && IsAdmin(want) && before <= after <= before + want &&
    (Owner in after ==> Owner in before) && (Delete in after && Delete !in before ==> Owner in before)
  }

  lemma SelfModes(s: State, uid: Uid, want: Option<Mode>, default: Mode, w: Writes, u: Uid)
    requires OwnerOK(s) && u in s.perUser
    ensures var t := StoreSelf(s, uid, want, default, w).0;
            u in t.perUser &&
            (t.perUser[u].want != s.perUser[u].want ==> u == uid || HandedOver(s, t, u)) &&
            (t.perUser[u].given != s.perUser[u].given ==>
               HandedOver(s, t, u) || (u == uid && want.Some? && AddsAsAdmin(s.perUser[u].given, t.perUser[u].given, want.value)))
  {
    if uid in s.perUser {
      var c := SelfChange(s, uid, want, default);
      if c.Change? {
        assert c.given != s.perUser[uid].given ==> want.Some? && AddsAsAdmin(s.perUser[uid].given, c.given, want.value);
        assert c.transfer ==> uid != s.owner;
      }
    }
  }

  /** A request for oneself changes the modes as storing it does, if it is not refused at once. */
  lemma SelfRequestModes(s: State, r: Request)
    requires r.Subscribe? || r.SetSelf?
    ensures Step(s, r) == s || SameModes(StoreSelf(s, r.uid, r.want, r.default, r.writes).0, Step(s, r))
  {
    if r.SetSelf? {
      ThisUserSubOwnership(s, r.uid, r.want, r.default, false, r.writes);
    } else if !s.inactive && r.sid !in s.linked {
      SubscribeModes(s, r.sid, r.uid, r.want, r.default, r.newsub, r.writes);
    }
  }

  lemma StoreInviteModes(s: State, host: Uid, target: Uid, given: Option<Mode>, default: Mode, access: Option<Mode>, w: Writes, u: Uid)
    requires u in s.perUser
    ensures var t := StoreInvite(s, host, target, given, default, access, w).0;
            u in t.perUser && t.perUser[u].want == s.perUser[u].want &&
            (t.perUser[u].given != s.perUser[u].given ==>
               InvitedByAdmin(s, Invite(host, target, given, default, access, w), u) && t.perUser[u].given == given.value)
  {
  }

  lemma InviteModes(s: State, r: Request, u: Uid)
    requires r.Invite? && u in s.perUser
    ensures var t := Step(s, r);
            u in t.perUser && t.perUser[u].want == s.perUser[u].want &&
            (t.perUser[u].given != s.perUser[u].given ==> InvitedByAdmin(s, r, u) && t.perUser[u].given == r.given.value)
  {
    StoreInviteModes(s, r.host, r.target, r.given, r.default, r.access, r.writes, u);
  }

  /** What a subscriber wants changes only at its own request, what it is given only by an admin's
      invite or, within limits, by itself being an admin; except that the former owner loses ownership
      in a transfer. */
  lemma PermissionsChangeByRight(s: State, r: Request, u: Uid)
    requires OwnerOK(s) && u in s.perUser && u in Step(s, r).perUser
    ensures var t := Step(s, r);
            t.perUser[u].want != s.perUser[u].want ==> AsksForSelf(r, u) || HandedOver(s, t, u)
    ensures var t := Step(s, r);
            t.perUser[u].given != s.perUser[u].given ==>
              HandedOver(s, t, u) || (InvitedByAdmin(s, r, u) && t.perUser[u].given == r.given.value) ||
              (AsksForSelf(r, u) && r.want.Some? && AddsAsAdmin(s.perUser[u].given, t.perUser[u].given, r.want.value))
  {
    if !TouchesModes(r) {
      OtherRequestsKeepModes(s, r);
    } else if r.Subscribe? || r.SetSelf? {
      SelfModes(s, r.uid, r.want, r.default, r.writes, u);
      SelfRequestModes(s, r);
    } else if r.Invite? {
      InviteModes(s, r, u);
    }
  }

  /** The only requests that forget a subscriber are unsubscribing and removal. */
  lemma OthersForgetNobody(s: State, r: Request, u: Uid)
    requires OwnerOK(s) && u in s.perUser && !Unsubscribes(r) && !r.DelSub?
    ensures u in Step(s, r).perUser
  {
    if !TouchesModes(r) {
      OtherRequestsKeepModes(s, r);
    } else if r.Subscribe? || r.SetSelf? {
      SelfModes(s, r.uid, r.want, r.default, r.writes, u);
      SelfRequestModes(s, r);
    } else {
      InviteModes(s, r, u);
    }
  }

  /** A subscriber is removed only at its own request or by an admin, never the owner in the cache, and
      an effective owner only at its own request. */
  lemma RemovalByRight(s: State, r: Request, u: Uid)
    requires OwnerOK(s) && u in s.perUser && u !in Step(s, r).perUser
    ensures u != s.owner && (Owner in ModeOf(s, u) ==> Unsubscribes(r))
    ensures (Unsubscribes(r) && r.uid == u) || (r.DelSub? && r.target == u && r.host != u && IsAdmin(ModeOf(s, r.host)))
  {
    if !Unsubscribes(r) && !r.DelSub? {
      OthersForgetNobody(s, r, u);
    }
  }

  /** `u` stays subscribed throughout and is not the target of an invite. */
  ghost predicate LeftAlone(s: State, rs: seq<Request>, u: Uid)
    decreases |rs|
  {
    u in s.perUser && (rs == [] || (!(rs[0].Invite? && rs[0].target == u) && LeftAlone(Step(s, rs[0]), rs[1..], u)))
  }

  /** Over every run: a subscriber who is no admin and whom nobody invites gains no permission, whatever
      it asks for and whatever others do. */
  lemma {:induction false} NoEscalation(s: State, rs: seq<Request>, u: Uid)
    requires OwnerOK(s) && LeftAlone(s, rs, u) && !IsAdmin(s.perUser[u].given)
    ensures u in Exec(s, rs).perUser && Exec(s, rs).perUser[u].given <= s.perUser[u].given
    decreases |rs|
  {
    if rs != [] {
      var t := Step(s, rs[0]);
      StepKeepsOwner(s, rs[0]);
      PermissionsChangeByRight(s, rs[0], u);
      NoEscalation(t, rs[1..], u);
    }
  }
}

/** Runs of a new group which show that a property does not hold without its condition. User 1 creates
    the group, user 2 joins it. */
module GroupWitnesses {
  import opened AccessMode
  import opened Group
  import opened GroupOwner
  import opened GroupSoleOwner

  const OWN: Mode := {Join, Owner}
  const SAVED: Writes := Writes(true, true, true, true)
  const LAST_FAILS: Writes := Writes(true, true, true, false)

  // ----- single requests

  /** The modes of a subscriber other than the owner, in an active group. */
  ghost predicate Has(s: State, u: Uid, want: Mode, given: Mode) {
    OwnerOK(s) && !s.inactive && !s.readOnly && u in s.perUser && u != s.owner &&
    s.perUser[u].want == want && s.perUser[u].given == given
  }

  /** A user who is not subscribed, with the grant of an older subscription if there is one. */
  ghost predicate Apart(s: State, u: Uid, given: Option<Mode>) {
    OwnerOK(s) && !s.inactive && !s.readOnly && |s.perUser| < s.maxSubs && u !in s.perUser &&
    if given.Some? then u in s.rows && s.rows[u].given == given.value else u !in s.rows
  }

  /** A first subscription keeps the mode asked for as a wish, whatever it is. */
  lemma WishIsKept(s: State, sid: Sid, u: Uid, want: Mode, given: Option<Mode>, default: Mode)
    requires Apart(s, u, given) && Join in given.GetOr(default) && sid !in s.linked
    ensures Has(Step(s, Subscribe(sid, u, Some(want), default, true, SAVED)), u, want, given.GetOr(default))
  {
    var t := Step(s, Subscribe(sid, u, Some(want), default, true, SAVED));
    StepKeepsOwner(s, Subscribe(sid, u, Some(want), default, true, SAVED));
    SubscribeModes(s, sid, u, Some(want), default, true, SAVED);
    assert t.perUser[u].want == StoreSelf(s, u, Some(want), default, SAVED).0.perUser[u].want;
  }

  /** A subscriber bans itself. */
  lemma BanIsKept(s: State, u: Uid, want: Mode)
    requires Has(s, u, want, {Join})
    ensures Has(Step(s, SetSelf(u, Some({}), {Join}, SAVED)), u, {}, {Join})
  {
    StepKeepsOwner(s, SetSelf(u, Some({}), {Join}, SAVED));
    ThisUserSubOwnership(s, u, Some({}), {Join}, false, SAVED);
  }

  lemma OwnerGrants(s: State, u: Uid, want: Mode, given: Mode)
    requires Has(s, u, want, given)
    ensures Has(Step(s, Invite(s.owner, u, Some(OWN), {}, None, SAVED)), u, want, OWN)
    ensures Step(s, Invite(s.owner, u, Some(OWN), {}, None, SAVED)).owner == s.owner
  {
    StepKeepsOwner(s, Invite(s.owner, u, Some(OWN), {}, None, SAVED));
    assert Owner in ModeOf(s, s.owner);
  }

  lemma FirstRequest(s: State, a: Request, rs: seq<Request>)
    ensures Exec(s, [a] + rs) == Exec(Step(s, a), rs)
  {
    assert ([a] + rs)[1..] == rs;
  }

  lemma FourRequests(s: State, a: Request, b: Request, c: Request, d: Request)
    ensures Exec(s, [a, b, c, d]) == Step(Step(Step(Step(s, a), b), c), d)
  {
    FirstRequest(s, a, [b, c, d]);
    FirstRequest(Step(s, a), b, [c, d]);
    FirstRequest(Step(Step(s, a), b), c, [d]);
    FirstRequest(Step(Step(Step(s, a), b), c), d, []);
    assert [a] + [b, c, d] == [a, b, c, d] && [b] + [c, d] == [b, c, d] && [c] + [d] == [c, d] && [d] + [] == [d];
  }

  /** User 2 asks for ownership in its first subscription, which is kept as a wish; the owner then grants
      it. No transfer takes place. */
  lemma GrantMeetsWish()
    ensures SecondOwner(Exec(NewGroup(1, None, 8), [Subscribe("a", 2, Some(OWN), {Join}, true, SAVED),
                                                    Invite(1, 2, Some(OWN), {}, None, SAVED)]), 2)
  {
    var s := NewGroup(1, None, 8);
    var a, b := Subscribe("a", 2, Some(OWN), {Join}, true, SAVED), Invite(1, 2, Some(OWN), {}, None, SAVED);
    WishIsKept(s, "a", 2, OWN, None, {Join});
    var t := Step(s, a);
    OwnershipByConsent(s, a);
    OwnerGrants(t, 2, OWN, {Join});
    FirstRequest(s, a, [b]);
    FirstRequest(t, b, []);
    assert [a] + [b] == [a, b] && [b] + [] == [b];
  }

  /** User 2 bans itself, is granted ownership and comes back without asking for a mode. */
  lemma ReturnAfterBan()
    ensures SecondOwner(Exec(NewGroup(1, None, 8), [Subscribe("a", 2, Some({Join}), {Join}, true, SAVED),
                                                    SetSelf(2, Some({}), {Join}, SAVED), Invite(1, 2, Some(OWN), {}, None, SAVED),
                                                    SetSelf(2, None, {}, SAVED)]), 2)
  {
    var s := NewGroup(1, None, 8);
    var a, b := Subscribe("a", 2, Some({Join}), {Join}, true, SAVED), SetSelf(2, Some({}), {Join}, SAVED);
    var c, d := Invite(1, 2, Some(OWN), {}, None, SAVED), SetSelf(2, None, {}, SAVED);
    WishIsKept(s, "a", 2, {Join}, None, {Join});
    var t := Step(s, a);
    OwnershipByConsent(s, a);
    BanIsKept(t, 2, {Join});
    var u := Step(t, b);
    OwnershipByConsent(t, b);
    OwnerGrants(u, 2, {}, {Join});
    var v := Step(u, c);
    ReturnsWithGrant(v, 2);
    FourRequests(s, a, b, c, d);
  }

  lemma ReturnsWithGrant(s: State, u: Uid)
    requires Has(s, u, {}, OWN)
    ensures SecondOwner(Step(s, SetSelf(u, None, {}, SAVED)), u)
  {
    ThisUserSubOwnership(s, u, None, {}, false, SAVED);
  }

  /** User 2 is granted ownership, unsubscribes and subscribes anew asking for it: the old grant is still
      there and the mode asked for is not checked. */
  lemma GrantOutlivesSubscription()
    ensures SecondOwner(Exec(NewGroup(1, None, 8), [Invite(1, 2, Some(OWN), {}, Some({Join}), SAVED), Unsubscribe(2, Deleted),
                                                    Subscribe("a", 2, Some(OWN), {Join}, true, SAVED)]), 2)
  {
    var s := NewGroup(1, None, 8);
    var a, b := Invite(1, 2, Some(OWN), {}, Some({Join}), SAVED), Unsubscribe(2, Deleted);
    var c := Subscribe("a", 2, Some(OWN), {Join}, true, SAVED);
    InviteStoresGrant(s, 2);
    var t := Step(s, a);
    UnsubscribedKeepsGrant(t, 2, OWN);
    var u := Step(t, b);
    WishIsKept(u, "a", 2, OWN, Some(OWN), {Join});
    FirstRequest(s, a, [b, c]);
    FirstRequest(t, b, [c]);
    FirstRequest(u, c, []);
    assert [a] + [b, c] == [a, b, c] && [b] + [c] == [b, c] && [c] + [] == [c];
  }

  lemma InviteStoresGrant(s: State, u: Uid)
    requires Apart(s, u, None)
    ensures var t := Step(s, Invite(s.owner, u, Some(OWN), {}, Some({Join}), SAVED));
            Has(t, u, {Join}, OWN) && |t.perUser| == |s.perUser| + 1 && t.maxSubs == s.maxSubs && t.linked == s.linked &&
            u in t.rows && t.rows[u].given == OWN
  {
    StepKeepsOwner(s, Invite(s.owner, u, Some(OWN), {}, Some({Join}), SAVED));
    assert Owner in ModeOf(s, s.owner);
    assert {Join} * OWN == {Join};
  }

  lemma UnsubscribedKeepsGrant(s: State, u: Uid, given: Mode)
    requires OwnerOK(s) && !s.inactive && !s.readOnly && |s.perUser| < s.maxSubs && u != s.owner
    requires u in s.rows && s.rows[u].given == given
    ensures Apart(Step(s, Unsubscribe(u, Deleted)), u, Some(given)) && Step(s, Unsubscribe(u, Deleted)).linked == s.linked
  {
    StepKeepsOwner(s, Unsubscribe(u, Deleted));
    FewerKeys(s.perUser, u);
  }

  lemma FewerKeys<K, V>(m: map<K, V>, k: K)
    ensures |m - {k}| <= |m|
  {
    assert (m - {k}).Keys == m.Keys - {k};
  }

  // ----- the stored owner is lost

  /** Only `u` and the owner are stored, and the store agrees with the cache. */
  ghost predicate TwoStored(s: State, u: Uid) {
    StoreOK(s) && forall x :: x in s.rows ==> x == u || x == s.owner
  }

  lemma StoredWithUser(s: State, r: Request, u: Uid)
    requires OwnerOK(s) && StoreOK(s) && !Stranded(s, r) && Step(s, r).owner == s.owner
    requires forall x :: x in Step(s, r).rows ==> x == u || x == s.owner
    ensures TwoStored(Step(s, r), u)
  {
    StoreKeptIffNotStranded(s, r);
  }

  lemma SubscriptionStoresOne(s: State, sid: Sid, u: Uid)
    requires Apart(s, u, None) && StoreOK(s) && sid !in s.linked && forall x :: x in s.rows ==> x == s.owner
    ensures var t := Step(s, Subscribe(sid, u, Some({Join}), {Join}, true, SAVED));
            t.owner == s.owner && TwoStored(t, u)
  {
    var r := Subscribe(sid, u, Some({Join}), {Join}, true, SAVED);
    SubscribeModes(s, sid, u, Some({Join}), {Join}, true, SAVED);
    StoredWithUser(s, r, u);
  }

  lemma GrantStoresNoMore(s: State, u: Uid)
    requires Has(s, u, {Join}, {Join}) && TwoStored(s, u)
    ensures var t := Step(s, Invite(s.owner, u, Some(OWN), {}, None, SAVED));
            Has(t, u, {Join}, OWN) && t.owner == s.owner && TwoStored(t, u)
  {
    OwnerGrants(s, u, {Join}, {Join});
    StoredWithUser(s, Invite(s.owner, u, Some(OWN), {}, None, SAVED), u);
  }

  /** The old owner is stripped in the store, the cache is left alone. */
  lemma TransferIsStranded(s: State, u: Uid)
    requires Has(s, u, {Join}, OWN) && TwoStored(s, u)
    ensures var t := Step(s, SetSelf(u, Some(OWN), {}, LAST_FAILS));
            Has(t, u, {Join}, OWN) && t.owner == s.owner && u in t.rows &&
            (forall x :: x in t.rows ==> x == u || x == s.owner) && Owner !in t.rows[s.owner].want
  {
    var r := SetSelf(u, Some(OWN), {}, LAST_FAILS);
    StepKeepsOwner(s, r);
    assert SelfChange(s, u, Some(OWN), {}) == Change(OWN, OWN, true);
  }

  lemma RemovalTakesTheLast(s: State, u: Uid)
    requires Has(s, u, {Join}, OWN) && u in s.rows && s.owner in s.rows && u != ZERO_UID
    requires (forall x :: x in s.rows ==> x == u || x == s.owner) && Owner !in s.rows[s.owner].want
    ensures !HasStoredOwner(Step(s, DelSub(s.owner, u, Deleted)).rows)
  {
    assert Owner in ModeOf(s, s.owner);
    assert Owner !in ModeOf(s, u);
    var t := Step(s, DelSub(s.owner, u, Deleted));
    assert t.rows == DeleteRow(s.rows, u);
    forall x ensures !StoredOwner(t.rows, x) {
    }
  }

  /** User 2 accepts ownership from user 1 but the last write fails, so the cache still shows user 1 as
      the owner and user 2 as removable. Removing user 2 leaves the store with no owner at all. */
  lemma StrandedTransferCanLoseTheStoredOwner()
    ensures !HasStoredOwner(Exec(NewGroup(1, None, 8), [Subscribe("a", 2, Some({Join}), {Join}, true, SAVED),
                                                        Invite(1, 2, Some(OWN), {}, None, SAVED),
                                                        SetSelf(2, Some(OWN), {}, LAST_FAILS), DelSub(1, 2, Deleted)]).rows)
  {
    var s := NewGroup(1, None, 8);
    var a, b := Subscribe("a", 2, Some({Join}), {Join}, true, SAVED), Invite(1, 2, Some(OWN), {}, None, SAVED);
    var c, d := SetSelf(2, Some(OWN), {}, LAST_FAILS), DelSub(1, 2, Deleted);
    NewGroupIsOwned(1, None, 8);
    WishIsKept(s, "a", 2, {Join}, None, {Join});
    SubscriptionStoresOne(s, "a", 2);
    var t := Step(s, a);
    GrantStoresNoMore(t, 2);
    var u := Step(t, b);
    TransferIsStranded(u, 2);
    var v := Step(u, c);
    RemovalTakesTheLast(v, 2);
    FourRequests(s, a, b, c, d);
  }
}

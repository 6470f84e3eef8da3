/** The guarantees of a group topic put together: what holds after any sequence of requests, starting
    from a topic that was just created or just loaded. */
module GroupRuns {
  import opened AccessMode
  import opened Group
  import opened GroupOwner
  import opened GroupOnline
  import opened GroupMarkers
  import opened GroupDelivery

  ghost predicate Sound(s: State) {
    OwnerOK(s) && OnlineOK(s) && MarkersOK(s) && DeliveryOK(s)
  }

  /** Nobody is attached yet and nothing was published since loading. */
  ghost predicate Idle(s: State) {
    s.sessions == map[] && s.linked == {} && s.detaching == {} && s.quiet == {} && s.stored == [] && s.posts == [] &&
    forall u :: u in s.perUser ==> s.perUser[u].online == 0
  }

  lemma IdleIsSound(s: State)
    requires Idle(s) && OwnerOK(s) && MarkersOK(s)
    ensures Sound(s)
  {
    forall u | u in s.perUser ensures s.perUser[u].online == |SessionsOf(s.sessions, u)| {
      assert SessionsOf(s.sessions, u) == {};
    }
  }

  /** Every single request keeps all guarantees. */
  lemma StepStaysSound(s: State, r: Request)
    requires Sound(s)
    ensures Sound(Step(s, r))
  {
    StepKeepsOwner(s, r);
    StepKeepsOnline(s, r);
    StepKeepsMarkers(s, r);
    StepKeepsDelivery(s, r);
  }

  lemma {:induction false} RunsStaySound(s: State, rs: seq<Request>)
    requires Sound(s)
    ensures Sound(Exec(s, rs))
  {
    AlwaysOwned(s, rs);
    OnlineCountsSessions(s, rs);
    MarkersStaySane(s, rs);
    DeliveryFollowsHistory(s, rs);
  }

  /** A new group: after any run it has an owner, exact online counters, ordered markers, consecutive
      ids and exact queues; unless a transfer was stranded the store names the same owner. */
  lemma NewGroupRuns(creator: Uid, want: Option<Mode>, maxSubs: nat, rs: seq<Request>)
    ensures Sound(Exec(NewGroup(creator, want, maxSubs), rs))
    ensures NeverStranded(NewGroup(creator, want, maxSubs), rs) ==>
            StoredOwner(Exec(NewGroup(creator, want, maxSubs), rs).rows, Exec(NewGroup(creator, want, maxSubs), rs).owner)
  {
    var s := NewGroup(creator, want, maxSubs);
    NewGroupIsOwned(creator, want, maxSubs);
    IdleIsSound(s);
    RunsStaySound(s, rs);
    if NeverStranded(s, rs) {
      StoreAlwaysOwned(s, rs);
    }
  }

  // ----- reloading

  /** The topic loaded from the store: numbers and subscriptions are those stored, nobody is attached. */
  function LoadedState(s: State, subs: seq<Loaded>): State {
    State(s.lastID, s.delID, LoadOwner(subs), LoadMembers(subs), map[], {}, {}, {}, false, false, s.maxSubs, s.rows, [], [])
  }

  /** The store lists the subscriptions it holds, with markers in order. */
  ghost predicate ProperLoad(s: State, subs: seq<Loaded>) {
    Lists(subs, s.rows) && forall k :: 0 <= k < |subs| ==> Sane(LoadedMember(subs[k]), s.lastID, s.delID)
  }

  lemma LoadedMarkers(s: State, subs: seq<Loaded>)
    requires MarkersOK(s) && ProperLoad(s, subs)
    ensures MarkersOK(LoadedState(s, subs)) && Idle(LoadedState(s, subs))
  {
    forall u | u in LoadMembers(subs)
      ensures Sane(LoadMembers(subs)[u], s.lastID, s.delID) && LoadMembers(subs)[u].online == 0
    {
      LoadedOne(subs, u);
    }
  }

  /** A topic loaded from a store that has an owner has all guarantees, and the store agrees with it,
      even if a transfer was stranded before. */
  lemma LoadedIsSound(s: State, subs: seq<Loaded>)
    requires MarkersOK(s) && HasStoredOwner(s.rows) && ProperLoad(s, subs)
    ensures Sound(LoadedState(s, subs)) && StoreOK(LoadedState(s, subs)) && Idle(LoadedState(s, subs))
  {
    LoadingRecoversAnOwner(subs, s.rows);
    LoadedMarkers(s, subs);
    IdleIsSound(LoadedState(s, subs));
  }

  method Reload(s: State, subs: seq<Loaded>) returns (t: State)
    requires MarkersOK(s) && HasStoredOwner(s.rows) && ProperLoad(s, subs)
    ensures t == LoadedState(s, subs) && Sound(t) && StoreOK(t) && Idle(t)
  {
    LoadedIsSound(s, subs);
    var perUser, owner := LoadSubscribers(subs, s.rows);
    t := State(s.lastID, s.delID, owner, perUser, map[], {}, {}, {}, false, false, s.maxSubs, s.rows, [], []);
  }

  // ----- lifetimes

  /** In its life a group serves requests and is unloaded and loaded again. */
  datatype Event = Serve(r: Request) | Restart(subs: seq<Loaded>)

  function Next(s: State, e: Event): State {
    match e
    case Serve(r) => Step(s, r)
    case Restart(subs) => LoadedState(s, subs)
  }

  function Live(s: State, es: seq<Event>): State
    decreases |es|
  {
    if es == [] then s else Live(Next(s, es[0]), es[1..])
  }

  /** Loads are proper, and a stranded transfer is the last request before a load or of the life. */
  ghost predicate Proper(s: State, es: seq<Event>)
    decreases |es|
  {
    es == [] ||
    ((match es[0]
      case Serve(r) => Stranded(s, r) ==> |es| == 1 || es[1].Restart?
      case Restart(subs) => ProperLoad(s, subs)) &&
     Proper(Next(s, es[0]), es[1..]))
  }

  /** Over every such life the topic keeps all its guarantees and the store an owner. */
  lemma {:induction false} LivesStaySound(s: State, es: seq<Event>)
    requires Sound(s) && HasStoredOwner(s.rows) && (StoreOK(s) || es == [] || es[0].Restart?) && Proper(s, es)
    ensures Sound(Live(s, es)) && HasStoredOwner(Live(s, es).rows)
    decreases |es|
  {
    if es != [] {
      match es[0] {
        case Serve(r) =>
          StepStaysSound(s, r);
          EveryPrefixLeavesAStoredOwner(s, r);
          StoreKeptIffNotStranded(s, r);
        case Restart(subs) =>
          LoadedIsSound(s, subs);
          assert StoredOwner(Next(s, es[0]).rows, LoadOwner(subs)) by {
            LoadingRecoversAnOwner(subs, s.rows);
          }
      }
      LivesStaySound(Next(s, es[0]), es[1..]);
    }
  }

  /** A new group in particular. */
  lemma NewGroupLives(creator: Uid, want: Option<Mode>, maxSubs: nat, es: seq<Event>)
    requires Proper(NewGroup(creator, want, maxSubs), es)
    ensures var s := Live(NewGroup(creator, want, maxSubs), es); Sound(s) && HasStoredOwner(s.rows)
  {
    var s := NewGroup(creator, want, maxSubs);
    NewGroupIsOwned(creator, want, maxSubs);
    IdleIsSound(s);
    assert StoredOwner(s.rows, creator);
    LivesStaySound(s, es);
  }
}

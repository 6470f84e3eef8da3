/** The store of live sessions. Long-polling sessions are also kept in a list with the most recently
    used first, from whose end abandoned ones are expired. */
module SessionStore {
  import opened AccessMode

  type Sid = string

  datatype Proto = WebSocket | LongPoll | Grpc | Multiplex

  datatype Session = Session(uid: int, proto: Proto, lastTouched: int)

  type Cache = map<Sid, Session>

  // ----- the list

  /** The list without `sid`. */
  function Unlink(lru: seq<Sid>, sid: Sid): seq<Sid> {
    if lru == [] then [] else (if lru[0] == sid then [] else [lru[0]]) + Unlink(lru[1..], sid)
  }

  ghost predicate NoDuplicates(lru: seq<Sid>) {
    forall i, j :: 0 <= i < j < |lru| ==> lru[i] != lru[j]
  }

  /** Exactly the cached long-polling sessions are listed. */
  ghost predicate Indexes(lru: seq<Sid>, cache: Cache) {
    forall x :: x in lru <==> x in cache && cache[x].proto == LongPoll
  }

  ghost predicate MostRecentFirst(lru: seq<Sid>, cache: Cache) {
    (forall x :: x in lru ==> x in cache) &&
    forall i, j :: 0 <= i < j < |lru| ==> cache[lru[i]].lastTouched >= cache[lru[j]].lastTouched
  }

  ghost predicate Ordered(lru: seq<Sid>, cache: Cache) {
    NoDuplicates(lru) && Indexes(lru, cache) && MostRecentFirst(lru, cache)
  }

  predicate Stale(cache: Cache, x: Sid, expire: int) {
    x in cache && cache[x].proto == LongPoll && cache[x].lastTouched < expire
  }

  function RemoveSids(cache: Cache, gone: set<Sid>): Cache {
    map x | x in cache && x !in gone :: cache[x]
  }

  /** The result of a full scan. */
  function Unexpired(cache: Cache, expire: int): Cache {
    map x | x in cache && !Stale(cache, x, expire) :: cache[x]
  }

  /** After a session is added and the cache scanned: the new one is there if it is not stale at once, and
      of the others exactly the long-polling ones not touched since `expire` are gone. */
  lemma ScanEffect(cache: Cache, sid: Sid, sess: Session, expire: int, x: Sid)
    requires sid !in cache
    ensures var after := Unexpired(cache[sid := sess], expire);
            (sess.lastTouched >= expire ==> sid in after && after[sid] == sess) &&
            (x != sid ==> (x in after <==> x in cache && !(cache[x].proto == LongPoll && cache[x].lastTouched < expire))) &&
            (x != sid && x in after ==> after[x] == cache[x])
  {
  }

  lemma {:induction false} UnlinkMembers(lru: seq<Sid>, sid: Sid)
    ensures forall x :: x in Unlink(lru, sid) <==> x in lru && x != sid
    ensures sid !in lru ==> Unlink(lru, sid) == lru
    decreases |lru|
  {
    if lru != [] {
      UnlinkMembers(lru[1..], sid);
    }
  }

  /** Unlinking keeps whatever order the list has. */
  lemma {:induction false} UnlinkKeepsOrder(lru: seq<Sid>, sid: Sid, cache: Cache)
    requires NoDuplicates(lru) && MostRecentFirst(lru, cache)
    ensures NoDuplicates(Unlink(lru, sid)) && MostRecentFirst(Unlink(lru, sid), cache)
    decreases |lru|
  {
    UnlinkMembers(lru, sid);
    if lru != [] {
      var rest := lru[1..];
      UnlinkMembers(rest, sid);
      UnlinkKeepsOrder(rest, sid, cache);
      forall x | x in Unlink(rest, sid) ensures x != lru[0] && cache[lru[0]].lastTouched >= cache[x].lastTouched {
        assert x in rest;
        var k :| 0 <= k < |rest| && rest[k] == x;
        assert lru[k + 1] == x;
      }
    }
  }

  /** The order of the list depends only on the sessions in it. */
  lemma OrderIsLocal(lru: seq<Sid>, cache: Cache, cache': Cache)
    requires MostRecentFirst(lru, cache)
    requires forall x :: x in lru ==> x in cache' && cache'[x] == cache[x]
    ensures MostRecentFirst(lru, cache')
  {
  }

  /** A session touched last of all goes to the front. */
  lemma TouchKeepsOrder(lru: seq<Sid>, cache: Cache, cache': Cache, sid: Sid)
    requires NoDuplicates(lru) && Indexes(lru, cache) && MostRecentFirst(lru, cache)
    requires sid in cache' && cache'[sid].proto == LongPoll
    requires forall x :: x != sid ==> (x in cache' <==> x in cache) && (x in cache ==> cache'[x] == cache[x])
    requires forall x :: x in cache ==> cache[x].lastTouched <= cache'[sid].lastTouched
    ensures Ordered([sid] + Unlink(lru, sid), cache')
  {
    UnlinkMembers(lru, sid);
    UnlinkKeepsOrder(lru, sid, cache);
    var rest := Unlink(lru, sid);
    OrderIsLocal(rest, cache, cache');
    var list := [sid] + rest;
    forall i, j | 0 <= i < j < |list| ensures list[i] != list[j] && cache'[list[i]].lastTouched >= cache'[list[j]].lastTouched {
      assert list[j] == rest[j - 1];
      if i > 0 {
        assert list[i] == rest[i - 1];
      }
    }
  }

  /** A session removed from both cache and list. */
  lemma DropKeepsOrder(lru: seq<Sid>, cache: Cache, cache': Cache, sid: Sid)
    requires Ordered(lru, cache)
    requires forall x :: (x in cache' <==> x in cache && x != sid) && (x in cache' ==> cache'[x] == cache[x])
    ensures Ordered(Unlink(lru, sid), cache')
  {
    UnlinkMembers(lru, sid);
    UnlinkKeepsOrder(lru, sid, cache);
    OrderIsLocal(Unlink(lru, sid), cache, cache');
  }

  /** Why the scan may stop early: if the last listed session is fresh then no cached one is stale. */
  lemma FreshEndMeansNoneStale(lru: seq<Sid>, cache: Cache, expire: int)
    requires Ordered(lru, cache)
    requires lru == [] || cache[lru[|lru| - 1]].lastTouched >= expire
    ensures forall x :: !Stale(cache, x, expire)
  {
    forall x | x in cache && cache[x].proto == LongPoll ensures cache[x].lastTouched >= expire {
      assert x in lru;
      var k :| 0 <= k < |lru| && lru[k] == x;
      assert k < |lru| - 1 ==> cache[lru[k]].lastTouched >= cache[lru[|lru| - 1]].lastTouched;
    }
  }

  lemma {:induction false} UnlinkLast(lru: seq<Sid>)
    requires lru != [] && NoDuplicates(lru)
    ensures Unlink(lru, lru[|lru| - 1]) == lru[..|lru| - 1]
    decreases |lru|
  {
    var last := lru[|lru| - 1];
    if |lru| > 1 {
      UnlinkLast(lru[1..]);
      assert lru[1..][|lru| - 2] == last;
      assert lru[0] != last;
      assert lru[..|lru| - 1] == [lru[0]] + lru[1..][..|lru| - 2];
    }
  }

  // ----- the store

  class Store {
    var sessCache: Cache
    var lru: seq<Sid>
    const lifeTime: int
    /** The time of the latest operation. */
    ghost var clock: int

    ghost predicate Valid()
      reads this
    {
      Ordered(lru, sessCache) && forall x :: x in sessCache ==> sessCache[x].lastTouched <= clock
    }

    constructor (lifeTime: int, ghost now: int)
      ensures Valid() && sessCache == map[] && clock == now && this.lifeTime == lifeTime
    {
      sessCache, lru, this.lifeTime, clock := map[], [], lifeTime, now;
    }

    /** Adds a session and expires long-polling sessions from the end of the list: exactly those which
        a scan of all sessions would find stale. A session id that is in use is refused. */
    method NewSession(sid: Sid, uid: int, proto: Proto, now: int) returns (ok: bool, expired: seq<Sid>)
      requires Valid() && clock <= now
      modifies this
      ensures Valid() && clock == now
      ensures ok == (sid !in old(sessCache))
      ensures !ok ==> sessCache == old(sessCache) && lru == old(lru) && expired == []
      ensures ok ==> sessCache == Unexpired(old(sessCache)[sid := Session(uid, proto, now)], now - lifeTime)
      ensures ok ==> forall x :: x in expired <==> Stale(old(sessCache)[sid := Session(uid, proto, now)], x, now - lifeTime)
    {
      clock := now;
      expired := [];
      ok := sid !in sessCache;
      if !ok {
        return;
      }
      UnlinkMembers(lru, sid);
      if proto == LongPoll {
        TouchKeepsOrder(lru, sessCache, sessCache[sid := Session(uid, proto, now)], sid);
        lru := [sid] + lru;
      } else {
        OrderIsLocal(lru, sessCache, sessCache[sid := Session(uid, proto, now)]);
      }
      sessCache := sessCache[sid := Session(uid, proto, now)];
      expired := Expire(now - lifeTime);
    }

    /** Removes the least recently used session. */
    method RemoveLast()
      requires Valid() && |lru| > 0
      modifies this`sessCache, this`lru
      ensures Valid() && lru == old(lru[..|lru| - 1]) && sessCache == RemoveSids(old(sessCache), {old(lru[|lru| - 1])})
    {
      var sid := lru[|lru| - 1];
      var rest := RemoveSids(sessCache, {sid});
      UnlinkLast(lru);
      DropKeepsOrder(lru, sessCache, rest, sid);
      lru, sessCache := lru[..|lru| - 1], rest;
    }

    /** Removes stale sessions from the end of the list up to the first one that is not. */
    method Expire(expire: int) returns (expired: seq<Sid>)
      requires Valid()
      modifies this`sessCache, this`lru
      ensures Valid() && sessCache == Unexpired(old(sessCache), expire)
      ensures forall x :: x in expired <==> Stale(old(sessCache), x, expire)
    {
      expired := [];
      ghost var was := sessCache;
      while |lru| > 0
        invariant Valid()
        invariant forall x :: x in expired ==> Stale(was, x, expire)
        invariant forall x :: x in sessCache <==> x in was && x !in expired
        invariant forall x :: x in sessCache ==> sessCache[x] == was[x]
        decreases |lru|
      {
        var sid := lru[|lru| - 1];
        if sessCache[sid].lastTouched < expire {
          RemoveLast();
          expired := expired + [sid];
        } else {
          break;
        }
      }
      FreshEndMeansNoneStale(lru, sessCache, expire);
      assert sessCache == Unexpired(was, expire);
    }

    /** Finds a session; a long-polling one becomes the most recent. */
    method Get(sid: Sid, now: int) returns (sess: Option<Session>)
      requires Valid() && clock <= now
      modifies this
      ensures Valid() && clock == now
      ensures sess == if sid in sessCache then Some(sessCache[sid]) else None
      ensures sessCache == if sid in old(sessCache) && old(sessCache)[sid].proto == LongPoll
                           then old(sessCache)[sid := old(sessCache)[sid].(lastTouched := now)] else old(sessCache)
      ensures lru == if sid in sessCache && sessCache[sid].proto == LongPoll then [sid] + Unlink(old(lru), sid) else old(lru)
    {
      clock := now;
      if sid !in sessCache {
        return None;
      }
      if sessCache[sid].proto == LongPoll {
        var touched := sessCache[sid := sessCache[sid].(lastTouched := now)];
        TouchKeepsOrder(lru, sessCache, touched, sid);
        lru, sessCache := [sid] + Unlink(lru, sid), touched;
      }
      return Some(sessCache[sid]);
    }

    /** Removes a session, which may have been removed before. */
    method Delete(sid: Sid, proto: Proto)
      requires Valid() && (sid in sessCache ==> sessCache[sid].proto == proto)
      modifies this`sessCache, this`lru
      ensures Valid() && sessCache == RemoveSids(old(sessCache), {sid}) && lru == Unlink(old(lru), sid)
    {
      var rest := RemoveSids(sessCache, {sid});
      DropKeepsOrder(lru, sessCache, rest, sid);
      UnlinkMembers(lru, sid);
      if proto == LongPoll {
        lru := Unlink(lru, sid);
      }
      sessCache := rest;
    }

    /** Removes all sessions of a user but one, and those which serve other nodes. */
    method EvictUser(uid: int, skipSid: Sid) returns (evicted: seq<Sid>)
      requires Valid()
      modifies this`sessCache, this`lru
      ensures Valid()
      ensures forall x :: x in evicted <==>
                x in old(sessCache) && old(sessCache)[x].uid == uid && old(sessCache)[x].proto != Multiplex && x != skipSid
      ensures forall x :: (x in sessCache <==> x in old(sessCache) && x !in evicted) &&
                          (x in sessCache ==> sessCache[x] == old(sessCache)[x])
    {
      evicted := [];
      ghost var was := sessCache;
      var todo := sessCache.Keys;
      while |todo| > 0
        invariant Valid()
        invariant forall x :: x in todo ==> x in sessCache
        invariant forall x :: x in evicted <==>
                    x in was && x !in todo && was[x].uid == uid && was[x].proto != Multiplex && x != skipSid
        invariant forall x :: (x in sessCache <==> x in was && x !in evicted) && (x in sessCache ==> sessCache[x] == was[x])
        decreases |todo|
      {
        var sid :| sid in todo;
        var sess := sessCache[sid];
        todo := todo - {sid};
        if sess.uid == uid && sess.proto != Multiplex && sid != skipSid {
          Delete(sid, sess.proto);
          evicted := evicted + [sid];
        }
      }
    }
  }
}

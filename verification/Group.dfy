/** A group topic (not a channel) with local foreground sessions: its state and what each request
    does to it. The topic serves one request at a time; every store call may fail, as told by the
    request. The stored subscriptions and messages are a part of the state. */
module Group {
  import opened AccessMode

  type Uid = int
  type Sid = string

  const ZERO_UID: Uid := 0

  /** The cached record of a subscriber. */
  datatype Member = Member(online: int, readID: int, recvID: int, delID: int, want: Mode, given: Mode) {
    function Effective(): Mode {
      want * given
    }
  }

  function NewMember(want: Mode, given: Mode): Member {
    Member(0, 0, 0, 0, want, given)
  }

  /** A stored subscription; a deleted one is kept to remember the modes. */
  datatype Row = Row(want: Mode, given: Mode, deleted: bool)

  /** An attached session: on whose behalf, the last message before it was attached and the ids of
      {data} messages put on its queue since then. */
  datatype Attached = Attached(uid: Uid, since: int, queued: seq<int>)

  /** A published message as history: the session which asked for no echo, who could read the topic
      and which sessions were terminating. */
  datatype Post = Post(id: int, skip: Option<Sid>, readers: set<Uid>, quiet: set<Sid>)

  /** `linked` are sessions which hold a link to the topic; `detaching` those told to drop it. */
  datatype State = State(
    lastID: int, delID: int, owner: Uid,
    perUser: map<Uid, Member>,
    sessions: map<Sid, Attached>,
    linked: set<Sid>, detaching: set<Sid>, quiet: set<Sid>,
    inactive: bool, readOnly: bool, maxSubs: nat,
    rows: map<Uid, Row>, stored: seq<int>, posts: seq<Post>)

  /** Outcomes of the store calls a subscription request may make: reading the old subscription,
      writing the requester's, stripping the old owner's and changing the owner of the topic. */
  datatype Writes = Writes(read: bool, own: bool, oldOwner: bool, topic: bool)

  datatype Deletion = Deleted | NotFound | Failed

  datatype NoteKind = ReadNote | RecvNote

  datatype Request =
    | Subscribe(sid: Sid, uid: Uid, want: Option<Mode>, default: Mode, newsub: bool, writes: Writes)
    | SetSelf(uid: Uid, want: Option<Mode>, default: Mode, writes: Writes)
    | Invite(host: Uid, target: Uid, given: Option<Mode>, default: Mode, access: Option<Mode>, writes: Writes)
    | DelSub(host: Uid, target: Uid, deletion: Deletion)
    | Leave(sid: Sid, asUid: Uid)
    | Unsubscribe(uid: Uid, deletion: Deletion)
    | DelTopic(uid: Uid, deletion: Deletion)
    | Publish(sid: Sid, uid: Uid, noEcho: bool, saved: bool, stuck: set<Sid>)
    | Note(uid: Uid, kind: NoteKind, id: int, saved: bool)
    | DelMsg(uid: Uid, hard: bool, wellFormed: bool, saved: bool)
    | DropStuck(sids: set<Sid>)
    | DetachDone(sid: Sid)
    | Terminate(sid: Sid)
    | SetStatus(inactive: bool, readOnly: bool)

  function ModeOf(s: State, uid: Uid): Mode {
    if uid in s.perUser then s.perUser[uid].Effective() else {}
  }

  function SessionsOf(sessions: map<Sid, Attached>, uid: Uid): set<Sid> {
    set x | x in sessions && sessions[x].uid == uid
  }

  // ----- subscriptions

  /** The modes a subscriber ends up with after asking for `want`, and whether this accepts an
      ownership transfer. */
  datatype Change = Denied | Change(want: Mode, given: Mode, transfer: bool)

  function SelfChange(s: State, uid: Uid, want: Option<Mode>, default: Mode): Change
    requires uid in s.perUser
  {
    var m := s.perUser[uid];
    match want
    case None => Change(if Join in m.want then m.want else m.given + default, m.given, false)
    case Some(w) =>
      if s.owner == uid && (Owner !in w || Join !in w) then Denied
      else if Owner in m.given then
        Change(w, if Owner in w && !(w <= m.given) then m.given + w else m.given, Owner in w && Owner !in m.want)
      else if Owner in w then Denied
      else if IsAdmin(m.given) && IsAdmin(w) && !(w - {Delete} <= m.given) then
        Change(w, m.given + (w - {Delete}), false)
      else Change(w, m.given, false)
  }

  /** Only the modes that differ from the cached ones are written. */
  function WriteModes(rows: map<Uid, Row>, uid: Uid, m: Member, want: Mode, given: Mode): map<Uid, Row> {
    if uid !in rows then rows
    else
      var r := rows[uid];
      rows[uid := Row(if want != m.want then want else r.want, if given != m.given then given else r.given, r.deleted)]
  }

  function SetModes(rows: map<Uid, Row>, uid: Uid, want: Mode, given: Mode): map<Uid, Row> {
    if uid !in rows then rows else rows[uid := Row(want, given, rows[uid].deleted)]
  }

  function DeleteRow(rows: map<Uid, Row>, uid: Uid): map<Uid, Row> {
    if uid !in rows then rows else rows[uid := rows[uid].(deleted := true)]
  }

  /** The old owner as the transfer leaves it. */
  function Stripped(s: State): Member {
    var o := if s.owner in s.perUser then s.perUser[s.owner] else NewMember({}, {});
    o.(want := o.want - {Owner}, given := o.given - {Owner})
  }

  /** Store writes and cache updates of a changed subscription. A transfer makes three writes; when
      one fails the earlier ones stay and the cache is left alone. */
  function UpdateSelf(s: State, uid: Uid, c: Change, w: Writes): (State, bool)
    requires uid in s.perUser && c.Change?
  {
    var m := s.perUser[uid];
    var changed := c.want != m.want || c.given != m.given;
    if changed && !w.own then (s, false)
    else
      var rows := if changed then WriteModes(s.rows, uid, m, c.want, c.given) else s.rows;
      var self := m.(want := c.want, given := c.given);
      if !c.transfer then (s.(rows := rows, perUser := s.perUser[uid := self]), true)
      else if !w.oldOwner then (s.(rows := rows), false)
      else
        var o := Stripped(s);
        var rows' := SetModes(rows, s.owner, o.want, o.given);
        if !w.topic then (s.(rows := rows'), false)
        else (s.(rows := rows', perUser := s.perUser[s.owner := o][uid := self], owner := uid), true)
  }

  /** A user without a cached record: modes come from an older subscription or the defaults. */
  function AddMember(s: State, uid: Uid, want: Option<Mode>, default: Mode, w: Writes): (State, bool) {
    if |s.perUser| >= s.maxSubs || !w.read then (s, false)
    else
      var given := if uid in s.rows then s.rows[uid].given else default;
      var member := NewMember(want.GetOr(default), given);
      if Join !in given then (s, false)
      else if uid in s.rows && !s.rows[uid].deleted then (s.(perUser := s.perUser[uid := member]), true)
      else if !w.own then (s, false)
      else (s.(perUser := s.perUser[uid := member], rows := s.rows[uid := Row(member.want, given, false)]), true)
  }

  /** Detaches all sessions of the user; `unsub` also forgets the user. */
  function Evict(s: State, uid: Uid, unsub: bool): State {
    var gone := SessionsOf(s.sessions, uid);
    s.(perUser := if uid !in s.perUser then s.perUser
                  else if unsub then s.perUser - {uid}
                  else s.perUser[uid := s.perUser[uid].(online := 0)],
       sessions := s.sessions - gone,
       detaching := s.detaching + (gone - s.quiet))
  }

  /** `changed` tells that new access modes are reported back to the requester. */
  datatype Outcome = Refused | Applied(changed: bool)

  function StoreSelf(s: State, uid: Uid, want: Option<Mode>, default: Mode, w: Writes): (State, bool) {
    if uid !in s.perUser then AddMember(s, uid, want, default, w)
    else
      var c := SelfChange(s, uid, want, default);
      if c.Denied? then (s, false) else UpdateSelf(s, uid, c, w)
  }

  function ThisUserSub(s: State, uid: Uid, want: Option<Mode>, default: Mode, newsub: bool, w: Writes): (State, Outcome) {
    var (t, ok) := StoreSelf(s, uid, want, default, w);
    if !ok || uid !in t.perUser then (t, Refused)
    else
      var m := t.perUser[uid];
      var before := if uid in s.perUser then s.perUser[uid] else NewMember({}, {});
      var changed := newsub || before.want != m.want || before.given != m.given;
      if Join !in m.want then (Evict(t, uid, false), Applied(changed))
      else if Join !in m.given then (t, Refused)
      else (t, Applied(changed))
  }

  function Attach(s: State, sid: Sid, uid: Uid): State
    requires uid in s.perUser
  {
    s.(linked := s.linked + {sid},
       sessions := if sid in s.sessions then s.sessions else s.sessions[sid := Attached(uid, s.lastID, [])],
       perUser := s.perUser[uid := s.perUser[uid].(online := s.perUser[uid].online + 1)])
  }

  function SubscribeSession(s: State, sid: Sid, uid: Uid, want: Option<Mode>, default: Mode, newsub: bool, w: Writes): State {
    if s.inactive || sid in s.linked then s
    else
      var (t, outcome) := ThisUserSub(s, uid, want, default, newsub || uid !in s.perUser, w);
      if outcome.Refused? || uid !in t.perUser then t
      else if outcome.changed && Join !in t.perUser[uid].Effective() then t
      else Attach(t, sid, uid)
  }

  /** Store writes and cache updates of an invite or of a changed grant. */
  function StoreInvite(s: State, host: Uid, target: Uid, given: Option<Mode>, default: Mode, access: Option<Mode>, w: Writes)
    : (State, bool)
  {
    if host == target || !IsSharer(ModeOf(s, host)) || s.readOnly then (s, false)
    else if given.Some? && !IsAdmin(ModeOf(s, host)) then (s, false)
    else if given.Some? && Owner in given.value && s.owner != host then (s, false)
    else if target !in s.perUser then
      if |s.perUser| >= s.maxSubs || !w.read || (target !in s.rows && access.None?) then (s, false)
      else
        var g := given.GetOr(default + {Join});
        var want := if target in s.rows then s.rows[target].want else access.value * g;
        if Join !in want || !w.own then (s, false)
        else (s.(perUser := s.perUser[target := NewMember(want, g)], rows := s.rows[target := Row(want, g, false)]), true)
    else
      var m := s.perUser[target];
      var g := given.GetOr(m.given);
      if g == m.given then (s, true)
      else if s.owner == target && (Owner !in g || Join !in g) then (s, false)
      else if !w.own then (s, false)
      else (s.(perUser := s.perUser[target := m.(given := g)], rows := WriteModes(s.rows, target, m, m.want, g)), true)
  }

  function InviteUser(s: State, host: Uid, target: Uid, given: Option<Mode>, default: Mode, access: Option<Mode>, w: Writes): State {
    var (t, ok) := StoreInvite(s, host, target, given, default, access, w);
    if ok && target in t.perUser && Join !in t.perUser[target].given then Evict(t, target, false) else t
  }

  function DeleteSub(s: State, host: Uid, target: Uid, d: Deletion): State {
    if !IsAdmin(ModeOf(s, host)) || target == host || target == ZERO_UID || target !in s.perUser then s
    else if Owner in ModeOf(s, target) || Join !in s.perUser[target].want || d.Failed? then s
    else Evict(if d.Deleted? then s.(rows := DeleteRow(s.rows, target)) else s, target, true)
  }

  /** {leave unsub} and, of anybody but the owner, {del topic}; only the former checks that the topic is
      active. */
  function UnsubscribeUser(s: State, uid: Uid, d: Deletion): State {
    if s.owner == uid || !d.Deleted? then s
    else Evict(s.(rows := DeleteRow(s.rows, uid)), uid, true)
  }

  // ----- sessions

  predicate CanLeave(s: State, sid: Sid, asUid: Uid) {
    !s.inactive && sid in s.sessions && (asUid == ZERO_UID || asUid == s.sessions[sid].uid) &&
    s.sessions[sid].uid in s.perUser
  }

  function LeaveSession(s: State, sid: Sid, asUid: Uid): State {
    if !CanLeave(s, sid, asUid) then s
    else
      var uid := s.sessions[sid].uid;
      s.(sessions := s.sessions - {sid}, linked := s.linked - {sid},
         perUser := s.perUser[uid := s.perUser[uid].(online := s.perUser[uid].online - 1)])
  }

  /** The user announced as "off" to the other subscribers by a leaving session, if any. */
  function AnnouncedOff(s: State, sid: Sid, asUid: Uid): Option<Uid> {
    if !CanLeave(s, sid, asUid) then None
    else
      var uid := s.sessions[sid].uid;
      if LeaveSession(s, sid, asUid).perUser[uid].online == 0 then Some(uid) else None
  }

  /** The sessions of `sids` leave, all at once. */
  function DropSessions(s: State, sids: set<Sid>): State {
    var gone := sids * s.sessions.Keys;
    s.(sessions := s.sessions - gone, linked := s.linked - gone, perUser := CountDown(s.perUser, s.sessions, gone))
  }

  function Lost(sessions: map<Sid, Attached>, gone: set<Sid>, uid: Uid): set<Sid> {
    set x | x in sessions && x in gone && sessions[x].uid == uid
  }

  /** Only the online counters go down. */
  function CountDown(perUser: map<Uid, Member>, sessions: map<Sid, Attached>, gone: set<Sid>): (r: map<Uid, Member>)
    ensures r.Keys == perUser.Keys
    ensures forall u :: u in perUser ==> r[u].(online := 0) == perUser[u].(online := 0)
  {
    map u | u in perUser :: perUser[u].(online := perUser[u].online - |Lost(sessions, gone, u)|)
  }

  // ----- messages

  /** A session gets the message unless it asked for no echo or its user cannot read. */
  predicate Receives(s: State, x: Sid, skip: Option<Sid>)
    requires x in s.sessions
  {
    skip != Some(x) && Read in ModeOf(s, s.sessions[x].uid)
  }

  /** Queues message `id`; the queues of `stuck` sessions are full. A terminating session takes the
      message silently. */
  function Deliver(s: State, id: int, skip: Option<Sid>, stuck: set<Sid>): State {
    s.(sessions := map x | x in s.sessions ::
         if Receives(s, x, skip) && x !in s.quiet && x !in stuck
         then s.sessions[x].(queued := s.sessions[x].queued + [id]) else s.sessions[x])
  }

  function Overflown(s: State, skip: Option<Sid>, stuck: set<Sid>): set<Sid> {
    set x | x in s.sessions && Receives(s, x, skip) && x !in s.quiet && x in stuck
  }

  function Readers(s: State): set<Uid> {
    set u | u in s.perUser && Read in s.perUser[u].Effective()
  }

  /** The saved message takes the next id; its sender has received and read it. */
  function Record(s: State, uid: Uid, skip: Option<Sid>): State
    requires uid in s.perUser
  {
    var id := s.lastID + 1;
    s.(lastID := id, stored := s.stored + [id],
       perUser := s.perUser[uid := s.perUser[uid].(readID := id, recvID := id)],
       posts := s.posts + [Post(id, skip, Readers(s), s.quiet)])
  }

  function Broadcast(s: State, id: int, skip: Option<Sid>, stuck: set<Sid>): State {
    DropSessions(Deliver(s, id, skip, stuck), Overflown(s, skip, stuck))
  }

  function PublishMessage(s: State, sid: Sid, uid: Uid, noEcho: bool, saved: bool, stuck: set<Sid>): State {
    if s.inactive || s.readOnly || Write !in ModeOf(s, uid) || !saved then s
    else
      var skip := if noEcho then Some(sid) else None;
      var t := Record(s, uid, skip);
      Broadcast(t, t.lastID, skip, stuck)
  }

  function Max(a: int, b: int): int {
    if a < b then b else a
  }

  /** A read or received note moves the markers forward; reading implies having received. */
  function NoteMarkers(s: State, uid: Uid, kind: NoteKind, id: int, saved: bool): State {
    if s.inactive || id > s.lastID || Read !in ModeOf(s, uid) then s
    else
      var m := s.perUser[uid];
      if id <= (if kind.ReadNote? then m.readID else m.recvID) then s
      else
        var moved := if kind.ReadNote? then m.(readID := id, recvID := Max(m.recvID, id))
                     else m.(recvID := Max(m.readID, id));
        var mark := if kind.ReadNote? then moved.readID else moved.recvID;
        if mark <= 0 || !saved then s else s.(perUser := s.perUser[uid := moved])
  }

  function DeleteMessages(s: State, uid: Uid, hard: bool, wellFormed: bool, saved: bool): State {
    var mode := ModeOf(s, uid);
    if Delete !in mode && Read !in mode then s
    else if !wellFormed || !saved then s
    else
      var id := s.delID + 1;
      if hard && Delete in mode then
        s.(delID := id, perUser := map u | u in s.perUser :: s.perUser[u].(delID := id))
      else
        s.(delID := id, perUser := s.perUser[uid := s.perUser[uid].(delID := id)])
  }

  // ----- runs

  function Step(s: State, r: Request): State {
    match r
    case Subscribe(sid, uid, want, default, newsub, w) => SubscribeSession(s, sid, uid, want, default, newsub, w)
    case SetSelf(uid, want, default, w) => ThisUserSub(s, uid, want, default, false, w).0
    case Invite(host, target, given, default, access, w) => InviteUser(s, host, target, given, default, access, w)
    case DelSub(host, target, d) => DeleteSub(s, host, target, d)
    case Leave(sid, asUid) => LeaveSession(s, sid, asUid)
    case Unsubscribe(uid, d) => if s.inactive then s else UnsubscribeUser(s, uid, d)
    case DelTopic(uid, d) => UnsubscribeUser(s, uid, d)
    case Publish(sid, uid, noEcho, saved, stuck) => PublishMessage(s, sid, uid, noEcho, saved, stuck)
    case Note(uid, kind, id, saved) => NoteMarkers(s, uid, kind, id, saved)
    case DelMsg(uid, hard, wellFormed, saved) => DeleteMessages(s, uid, hard, wellFormed, saved)
    case DropStuck(sids) => if s.inactive then s else DropSessions(s, sids)
    case DetachDone(sid) =>
      if sid !in s.detaching then s else s.(linked := s.linked - {sid}, detaching := s.detaching - {sid})
    case Terminate(sid) => s.(quiet := s.quiet + {sid})
    case SetStatus(inactive, readOnly) => s.(inactive := inactive, readOnly := readOnly)
  }

  function Exec(s: State, rs: seq<Request>): State
    decreases |rs|
  {
    if rs == [] then s else Exec(Step(s, rs[0]), rs[1..])
  }
}

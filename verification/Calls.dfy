/** Video calls on a peer-to-peer topic: inviting, answering, hanging up, timing out and leaving.
    The trace of a topic holds the messages it saved, and the endings of calls it failed to save. */
module Calls {
  import opened AccessMode

  type Uid = int
  type Sid = string

  const ZERO_UID: Uid := 0

  datatype Party = Party(uid: Uid, isOriginator: bool)

  datatype Call = Call(parties: map<Sid, Party>, id: int)

  datatype Outcome = Finished | Disconnected | Missed | Declined

  /** `Unsaved` is an ending whose message could not be saved. */
  datatype Event =
    | Plain(id: int)
    | Invite(id: int)
    | Accepted(id: int, call: int)
    | Ended(id: int, call: int, outcome: Outcome)
    | Unsaved(call: int, outcome: Outcome)

  datatype State = State(lastID: int, call: Option<Call>, armed: bool, trace: seq<Event>)

  datatype Note = Ringing | Accept | Metadata | HangUp | Unknown

  /** `saved` tells if the message which the request leads to, if any, is permitted and stored. */
  datatype Request =
    | Publish(sid: Sid, uid: Uid, isCall: bool, callsEnabled: bool, locked: bool, saved: bool)
    | CallNote(sid: Sid, uid: Uid, note: Note, call: int, inactive: bool, subscriber: bool, saved: bool)
    | Timeout(saved: bool)
    | Leave(sid: Sid, saved: bool)

  function NewTopic(lastID: int): State {
    State(lastID, None, false, [])
  }

  // ----- what a request does

  /** Nobody has the zero id, so nothing is saved on its behalf. */
  predicate CanSave(uid: Uid, saved: bool) {
    uid != ZERO_UID && saved
  }

  predicate IsOriginator(c: Call, sid: Sid) {
    sid in c.parties && c.parties[sid].isOriginator
  }

  ghost function Originator(c: Call): Option<Sid> {
    if sid :| IsOriginator(c, sid) then Some(sid) else None
  }

  function Append(s: State, e: Event): State
    requires !e.Unsaved?
  {
    s.(lastID := s.lastID + 1, trace := s.trace + [e])
  }

  /** The end of a call; `from` is the user who hung up if it was a user. */
  ghost function EndCall(s: State, from: Option<Uid>, timedOut: bool, saved: bool): State
    requires s.call.Some?
  {
    var c := s.call.value;
    var o := Originator(c);
    var caller := if o.Some? then c.parties[o.value].uid else ZERO_UID;
    var outcome := match from
      case Some(uid) => if |c.parties| == 2 then Finished else if uid == caller then Missed else Declined
      case None => if timedOut then Missed else Disconnected;
    var s' := if CanSave(caller, saved) then Append(s, Ended(s.lastID + 1, c.id, outcome))
              else s.(trace := s.trace + [Unsaved(c.id, outcome)]);
    s'.(call := None, armed := false)
  }

  /** The server ends a call. One without an originator is dropped without a word. */
  ghost function Terminate(s: State, timedOut: bool, saved: bool): State
    requires s.call.Some?
  {
    var o := Originator(s.call.value);
    if o.None? || s.call.value.parties[o.value].uid == ZERO_UID then s.(call := None)
    else EndCall(s, None, timedOut, saved)
  }

  ghost function OnPublish(s: State, r: Request): State
    requires r.Publish?
  {
    if r.locked || (r.isCall && (!r.callsEnabled || s.call.Some?)) || !CanSave(r.uid, r.saved) then s
    else if !r.isCall then Append(s, Plain(s.lastID + 1))
    else
      var id := s.lastID + 1;
      Append(s, Invite(id)).(call := Some(Call(map[r.sid := Party(r.uid, true)], id)), armed := true)
  }

  ghost function OnAnswer(s: State, r: Request): State
    requires r.CallNote? && r.note in {Ringing, Accept} && s.call.Some?
  {
    var c := s.call.value;
    var o := Originator(c);
    if |c.parties| != 1 then s
    else if o.None? then Terminate(s, false, r.saved)
    else
      var caller := c.parties[o.value].uid;
      if o.value == r.sid || caller == r.uid || r.note == Ringing || !CanSave(caller, r.saved) then s
      else Append(s, Accepted(s.lastID + 1, c.id)).(
        call := Some(c.(parties := c.parties[r.sid := Party(r.uid, false)])), armed := false)
  }

  ghost function OnHangUp(s: State, r: Request): State
    requires r.CallNote? && s.call.Some?
  {
    var c := s.call.value;
    var o := Originator(c);
    if |c.parties| == 2 && r.sid !in c.parties then s
    else if |c.parties| == 1 && o.Some? && r.uid == c.parties[o.value].uid && o.value != r.sid then s
    else EndCall(s, Some(r.uid), false, r.saved)
  }

  ghost function OnNote(s: State, r: Request): State
    requires r.CallNote?
  {
    if s.call.None? || r.inactive || s.call.value.id != r.call || !r.subscriber then s
    else match r.note
      case Ringing => OnAnswer(s, r)
      case Accept => OnAnswer(s, r)
      case HangUp => OnHangUp(s, r)
      case Metadata => s
      case Unknown => s
  }

  ghost function Step(s: State, r: Request): State {
    match r
    case Publish(_, _, _, _, _, _) => OnPublish(s, r)
    case CallNote(_, _, _, _, _, _, _) => OnNote(s, r)
    case Timeout(saved) =>
      if !s.armed then s
      else if s.call.None? then s.(armed := false) else Terminate(s.(armed := false), true, saved)
    case Leave(sid, saved) =>
      if s.call.Some? && sid in s.call.value.parties then Terminate(s, false, saved) else s
  }

  ghost function Run(s: State, rs: seq<Request>): State
    decreases |rs|
  {
    if rs == [] then s else Run(Step(s, rs[0]), rs[1..])
  }

  // ----- the parties

  /** One or two parties, exactly one of them the originator, two users if there are two. */
  ghost predicate PartiesOK(c: Call) {
    1 <= |c.parties| <= 2 &&
    exists o :: IsOriginator(c, o) && c.parties[o].uid != ZERO_UID &&
      forall x :: x in c.parties && x != o ==> !c.parties[x].isOriginator && c.parties[x].uid != c.parties[o].uid
  }

  lemma OriginatorIsUnique(c: Call)
    requires PartiesOK(c)
    ensures Originator(c).Some? && c.parties[Originator(c).value].uid != ZERO_UID
    ensures forall x :: x in c.parties && x != Originator(c).value ==>
              !c.parties[x].isOriginator && c.parties[x].uid != c.parties[Originator(c).value].uid
    ensures forall x :: IsOriginator(c, x) ==> Originator(c) == Some(x)
  {
    var o :| IsOriginator(c, o) && c.parties[o].uid != ZERO_UID &&
      forall x :: x in c.parties && x != o ==> !c.parties[x].isOriginator && c.parties[x].uid != c.parties[o].uid;
  }

  lemma SameKey<T, U>(m: map<T, U>, x: T, y: T)
    requires |m| == 1 && x in m && y in m
    ensures x == y
  {
    var rest := m.Keys - {x};
    assert |rest| == 0;
    assert y !in rest;
  }

  // ----- events passed on to a session

  /** The other party of an established call. */
  ghost function PeerOf(c: Call, sid: Sid): Option<Sid> {
    if |c.parties| != 2 || sid !in c.parties then None
    else if x :| x in c.parties && x != sid then Some(x) else None
  }

  /** Who is told that the phone rings or the call was accepted. */
  ghost function CallerOf(s: State, r: Request): Option<Sid>
    requires r.CallNote? && s.call.Some?
  {
    var c := s.call.value;
    var o := Originator(c);
    if |c.parties| != 1 || o.None? then None
    else
      var caller := c.parties[o.value].uid;
      if o.value == r.sid || caller == r.uid || (r.note == Accept && !CanSave(caller, r.saved)) then None else o
  }

  ghost function ForwardTo(s: State, r: Request): Option<Sid>
    requires r.CallNote?
  {
    if s.call.None? || r.inactive || s.call.value.id != r.call || !r.subscriber then None
    else match r.note
      case Ringing => CallerOf(s, r)
      case Accept => CallerOf(s, r)
      case Metadata => PeerOf(s.call.value, r.sid)
      case HangUp => None
      case Unknown => None
  }

  lemma ThePeer(c: Call, sid: Sid)
    requires |c.parties| == 2 && sid in c.parties
    ensures PeerOf(c, sid).Some? && forall x :: x in c.parties && x != sid ==> PeerOf(c, sid) == Some(x)
  {
    var others := c.parties - {sid};
    assert |others| == 1 by {
      assert others.Keys == c.parties.Keys - {sid};
    }
    var x :| x in others;
    forall y | y in c.parties && y != sid ensures y == x {
      SameKey(others, x, y);
    }
  }

  /** The event of one party of an established call reaches the other party, who is of another user,
      and no event of anybody else does. */
  lemma MetadataReachesThePeer(s: State, r: Request)
    requires Sound(s) && r.CallNote? && r.note == Metadata
    ensures ForwardTo(s, r).Some? <==>
              PhaseOf(s).Talking? && !r.inactive && r.subscriber && r.call == s.call.value.id && r.sid in s.call.value.parties
    ensures ForwardTo(s, r).Some? ==>
              var to, parties := ForwardTo(s, r).value, s.call.value.parties;
              to in parties && to != r.sid && parties[to].uid != parties[r.sid].uid && PeerOf(s.call.value, to) == Some(r.sid)
  {
    if s.call.Some? && |s.call.value.parties| == 2 && r.sid in s.call.value.parties {
      ThePeer(s.call.value, r.sid);
      ThePeer(s.call.value, PeerOf(s.call.value, r.sid).value);
    }
  }

  // ----- the phases of a call

  datatype Phase = Quiet | Waiting(call: int) | Talking(call: int)

  function PhaseOf(s: State): Phase {
    match s.call
    case None => Quiet
    case Some(c) => if |c.parties| == 1 then Waiting(c.id) else Talking(c.id)
  }

  /** The messages which may come next: invite, then at most one accepted, then an ending. */
  predicate Next(p: Phase, e: Event, p': Phase) {
    match e
    case Plain(_) => p' == p
    case Invite(id) => p == Quiet && p' == Waiting(id)
    case Accepted(_, c) => p == Waiting(c) && p' == Talking(c)
    case Ended(_, c, o) => p' == Quiet && Ends(p, c, o)
    case Unsaved(c, o) => p' == Quiet && Ends(p, c, o)
  }

  predicate Ends(p: Phase, c: int, o: Outcome) {
    (p == Waiting(c) && o != Finished) || (p == Talking(c) && o in {Finished, Disconnected})
  }

  /** The timer is armed exactly while a call waits for an answer. */
  ghost predicate Sound(s: State) {
    (s.call.Some? ==> PartiesOK(s.call.value)) && (s.armed <==> PhaseOf(s).Waiting?)
  }

  /** The trace grows by at most one message, of the next id, which the phase admits. */
  ghost predicate Grows(s: State, s': State) {
    (s'.trace == s.trace && s'.lastID == s.lastID && PhaseOf(s') == PhaseOf(s)) ||
    exists e :: s'.trace == s.trace + [e] && Next(PhaseOf(s), e, PhaseOf(s')) &&
                (if e.Unsaved? then s'.lastID == s.lastID else s'.lastID == s.lastID + 1 == e.id)
  }

  lemma EndCallGrows(s: State, from: Option<Uid>, timedOut: bool, saved: bool)
    requires s.call.Some? && PartiesOK(s.call.value) && (timedOut ==> PhaseOf(s).Waiting?)
    ensures Sound(EndCall(s, from, timedOut, saved)) && Grows(s, EndCall(s, from, timedOut, saved))
  {
    OriginatorIsUnique(s.call.value);
    var s' := EndCall(s, from, timedOut, saved);
    assert s'.trace == s.trace + [s'.trace[|s.trace|]];
  }

  /** Each request keeps the invariant and adds to the trace only what the call's phase admits. */
  lemma StepGrows(s: State, r: Request)
    requires Sound(s)
    ensures Sound(Step(s, r)) && Grows(s, Step(s, r))
  {
    var s' := Step(s, r);
    if s.call.Some? {
      OriginatorIsUnique(s.call.value);
    }
    match r
    case Publish(_, _, _, _, _, _) =>
      if s' != s {
        assert s'.trace == s.trace + [s'.trace[|s.trace|]];
        if r.isCall {
          assert IsOriginator(s'.call.value, r.sid);
        }
      }
    case CallNote(_, _, _, _, _, _, _) =>
      if s' != s {
        if r.note == HangUp {
          EndCallGrows(s, Some(r.uid), false, r.saved);
        } else {
          AcceptGrows(s, r);
        }
      }
    case Timeout(saved) =>
      if s.armed {
        EndCallGrows(s.(armed := false), None, true, saved);
      }
    case Leave(_, saved) =>
      if s' != s {
        EndCallGrows(s, None, false, saved);
      }
  }

  lemma AcceptGrows(s: State, r: Request)
    requires Sound(s) && s.call.Some? && r.CallNote? && r.note == Accept && OnAnswer(s, r) != s
    ensures Sound(OnAnswer(s, r)) && Grows(s, OnAnswer(s, r))
  {
    var s', c := OnAnswer(s, r), s.call.value;
    OriginatorIsUnique(c);
    assert s'.trace == s.trace + [s'.trace[|s.trace|]];
    var o := Originator(c).value;
    if r.sid in c.parties {
      SameKey(c.parties, o, r.sid);
    }
    assert IsOriginator(s'.call.value, o);
  }

  /** A note about the current call that is looked at. */
  predicate Concerns(s: State, r: Request) {
    r.CallNote? && s.call.Some? && !r.inactive && r.subscriber && r.call == s.call.value.id
  }

  /** A call in progress ends if and only if a party of an established call hangs up, anybody hangs up a
      waiting one who is not the caller on another session, the timer fires, or a party leaves. */
  lemma EndsIff(s: State, r: Request)
    requires Sound(s) && s.call.Some?
    ensures var c := s.call.value;
            var o := Originator(c).value;
            Step(s, r).call.None? <==>
              (Concerns(s, r) && r.note == HangUp &&
               if PhaseOf(s).Talking? then r.sid in c.parties else r.uid != c.parties[o].uid || r.sid == o) ||
              (r.Timeout? && s.armed) ||
              (r.Leave? && r.sid in c.parties)
  {
    OriginatorIsUnique(s.call.value);
  }

  /** A waiting call is established if and only if another user accepts it on another session and this
      can be saved; that session is then the second party. Otherwise the parties stay what they are. */
  lemma EstablishedIff(s: State, r: Request)
    requires Sound(s) && PhaseOf(s).Waiting?
    ensures var c := s.call.value;
            var o := Originator(c).value;
            PhaseOf(Step(s, r)).Talking? <==>
              Concerns(s, r) && r.note == Accept && r.sid != o && r.uid != c.parties[o].uid && r.saved
    ensures PhaseOf(Step(s, r)).Talking? ==>
            var c, t := s.call.value, Step(s, r);
            t.call == Some(Call(c.parties[r.sid := Party(r.uid, false)], c.id)) && t.trace == s.trace + [Accepted(s.lastID + 1, c.id)]
    ensures PhaseOf(Step(s, r)).Waiting? ==> Step(s, r).call == s.call
  {
    OriginatorIsUnique(s.call.value);
    var c, o := s.call.value, Originator(s.call.value).value;
    if Concerns(s, r) && r.note == Accept && r.sid in c.parties {
      SameKey(c.parties, o, r.sid);
    }
  }

  /** Only an ending changes an established call. */
  lemma EstablishedStays(s: State, r: Request)
    requires Sound(s) && PhaseOf(s).Talking?
    ensures Step(s, r).call in {s.call, None}
  {
    OriginatorIsUnique(s.call.value);
  }

  /** A call starts if and only if there is none and an invite is published where calls are enabled and
      can be saved; the inviting session is its only party and the timer is armed. */
  lemma StartsIff(s: State, r: Request)
    requires Sound(s) && s.call.None?
    ensures Step(s, r).call.Some? <==> r.Publish? && r.isCall && r.callsEnabled && !r.locked && CanSave(r.uid, r.saved)
    ensures Step(s, r).call.Some? ==>
            var t := Step(s, r);
            t.call == Some(Call(map[r.sid := Party(r.uid, true)], s.lastID + 1)) && t.armed && t.trace == s.trace + [Invite(s.lastID + 1)]
  {
  }

  /** Any other message is saved unless the topic is locked or it cannot be, also during a call. */
  lemma PlainMessageIff(s: State, r: Request)
    requires r.Publish? && !r.isCall
    ensures Step(s, r) == if r.locked || !CanSave(r.uid, r.saved) then s
                          else s.(lastID := s.lastID + 1, trace := s.trace + [Plain(s.lastID + 1)])
  {
  }

  /** The end of a call is saved in the name of the caller, or noted as not saved. */
  lemma EndIsSaved(s: State, r: Request)
    requires Sound(s) && s.call.Some? && Step(s, r).call.None?
    ensures var t := Step(s, r);
            !t.armed && |t.trace| == |s.trace| + 1 && t.trace[..|s.trace|] == s.trace &&
            t.trace[|s.trace|].Ended? == r.saved && t.lastID == if r.saved then s.lastID + 1 else s.lastID
  {
    OriginatorIsUnique(s.call.value);
    EndsIff(s, r);
  }

  /** That the phone rings, or that the call was accepted, is told to the calling session, exactly if it
      comes from another user on another session while the call waits, and can be saved if it has to. */
  lemma AnswerReachesTheCaller(s: State, r: Request)
    requires Sound(s) && r.CallNote? && r.note in {Ringing, Accept}
    ensures ForwardTo(s, r).Some? <==>
              Concerns(s, r) && PhaseOf(s).Waiting? && r.sid != Originator(s.call.value).value &&
              r.uid != s.call.value.parties[Originator(s.call.value).value].uid && (r.note == Accept ==> r.saved)
    ensures ForwardTo(s, r).Some? ==> IsOriginator(s.call.value, ForwardTo(s, r).value)
  {
    if s.call.Some? {
      OriginatorIsUnique(s.call.value);
    }
  }

  /** The outcome tells who ended the call. A callee's user declines, the calling session or the timer
      makes it missed, either party of an established call finishes it, and a party that leaves the topic
      disconnects it. */
  lemma OutcomeTellsWhoEndedIt(s: State, r: Request)
    requires Sound(s) && s.call.Some? && Step(s, r).call.None?
    ensures var o := Originator(s.call.value).value;
            var caller := s.call.value.parties[o].uid;
            var last := Step(s, r).trace[|Step(s, r).trace| - 1];
            (last.Ended? || last.Unsaved?) && last.call == s.call.value.id &&
            match last.outcome
            case Finished => r.CallNote? && r.note == HangUp && PhaseOf(s).Talking? && r.sid in s.call.value.parties
            case Declined => r.CallNote? && r.note == HangUp && PhaseOf(s).Waiting? && r.uid != caller
            case Missed => PhaseOf(s).Waiting? && (r.Timeout? || (r.CallNote? && r.note == HangUp && r.uid == caller && r.sid == o))
            case Disconnected => r.Leave? && r.sid in s.call.value.parties
  {
    OriginatorIsUnique(s.call.value);
    if r.CallNote? && r.note != HangUp {
      AnswerKeepsTheCall(s, r);
    }
  }

  lemma AnswerKeepsTheCall(s: State, r: Request)
    requires Sound(s) && s.call.Some? && r.CallNote? && r.note != HangUp
    ensures Step(s, r).call.Some?
  {
    OriginatorIsUnique(s.call.value);
  }

  // ----- the story a trace tells

  /** The call an event belongs to; an invite starts one. */
  function About(e: Event): Option<int> {
    match e
    case Accepted(_, c) => Some(c)
    case Ended(_, c, _) => Some(c)
    case Unsaved(c, _) => Some(c)
    case _ => None
  }

  predicate IsEnding(e: Event, c: int) {
    (e.Ended? || e.Unsaved?) && e.call == c
  }

  ghost predicate EndedWithin(t: seq<Event>, c: int, from: int, to: int) {
    exists x :: 0 <= from < x < to <= |t| && IsEnding(t[x], c)
  }

  /** Since the invite at `i` only call `c` made itself heard. */
  ghost predicate OnlyCall(t: seq<Event>, c: int, i: int, to: int) {
    0 <= i < to <= |t| && t[i] == Invite(c) && forall x :: i < x < to ==> t[x].Plain? || About(t[x]) == Some(c)
  }

  /** Every message of a call comes after its invite with no other call in between. */
  ghost predicate FollowsInvite(t: seq<Event>) {
    forall k :: 0 <= k < |t| && About(t[k]).Some? ==> exists i :: OnlyCall(t, About(t[k]).value, i, k)
  }

  /** Two messages of the same call are the accepting one and an ending of an accepted call. So there
      is at most one of each kind, and nothing is accepted that was declined or missed. */
  ghost predicate AcceptThenEnd(t: seq<Event>) {
    forall j, k :: 0 <= j < k < |t| && About(t[j]).Some? && About(t[j]) == About(t[k]) ==>
      t[j].Accepted? && !t[k].Accepted? && t[k].outcome in {Finished, Disconnected}
  }

  ghost predicate FinishedWasAccepted(t: seq<Event>) {
    forall k :: 0 <= k < |t| && !t[k].Accepted? && About(t[k]).Some? && t[k].outcome == Finished ==>
      exists j :: 0 <= j < k && t[j].Accepted? && t[j].call == t[k].call
  }

  /** A call is over before the next one starts. */
  ghost predicate NoOverlap(t: seq<Event>) {
    forall j, k :: 0 <= j < k < |t| && t[j].Invite? && t[k].Invite? ==> EndedWithin(t, t[j].id, j, k)
  }

  ghost predicate IdsIncrease(t: seq<Event>, lastID: int) {
    (forall k :: 0 <= k < |t| && !t[k].Unsaved? ==> t[k].id <= lastID) &&
    forall j, k :: 0 <= j < k < |t| && !t[j].Unsaved? && !t[k].Unsaved? ==> t[j].id < t[k].id
  }

  ghost predicate Story(t: seq<Event>) {
    FollowsInvite(t) && AcceptThenEnd(t) && FinishedWasAccepted(t) && NoOverlap(t)
  }

  /** How the phase shows in the trace. */
  ghost predicate Shows(t: seq<Event>, p: Phase) {
    match p
    case Quiet => forall j :: 0 <= j < |t| && t[j].Invite? ==> EndedWithin(t, t[j].id, j, |t|)
    case Waiting(c) => exists i :: Current(t, c, i) && forall k :: 0 <= k < |t| ==> About(t[k]) != Some(c)
    case Talking(c) =>
      (exists i :: Current(t, c, i)) &&
      (forall k :: 0 <= k < |t| && About(t[k]) == Some(c) ==> t[k].Accepted?) &&
      exists k :: 0 <= k < |t| && t[k].Accepted? && t[k].call == c
  }

  ghost predicate Current(t: seq<Event>, c: int, i: int) {
    OnlyCall(t, c, i, |t|) && forall j :: 0 <= j < |t| && j != i && t[j].Invite? ==> EndedWithin(t, t[j].id, j, |t|)
  }

  lemma EndedWithinGrows(t: seq<Event>, e: Event, to: int)
    requires 0 <= to <= |t|
    ensures forall c, j :: EndedWithin(t, c, j, to) ==> EndedWithin(t + [e], c, j, to) && EndedWithin(t + [e], c, j, |t| + 1)
  {
    forall c, j | EndedWithin(t, c, j, to)
      ensures EndedWithin(t + [e], c, j, to) && EndedWithin(t + [e], c, j, |t| + 1)
    {
      var x :| 0 <= j < x < to <= |t| && IsEnding(t[x], c);
      assert (t + [e])[x] == t[x];
    }
  }

  lemma OnlyCallGrows(t: seq<Event>, e: Event, c: int, i: int, to: int)
    requires OnlyCall(t, c, i, to)
    ensures OnlyCall(t + [e], c, i, to)
    ensures to == |t| && (e.Plain? || About(e) == Some(c)) ==> OnlyCall(t + [e], c, i, to + 1)
  {
    assert forall x :: 0 <= x < |t| ==> (t + [e])[x] == t[x];
  }

  /** The invite of a new call has a fresh id, so nothing is about it yet. */
  lemma NothingAboutNewCall(t: seq<Event>, lastID: int, c: int)
    requires FollowsInvite(t) && IdsIncrease(t, lastID) && c > lastID
    ensures forall k :: 0 <= k < |t| ==> About(t[k]) != Some(c)
  {
    forall k | 0 <= k < |t| && About(t[k]).Some? ensures About(t[k]) != Some(c) {
      var i :| OnlyCall(t, About(t[k]).value, i, k);
      assert t[i].id <= lastID;
    }
  }

  lemma FollowsInviteGrows(t: seq<Event>, p: Phase, e: Event, p': Phase)
    requires FollowsInvite(t) && Shows(t, p) && Next(p, e, p')
    ensures FollowsInvite(t + [e])
  {
    var u := t + [e];
    forall k | 0 <= k < |u| && About(u[k]).Some? ensures exists i :: OnlyCall(u, About(u[k]).value, i, k) {
      if k < |t| {
        assert u[k] == t[k];
        var i :| OnlyCall(t, About(t[k]).value, i, k);
        OnlyCallGrows(t, e, About(t[k]).value, i, k);
      } else {
        var i :| Current(t, About(e).value, i);
        OnlyCallGrows(t, e, About(e).value, i, k);
      }
    }
  }

  lemma AcceptThenEndGrows(t: seq<Event>, p: Phase, e: Event, p': Phase)
    requires AcceptThenEnd(t) && Shows(t, p) && Next(p, e, p')
    ensures AcceptThenEnd(t + [e])
  {
    var u := t + [e];
    forall j, k | 0 <= j < k < |u| && About(u[j]).Some? && About(u[j]) == About(u[k])
      ensures u[j].Accepted? && !u[k].Accepted? && u[k].outcome in {Finished, Disconnected}
    {
      assert u[j] == t[j];
      if k < |t| {
        assert u[k] == t[k];
      } else {
        assert About(t[j]) == About(e);
      }
    }
  }

  lemma FinishedGrows(t: seq<Event>, p: Phase, e: Event, p': Phase)
    requires FinishedWasAccepted(t) && Shows(t, p) && Next(p, e, p')
    ensures FinishedWasAccepted(t + [e])
  {
    var u := t + [e];
    forall k | 0 <= k < |u| && !u[k].Accepted? && About(u[k]).Some? && u[k].outcome == Finished
      ensures exists j :: 0 <= j < k && u[j].Accepted? && u[j].call == u[k].call
    {
      if k < |t| {
        assert u[k] == t[k];
        var j :| 0 <= j < k && t[j].Accepted? && t[j].call == t[k].call;
        assert u[j] == t[j];
      } else {
        var j :| 0 <= j < |t| && t[j].Accepted? && t[j].call == e.call;
        assert u[j] == t[j];
      }
    }
  }

  lemma NoOverlapGrows(t: seq<Event>, p: Phase, e: Event, p': Phase)
    requires NoOverlap(t) && Shows(t, p) && Next(p, e, p')
    ensures NoOverlap(t + [e])
  {
    var u := t + [e];
    forall j, k | 0 <= j < k < |u| && u[j].Invite? && u[k].Invite? ensures EndedWithin(u, u[j].id, j, k) {
      assert u[j] == t[j];
      EndedWithinGrows(t, e, k);
      if k < |t| {
        assert u[k] == t[k];
      }
    }
  }

  lemma InviteShows(t: seq<Event>, e: Event, lastID: int)
    requires FollowsInvite(t) && IdsIncrease(t, lastID) && Shows(t, Quiet) && e.Invite? && e.id > lastID
    ensures Shows(t + [e], Waiting(e.id))
  {
    var u := t + [e];
    assert forall x :: 0 <= x < |t| ==> u[x] == t[x];
    assert Current(u, e.id, |t|) by {
      InviteIsCurrent(t, e);
    }
    assert forall k :: 0 <= k < |u| ==> About(u[k]) != Some(e.id) by {
      NothingAboutNewCall(t, lastID, e.id);
    }
  }

  lemma InviteIsCurrent(t: seq<Event>, e: Event)
    requires Shows(t, Quiet) && e.Invite?
    ensures Current(t + [e], e.id, |t|)
  {
    var u := t + [e];
    forall j | 0 <= j < |t| && u[j].Invite? ensures EndedWithin(u, u[j].id, j, |u|) {
      assert u[j] == t[j];
      assert EndedWithin(t, t[j].id, j, |t|);
      EndedWithinGrows(t, e, |t|);
    }
  }

  lemma EndingShows(t: seq<Event>, p: Phase, e: Event)
    requires Shows(t, p) && Next(p, e, Quiet) && (e.Ended? || e.Unsaved?)
    ensures Shows(t + [e], Quiet)
  {
    var u := t + [e];
    assert forall x :: 0 <= x < |t| ==> u[x] == t[x];
    EndedWithinGrows(t, e, |t|);
    var i :| Current(t, p.call, i);
    assert IsEnding(u[|t|], p.call);
    assert EndedWithin(u, p.call, i, |u|);
  }

  lemma CurrentGrows(t: seq<Event>, e: Event, c: int, i: int)
    requires Current(t, c, i) && (e.Plain? || (e.Accepted? && e.call == c))
    ensures Current(t + [e], c, i)
  {
    OnlyCallGrows(t, e, c, i, |t|);
    EndedWithinGrows(t, e, |t|);
    assert forall x :: 0 <= x < |t| ==> (t + [e])[x] == t[x];
  }

  lemma TalkShows(t: seq<Event>, p: Phase, e: Event, p': Phase)
    requires Shows(t, p) && Next(p, e, p') && (e.Plain? || e.Accepted?)
    ensures Shows(t + [e], p')
  {
    var u := t + [e];
    assert forall x :: 0 <= x < |t| ==> u[x] == t[x];
    assert u[|t|] == e;
    if p == Quiet {
      EndedWithinGrows(t, e, |t|);
    } else {
      var i :| Current(t, p.call, i);
      CurrentGrows(t, e, p.call, i);
      if e.Plain? && p.Talking? {
        var k :| 0 <= k < |t| && t[k].Accepted? && t[k].call == p.call;
        assert u[k].Accepted?;
      }
    }
  }

  /** A trace and a phase that agree, and what the phase admits next: they agree again. */
  lemma StoryGrows(t: seq<Event>, p: Phase, e: Event, p': Phase, lastID: int, lastID': int)
    requires Story(t) && IdsIncrease(t, lastID) && Shows(t, p) && Next(p, e, p')
    requires if e.Unsaved? then lastID' == lastID else lastID' == lastID + 1 == e.id
    ensures Story(t + [e]) && IdsIncrease(t + [e], lastID') && Shows(t + [e], p')
  {
    FollowsInviteGrows(t, p, e, p');
    AcceptThenEndGrows(t, p, e, p');
    FinishedGrows(t, p, e, p');
    NoOverlapGrows(t, p, e, p');
    match e {
      case Invite(_) => InviteShows(t, e, lastID);
      case Ended(_, _, _) => EndingShows(t, p, e);
      case Unsaved(_, _) => EndingShows(t, p, e);
      case _ => TalkShows(t, p, e, p');
    }
    IdsGrow(t, e, lastID, lastID');
  }

  lemma IdsGrow(t: seq<Event>, e: Event, lastID: int, lastID': int)
    requires IdsIncrease(t, lastID)
    requires if e.Unsaved? then lastID' == lastID else lastID' == lastID + 1 == e.id
    ensures IdsIncrease(t + [e], lastID')
  {
    assert forall x :: 0 <= x < |t| ==> (t + [e])[x] == t[x];
  }

  /** Everything that holds between requests. */
  ghost predicate Inv(s: State) {
    Sound(s) && Story(s.trace) && Shows(s.trace, PhaseOf(s)) && IdsIncrease(s.trace, s.lastID)
  }

  lemma StepKeepsInv(s: State, r: Request)
    requires Inv(s)
    ensures Inv(Step(s, r))
  {
    var s' := Step(s, r);
    StepGrows(s, r);
    if !(s'.trace == s.trace && s'.lastID == s.lastID && PhaseOf(s') == PhaseOf(s)) {
      var e :| s'.trace == s.trace + [e] && Next(PhaseOf(s), e, PhaseOf(s')) &&
               (if e.Unsaved? then s'.lastID == s.lastID else s'.lastID == s.lastID + 1 == e.id);
      StoryGrows(s.trace, PhaseOf(s), e, PhaseOf(s'), s.lastID, s'.lastID);
    }
  }

  lemma {:induction false} RunKeepsInv(s: State, rs: seq<Request>)
    requires Inv(s)
    ensures Inv(Run(s, rs))
    decreases |rs|
  {
    if rs != [] {
      StepKeepsInv(s, rs[0]);
      RunKeepsInv(Step(s, rs[0]), rs[1..]);
    }
  }

  /** Over every run: each call's messages are an invite, at most one accepted and at most one ending,
      calls do not overlap, finished means accepted before, declined or missed means never accepted. */
  lemma CallsFollowTheGrammar(lastID: int, rs: seq<Request>)
    ensures var t := Run(NewTopic(lastID), rs).trace;
            FollowsInvite(t) && AcceptThenEnd(t) && FinishedWasAccepted(t) && NoOverlap(t) &&
            IdsIncrease(t, Run(NewTopic(lastID), rs).lastID)
  {
    RunKeepsInv(NewTopic(lastID), rs);
  }

  /** Over every run: whoever is in a call, one is the originator, so a call is never dropped for want
      of one, and the timer runs only while the call waits for an answer. */
  lemma CallsHaveAnOriginator(lastID: int, rs: seq<Request>)
    ensures var s := Run(NewTopic(lastID), rs);
            s.call.Some? ==> PartiesOK(s.call.value) && Originator(s.call.value).Some? && (s.armed <==> |s.call.value.parties| == 1)
    ensures var s := Run(NewTopic(lastID), rs); s.call.None? ==> !s.armed
  {
    RunKeepsInv(NewTopic(lastID), rs);
    var s := Run(NewTopic(lastID), rs);
    if s.call.Some? {
      OriginatorIsUnique(s.call.value);
    }
  }

  /** Every call but the current one has its ending, which can be missing among the saved messages only
      because it could not be saved. */
  lemma EveryOtherCallEnded(lastID: int, rs: seq<Request>, k: nat)
    requires var s := Run(NewTopic(lastID), rs);
             k < |s.trace| && s.trace[k].Invite? && (s.call.Some? ==> s.call.value.id != s.trace[k].id)
    ensures var s := Run(NewTopic(lastID), rs); EndedWithin(s.trace, s.trace[k].id, k, |s.trace|)
  {
    RunKeepsInv(NewTopic(lastID), rs);
    var s := Run(NewTopic(lastID), rs);
    if s.call.Some? {
      var i :| Current(s.trace, PhaseOf(s).call, i);
    }
  }
}

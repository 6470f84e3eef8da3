/** The code that handles calls, as methods which change the topic step by step. */
module CallRunner {
  import opened AccessMode
  import opened Calls

  class Topic {
    var lastID: int
    var currentCall: Option<Call>
    var timerArmed: bool
    ghost var trace: seq<Event>

    ghost function View(): State
      reads this
    {
      State(lastID, currentCall, timerArmed, trace)
    }

    ghost predicate Valid()
      reads this
    {
      Sound(View())
    }

    constructor (lastID: int)
      ensures View() == NewTopic(lastID) && Valid()
    {
      this.lastID, currentCall, timerArmed, trace := lastID, None, false, [];
    }

    ghost predicate HasOriginator()
      reads this
    {
      currentCall.Some? ==> PartiesOK(currentCall.value)
    }

    /** Looks through the parties for the one who called. */
    method GetCallOriginator() returns (originator: Option<Sid>)
      requires HasOriginator()
      ensures currentCall.Some? ==> originator.Some? && originator == Originator(currentCall.value)
      ensures currentCall.None? ==> originator.None?
    {
      if currentCall.None? {
        return None;
      }
      var parties := currentCall.value.parties;
      OriginatorIsUnique(currentCall.value);
      var todo := parties.Keys;
      while |todo| > 0
        invariant Originator(currentCall.value).value in todo
        invariant forall x :: x in todo ==> x in parties
        decreases |todo|
      {
        var sid :| sid in todo;
        if parties[sid].isOriginator {
          return Some(sid);
        }
        todo := todo - {sid};
      }
      assert false;
    }

    /** Saves a message if the user may write and the store does not fail. */
    method SaveAndBroadcastMessage(uid: Uid, saved: bool, ghost e: Event) returns (ok: bool)
      requires !e.Unsaved?
      modifies this`lastID, this`trace
      ensures ok == CanSave(uid, saved)
      ensures View() == if ok then Append(old(View()), e) else old(View())
    {
      ok := uid != ZERO_UID && saved;
      if ok {
        lastID := lastID + 1;
        trace := trace + [e];
      }
    }

    /** Publishes a message; one that is a call invite starts a call unless there is one. */
    method HandlePubBroadcast(sid: Sid, uid: Uid, isCall: bool, callsEnabled: bool, locked: bool, saved: bool)
      requires Valid()
      modifies this
      ensures Valid() && View() == Step(old(View()), Publish(sid, uid, isCall, callsEnabled, locked, saved))
    {
      StepGrows(View(), Publish(sid, uid, isCall, callsEnabled, locked, saved));
      if locked || (isCall && (!callsEnabled || currentCall.Some?)) {
        return;
      }
      var ok := SaveAndBroadcastMessage(uid, saved, if isCall then Invite(lastID + 1) else Plain(lastID + 1));
      if ok && isCall {
        currentCall := Some(Call(map[sid := Party(uid, true)], lastID));
        timerArmed := true;
      }
    }

    /** Ends the call with the message that fits who ended it and how far it got. */
    method MaybeEndCallInProgress(from: Option<Uid>, timedOut: bool, saved: bool)
      requires HasOriginator() && (timedOut ==> PhaseOf(View()).Waiting?)
      modifies this
      ensures old(currentCall).Some? ==> Valid() && View() == EndCall(old(View()), from, timedOut, saved)
      ensures old(currentCall).None? ==> View() == old(View())
    {
      if currentCall.None? {
        return;
      }
      var call := currentCall.value;
      EndCallGrows(View(), from, timedOut, saved);
      OriginatorIsUnique(call);
      timerArmed := false;
      var o := GetCallOriginator();
      var caller := call.parties[o.value].uid;
      var outcome;
      if from.Some? && |call.parties| == 2 {
        outcome := Finished;
      } else if from.Some? {
        outcome := if from.value == caller then Missed else Declined;
      } else {
        outcome := if timedOut then Missed else Disconnected;
      }
      var ok := SaveAndBroadcastMessage(caller, saved, Ended(lastID + 1, call.id, outcome));
      if !ok {
        trace := trace + [Unsaved(call.id, outcome)];
      }
      currentCall := None;
    }

    /** The server ends the call. The branch which drops a call without an originator is not taken. */
    method TerminateCallInProgress(timedOut: bool, saved: bool)
      requires HasOriginator() && (timedOut ==> PhaseOf(View()).Waiting?)
      modifies this
      ensures old(currentCall).Some? ==> Valid() && View() == EndCall(old(View()), None, timedOut, saved)
      ensures old(currentCall).Some? ==> View() == Terminate(old(View()), timedOut, saved)
      ensures old(currentCall).None? ==> View() == old(View())
    {
      if currentCall.None? {
        return;
      }
      OriginatorIsUnique(currentCall.value);
      MaybeEndCallInProgress(None, timedOut, saved);
    }

    /** The establishment timer fires, which it can do only while armed. */
    method OnTimer(saved: bool)
      requires Valid() && timerArmed
      modifies this
      ensures Valid() && View() == Step(old(View()), Timeout(saved))
    {
      timerArmed := false;
      TerminateCallInProgress(true, saved);
    }

    /** A party that leaves the topic ends the call. */
    method UnregisterSession(sid: Sid, saved: bool)
      requires Valid()
      modifies this
      ensures Valid() && View() == Step(old(View()), Leave(sid, saved))
    {
      if currentCall.Some? && sid in currentCall.value.parties {
        TerminateCallInProgress(false, saved);
      }
    }

    /** A call event of a subscriber. The result is the session the event is forwarded to. */
    method HandleCallEvent(sid: Sid, uid: Uid, note: Note, id: int, inactive: bool, subscriber: bool, saved: bool)
      returns (to: Option<Sid>)
      requires Valid()
      modifies this
      ensures Valid() && View() == Step(old(View()), CallNote(sid, uid, note, id, inactive, subscriber, saved))
      ensures to == ForwardTo(old(View()), CallNote(sid, uid, note, id, inactive, subscriber, saved))
    {
      ghost var r := CallNote(sid, uid, note, id, inactive, subscriber, saved);
      StepGrows(View(), r);
      to := None;
      if currentCall.None? || inactive || currentCall.value.id != id || !subscriber {
        return;
      }
      match note {
        case Ringing => to := Answer(sid, uid, Ringing, saved, r);
        case Accept => to := Answer(sid, uid, Accept, saved, r);
        case Metadata => to := OtherEnd(sid);
        case HangUp => HandleHangUp(sid, uid, saved, r);
        case Unknown =>
      }
    }

    /** The callee's phone rings or the callee answers; the caller learns of it. */
    method Answer(sid: Sid, uid: Uid, note: Note, saved: bool, ghost r: Request) returns (to: Option<Sid>)
      requires Valid() && currentCall.Some? && note in {Ringing, Accept}
      requires r.CallNote? && r.sid == sid && r.uid == uid && r.note == note && r.saved == saved
      modifies this
      ensures View() == OnAnswer(old(View()), r) && to == CallerOf(old(View()), r)
    {
      var call := currentCall.value;
      OriginatorIsUnique(call);
      if |call.parties| != 1 {
        return None;
      }
      var o := GetCallOriginator();
      var caller := call.parties[o.value].uid;
      if o.value == sid || caller == uid {
        return None;
      }
      if note == Accept {
        var ok := SaveAndBroadcastMessage(caller, saved, Accepted(lastID + 1, call.id));
        if !ok {
          return None;
        }
        currentCall := Some(call.(parties := call.parties[sid := Party(uid, false)]));
        timerArmed := false;
      }
      return o;
    }

    /** Looks for the other party of an established call. */
    method OtherEnd(sid: Sid) returns (to: Option<Sid>)
      requires Valid() && currentCall.Some?
      ensures to == PeerOf(currentCall.value, sid)
    {
      var parties := currentCall.value.parties;
      if |parties| != 2 || sid !in parties {
        return None;
      }
      ThePeer(currentCall.value, sid);
      var todo := parties.Keys;
      while |todo| > 0
        invariant PeerOf(currentCall.value, sid).value in todo
        invariant forall x :: x in todo ==> x in parties
        decreases |todo|
      {
        var x :| x in todo;
        if x != sid {
          return Some(x);
        }
        todo := todo - {x};
      }
      assert false;
    }

    method HandleHangUp(sid: Sid, uid: Uid, saved: bool, ghost r: Request)
      requires Valid() && currentCall.Some? && r.CallNote? && r.sid == sid && r.uid == uid && r.saved == saved
      modifies this
      ensures View() == OnHangUp(old(View()), r)
    {
      var call := currentCall.value;
      OriginatorIsUnique(call);
      if |call.parties| == 2 && sid !in call.parties {
        return;
      }
      if |call.parties| == 1 {
        var o := GetCallOriginator();
        if uid == call.parties[o.value].uid && o.value != sid {
          return;
        }
      }
      MaybeEndCallInProgress(Some(uid), false, saved);
    }
  }
}

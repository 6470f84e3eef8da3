/** A topic's contacts as the code keeps them: a table changed in place. */
module PresenceRunner {
  import opened AccessMode
  import opened Presence

  class Table {
    const name: Name
    const isMe: bool
    const proxy: bool
    var inactive: bool
    var loaded: bool
    var perSubs: map<Name, Contact>

    ghost function View(): Topic
      reads this
    {
      Topic(name, isMe, inactive, proxy, loaded, perSubs)
    }

    constructor (name: Name, isMe: bool, proxy: bool)
      ensures View() == Topic(name, isMe, false, proxy, false, map[])
    {
      this.name, this.isMe, this.proxy := name, isMe, proxy;
      inactive, loaded, perSubs := false, false, map[];
    }

    method AddToPerSubs(topic: Name, online: bool, enabled: bool)
      modifies this`perSubs
      ensures perSubs == AddContact(name, old(perSubs), topic, Contact(online, enabled))
    {
      var t := topic;
      if t == name {
        return;
      }
      if t.PeerToPeer? {
        t := if User(t.uid1) == name then User(t.uid2) else User(t.uid1);
      }
      perSubs := perSubs[t := Contact(online, enabled)];
    }

    method LoadContacts(subs: seq<Sub>)
      modifies this`perSubs
      ensures perSubs == Loaded(name, old(perSubs), subs)
    {
      for i := 0 to |subs|
        invariant perSubs == Loaded(name, old(perSubs), subs[..i])
      {
        AddToPerSubs(subs[i].topic, false, subs[i].presencer);
        assert subs[..i + 1][..i] == subs[..i];
      }
      assert subs[..|subs|] == subs;
    }

    /** The user comes online: on the first time the contacts are loaded, if the store can list them, and
        each of them is told. */
    method SendSubNotifications(subs: Option<seq<Sub>>) returns (sent: map<Name, Notice>)
      modifies this`loaded, this`perSubs
      ensures View() == Take(old(View()), Load(subs.GetOr([])))
      ensures old(loaded) ==> |sent| == 0
      ensures !old(loaded) ==> forall x :: x in sent <==> x in perSubs && !x.Channel?
      ensures forall x :: x in sent ==> sent[x] == Notice(name, x, On, NoCommand, true)
    {
      sent := map[];
      if !loaded {
        loaded := true;
        if subs.Some? {
          LoadContacts(subs.value);
        }
        sent := PresUsersOfInterest(On, NoCommand);
      }
    }

    /** Handles a status message: the result is what to forward to sessions and the answer. */
    method ProcPresReq(m: Notice) returns (forwarded: Option<Status>, reply: Option<Notice>)
      modifies this`perSubs
      ensures Outcome(View(), forwarded, reply) == Receive(old(View()), m)
    {
      if inactive {
        return None, None;
      }
      if proxy {
        return Some(m.status), None;
      }
      var reqReply, onlineUpdate, online := false, false, Some(false);
      var replyStatus, replyCommand := On, NoCommand;
      var cmd := m.command;
      forwarded := Some(m.status);
      match m.status {
        case On =>
          onlineUpdate, online := true, Some(true);
        case Off =>
        case NoStatus =>
          online, forwarded := None, None;
        case Gone =>
          cmd := Remove;
        case Unknown =>
          online, reqReply, forwarded := None, true, None;
        case Else =>
          return forwarded, None;
      }
      if isMe {
        if m.src in perSubs {
          if cmd == Remove {
            replyStatus, replyCommand := Off, Remove;
            if !perSubs[m.src].enabled && m.status == Off {
              forwarded := None;
            }
            perSubs := Put(perSubs, m.src, None);
          } else {
            var forward := Update(m.src, online, cmd);
            if !forward {
              forwarded := None;
            }
          }
        } else if cmd != Remove {
          AddToPerSubs(m.src, onlineUpdate, cmd == Enable);
          if cmd != Enable {
            forwarded := None;
          }
        } else {
          forwarded := None;
        }
      }
      reply := None;
      if (onlineUpdate || reqReply) && m.wantReply {
        reply := Some(Notice(name, m.src, replyStatus, replyCommand, reqReply));
      }
    }

    /** The record of a listed contact; tells if the message is news. */
    method Update(src: Name, online: Option<bool>, cmd: Command) returns (forward: bool)
      requires src in perSubs && cmd != Remove
      modifies this`perSubs
      ensures forall status :: Reported(status) == online ==>
                perSubs == Put(old(perSubs), src, Some(Revise(old(perSubs[src]), status, cmd).0)) &&
                forward == Revise(old(perSubs[src]), status, cmd).1
    {
      var psd := perSubs[src];
      forward := true;
      match cmd {
        case NoCommand =>
          if !psd.enabled || online.None? || psd.online == online.value {
            forward := false;
          }
        case Enable =>
          if !psd.enabled {
            psd := psd.(enabled := true);
          } else if online.None? || psd.online == online.value {
            forward := false;
          }
        case Disable =>
          if psd.enabled {
            psd := psd.(enabled := false);
            if !psd.online {
              forward := false;
            }
          } else {
            forward := false;
          }
      }
      if !psd.enabled {
        psd := psd.(online := false);
      } else if online.Some? {
        psd := psd.(online := online.value);
      }
      perSubs := perSubs[src := psd];
    }

    /** Tells each contact but channels of the user's status, with one message by recipient; a user who
        goes invisible takes them for offline. */
    method PresUsersOfInterest(status: Status, command: Command) returns (sent: map<Name, Notice>)
      requires status in {On, Off}
      modifies this`perSubs
      ensures View() == if command == Disable then Take(old(View()), GoInvisible) else old(View())
      ensures forall x :: x in sent <==> x in old(perSubs) && !x.Channel?
      ensures forall x :: x in sent ==> sent[x] == Notice(name, x, status, command, status == On)
    {
      sent := map[];
      ghost var was := perSubs;
      var todo := perSubs.Keys;
      while |todo| > 0
        invariant forall x :: x in todo ==> x in was
        invariant MutedBut(was, todo, command, perSubs)
        invariant forall x :: x in sent <==> x in was && x !in todo && !x.Channel?
        invariant forall x :: x in sent ==> sent[x] == Notice(name, x, status, command, status == On)
        decreases |todo|
      {
        var topic :| topic in todo;
        todo := todo - {topic};
        MuteNext(was, todo + {topic}, command, topic, perSubs);
        var psd := perSubs[topic];
        if topic.Channel? {
          continue;
        }
        sent := sent[topic := Notice(name, topic, status, command, status == On)];
        if psd.online && command == Disable {
          perSubs := perSubs[topic := psd.(online := false)];
        }
      }
      AllMuted(was, todo, command, perSubs);
    }
  }

  /** All contacts but those of `todo` were muted, if this is what the command says. */
  ghost predicate MutedBut(was: map<Name, Contact>, todo: set<Name>, command: Command, now: map<Name, Contact>) {
    (forall x :: x in now <==> x in was) &&
    forall x :: x in was ==> now[x] == if command == Disable && x !in todo then MuteOne(x, was[x]) else was[x]
  }

  lemma MuteNext(was: map<Name, Contact>, todo: set<Name>, command: Command, x: Name, now: map<Name, Contact>)
    requires MutedBut(was, todo, command, now) && x in todo && x in was
    ensures now[x] == was[x]
    ensures MutedBut(was, todo - {x}, command, if command == Disable then now[x := MuteOne(x, now[x])] else now)
    ensures MuteOne(x, now[x]) == now[x] ==> MutedBut(was, todo - {x}, command, now)
  {
  }

  lemma AllMuted(was: map<Name, Contact>, none: set<Name>, command: Command, now: map<Name, Contact>)
    requires MutedBut(was, none, command, now) && |none| == 0
    ensures now == if command == Disable then Muted(was) else was
  {
    assert forall x :: x !in none;
    assert forall x :: x in now ==> now[x] == if command == Disable then Muted(was)[x] else was[x];
  }
}

/** The exchange of presence between topics. A 'me' topic keeps a record per contact: whether the user
    wants to know and whether the contact is online. A status message of a contact updates the record,
    may be forwarded to the user's sessions and may be answered. */
module Presence {
  import opened AccessMode

  datatype Name = User(uid: int) | PeerToPeer(uid1: int, uid2: int) | Grp(string) | Channel(string)

  /** The status in a message: "on", "off", "gone", "?none", "?unkn" or something not handled here. */
  datatype Status = On | Off | Gone | NoStatus | Unknown | Else

  /** The command behind the plus sign: none, "en", "dis" or "rem". */
  datatype Command = NoCommand | Enable | Disable | Remove

  datatype Notice = Notice(src: Name, to: Name, status: Status, command: Command, wantReply: bool)

  datatype Contact = Contact(online: bool, enabled: bool)

  /** `loaded` tells that the user's subscriptions were put into the contacts, which is done once. */
  datatype Topic = Topic(name: Name, isMe: bool, inactive: bool, proxy: bool, loaded: bool, contacts: map<Name, Contact>)

  /** What became of a message: the topic, what is forwarded to sessions and the answer. */
  datatype Outcome = Outcome(topic: Topic, forwarded: Option<Status>, reply: Option<Notice>)

  function Find<K, V>(m: map<K, V>, k: K): (r: Option<V>)
    ensures r.Some? <==> k in m
  {
    if k in m then Some(m[k]) else None
  }

  function Put<K(!new), V>(m: map<K, V>, k: K, v: Option<V>): (r: map<K, V>)
    ensures Find(r, k) == v && forall x :: x != k ==> Find(r, x) == Find(m, x)
  {
    if v.Some? then m[k := v.value] else map x | x in m && x != k :: m[x]
  }

  // ----- one message

  /** A gone topic is removed as well. */
  function EffectiveCommand(m: Notice): Command {
    if m.status == Gone then Remove else m.command
  }

  /** Requests for status are not shown to users. */
  function Shown(status: Status): Option<Status> {
    if status in {NoStatus, Unknown} then None else Some(status)
  }

  /** The online status a message reports, if it does. */
  function Reported(status: Status): Option<bool> {
    if status in {NoStatus, Unknown} then None else Some(status == On)
  }

  /** The record of a listed contact that stays listed, and whether the news is worth forwarding. */
  function Revise(c: Contact, status: Status, command: Command): (Contact, bool)
    requires command != Remove
  {
    var news := Reported(status).Some? && Reported(status).value != c.online;
    var (enabled, forward) := match command
      case NoCommand => (c.enabled, c.enabled && news)
      case Enable => (true, !c.enabled || news)
      case _ => (false, c.enabled && c.online);
    var online := if !enabled then false else if Reported(status).Some? then Reported(status).value else c.online;
    (Contact(online, enabled), forward)
  }

  /** Where a topic lists a name; a peer-to-peer topic is listed by the other user. */
  function ListedAs(self: Name, name: Name): Name {
    if !name.PeerToPeer? then name
    else if User(name.uid1) == self then User(name.uid2) else User(name.uid1)
  }

  function AddContact(self: Name, contacts: map<Name, Contact>, name: Name, c: Contact): map<Name, Contact> {
    if name == self then contacts else contacts[ListedAs(self, name) := c]
  }

  function Receive(t: Topic, m: Notice): Outcome {
    if t.inactive then Outcome(t, None, None)
    else if t.proxy || m.status == Else then Outcome(t, Some(m.status), None)
    else
      var command := EffectiveCommand(m);
      var listed := t.isMe && m.src in t.contacts;
      var answers := m.status in {On, Unknown} && m.wantReply;
      var reply := if !answers then None
                   else if listed && command == Remove then Some(Notice(t.name, m.src, Off, Remove, m.status == Unknown))
                   else Some(Notice(t.name, m.src, On, NoCommand, m.status == Unknown));
      if !t.isMe then Outcome(t, Shown(m.status), reply)
      else if !listed then
        if command == Remove then Outcome(t, None, reply)
        else
          var c := Contact(m.status == On, command == Enable);
          Outcome(t.(contacts := AddContact(t.name, t.contacts, m.src, c)), if c.enabled then Shown(m.status) else None, reply)
      else
        var c := t.contacts[m.src];
        if command == Remove then
          Outcome(t.(contacts := Put(t.contacts, m.src, None)),
                  if !c.enabled && m.status == Off then None else Shown(m.status), reply)
        else
          var (c', forward) := Revise(c, m.status, command);
          Outcome(t.(contacts := Put(t.contacts, m.src, Some(c'))), if forward then Shown(m.status) else None, reply)
  }

  // ----- the exchange drains

  /** How many more messages a message can cause to be delivered, itself included. */
  function Weight(m: Notice): nat {
    if !m.wantReply then 1 else if m.status == Unknown then 3 else if m.status == On then 2 else 1
  }

  function TotalWeight(bag: seq<Notice>): nat {
    if bag == [] then 0 else Weight(bag[0]) + TotalWeight(bag[1..])
  }

  datatype Network = Network(topics: map<Name, Topic>, bag: seq<Notice>)

  /** A new message or a message of the bag, in any order, which is delivered or lost. */
  datatype Action = Send(m: Notice) | Deliver(i: nat, lost: bool) | Change(topic: Topic)

  function Without<T>(s: seq<T>, i: nat): seq<T>
    requires i < |s|
  {
    s[..i] + s[i + 1..]
  }

  function Act(net: Network, a: Action): Network {
    match a
    case Send(m) => net.(bag := net.bag + [m])
    case Change(t) => net.(topics := net.topics[t.name := t])
    case Deliver(i, lost) =>
      if i >= |net.bag| then net
      else
        var m := net.bag[i];
        var rest := Without(net.bag, i);
        if lost || m.to !in net.topics then net.(bag := rest)
        else
          var o := Receive(net.topics[m.to], m);
          Network(net.topics[m.to := o.topic], if o.reply.Some? then rest + [o.reply.value] else rest)
  }

  function ActAll(net: Network, actions: seq<Action>): Network {
    if actions == [] then net else Act(ActAll(net, actions[..|actions| - 1]), actions[|actions| - 1])
  }

  lemma {:induction false} TotalWeightConcat(a: seq<Notice>, b: seq<Notice>)
    ensures TotalWeight(a + b) == TotalWeight(a) + TotalWeight(b)
    decreases |a|
  {
    if a == [] {
      assert a + b == b;
    } else {
      assert (a + b)[1..] == a[1..] + b;
      TotalWeightConcat(a[1..], b);
    }
  }

  lemma TotalWeightWithout(bag: seq<Notice>, i: nat)
    requires i < |bag|
    ensures TotalWeight(bag) == TotalWeight(Without(bag, i)) + Weight(bag[i])
  {
    assert bag == bag[..i] + bag[i..];
    TotalWeightConcat(bag[..i], bag[i..]);
    TotalWeightConcat(bag[..i], bag[i + 1..]);
    assert bag[i..][1..] == bag[i + 1..];
  }

  /** An answer weighs less than what it answers, whatever the topic. */
  lemma ReplyWeighsLess(t: Topic, m: Notice)
    ensures Receive(t, m).reply.Some? ==> Weight(Receive(t, m).reply.value) < Weight(m)
  {
  }

  /** Every delivery, to any topic in any state, lowers the total weight of what is in flight. */
  lemma DeliveryLowersWeight(net: Network, i: nat, lost: bool)
    requires i < |net.bag|
    ensures TotalWeight(Act(net, Deliver(i, lost)).bag) < TotalWeight(net.bag)
  {
    var m, rest := net.bag[i], Without(net.bag, i);
    TotalWeightWithout(net.bag, i);
    if m.to in net.topics {
      ReplyWeighsLess(net.topics[m.to], m);
      var r := Receive(net.topics[m.to], m).reply;
      if r.Some? {
        TotalWeightConcat(rest, [r.value]);
        assert [r.value][1..] == [];
      }
    }
  }

  function Sends(actions: seq<Action>): nat {
    if actions == [] then 0 else Sends(actions[..|actions| - 1]) + if actions[|actions| - 1].Send? then 1 else 0
  }

  /** The deliveries of messages which are there. */
  function Deliveries(net: Network, actions: seq<Action>): nat {
    if actions == [] then 0
    else
      var before := actions[..|actions| - 1];
      var a := actions[|actions| - 1];
      Deliveries(net, before) + if a.Deliver? && a.i < |ActAll(net, before).bag| then 1 else 0
  }

  /** Over every run, however the answers interleave: no more than three deliveries for each message
      sent, besides those the messages in flight at first account for. */
  lemma {:induction false} ExchangeDrains(net: Network, actions: seq<Action>)
    ensures Deliveries(net, actions) + TotalWeight(ActAll(net, actions).bag) <= TotalWeight(net.bag) + 3 * Sends(actions)
    decreases |actions|
  {
    if actions != [] {
      var before, a := actions[..|actions| - 1], actions[|actions| - 1];
      ExchangeDrains(net, before);
      var mid := ActAll(net, before);
      if a.Deliver? && a.i < |mid.bag| {
        DeliveryLowersWeight(mid, a.i, a.lost);
      } else if a.Send? {
        TotalWeightConcat(mid.bag, [a.m]);
        assert [a.m][1..] == [];
      }
    }
  }

  /** One message leads to at most two chained answers. */
  lemma NoThirdReply(t1: Topic, t2: Topic, t3: Topic, m: Notice)
    ensures var r1 := Receive(t1, m).reply;
            r1.Some? ==>
              var r2 := Receive(t2, r1.value).reply;
              r2.Some? ==> Receive(t3, r2.value).reply.None?
  {
    var r1 := Receive(t1, m).reply;
    if r1.Some? {
      ReplyWeighsLess(t1, m);
      var r2 := Receive(t2, r1.value).reply;
      if r2.Some? {
        ReplyWeighsLess(t2, r1.value);
        ReplyWeighsLess(t3, r2.value);
      }
    }
  }

  // ----- what sessions are told of a contact

  /** The messages the code emits to a 'me' topic about its contacts. */
  predicate Emitted(self: Name, m: Notice) {
    m.src != self && !m.src.PeerToPeer? &&
    match m.status
    case On => m.command in {NoCommand, Enable}
    case Off => m.command in {NoCommand, Disable, Remove}
    case Gone => m.command == NoCommand
    case NoStatus => m.command in {Enable, Remove}
    case Unknown => m.command in {NoCommand, Enable}
    case Else => m.command == NoCommand
  }

  predicate Live(t: Topic, contact: Name) {
    contact in t.contacts && t.contacts[contact].enabled && t.contacts[contact].online
  }

  predicate MasterMe(t: Topic) {
    t.isMe && !t.proxy
  }

  /** An enabled status of a contact becomes known as online with an "on" and only so, unless the record
      said online while disabled and is enabled by a message that carries no status. */
  lemma OnIffBecomesLive(t: Topic, m: Notice)
    requires MasterMe(t) && Emitted(t.name, m)
    ensures var o := Receive(t, m);
            o.forwarded == Some(On) <==> !Live(t, m.src) && Live(o.topic, m.src) && m.status == On
    ensures var o := Receive(t, m);
            !Live(t, m.src) && Live(o.topic, m.src) && m.status != On <==>
              !t.inactive && m.command == Enable && m.status != On && m.src in t.contacts && t.contacts[m.src] == Contact(true, false)
  {
  }

  /** An online contact stops being so with an "off" or a "gone", unless a message without status
      removes it. */
  lemma OffIffStopsBeingLive(t: Topic, m: Notice)
    requires MasterMe(t) && Emitted(t.name, m)
    ensures var o := Receive(t, m);
            Live(t, m.src) && !Live(o.topic, m.src) <==>
              Live(t, m.src) && (o.forwarded in {Some(Off), Some(Gone)} || (!t.inactive && m.status == NoStatus && m.command == Remove))
    ensures var o := Receive(t, m);
            o.forwarded == Some(Off) && m.command != Remove ==> Live(t, m.src) && !Live(o.topic, m.src)
    ensures forall x :: x != m.src ==> Find(Receive(t, m).topic.contacts, x) == Find(t.contacts, x)
  {
  }

  /** Which messages are forwarded, and that they are forwarded as they are. */
  lemma ForwardedIff(t: Topic, m: Notice)
    requires MasterMe(t) && Emitted(t.name, m)
    ensures var f := Receive(t, m).forwarded;
            (f.Some? ==> f.value == m.status) &&
            (f == Some(Off) <==>
               !t.inactive && m.status == Off &&
               if m.command == Remove then m.src in t.contacts && t.contacts[m.src].enabled else Live(t, m.src)) &&
            (f == Some(Gone) <==> !t.inactive && m.status == Gone && m.src in t.contacts) &&
            (f == Some(Else) <==> !t.inactive && m.status == Else)
  {
  }

  /** The record of the sender afterwards. "gone" and "+rem" take it off the list; "+en" and "+dis" set
      whether it is enabled; a status is kept for an enabled contact and for a new one. */
  lemma RecordEffect(t: Topic, m: Notice)
    requires MasterMe(t) && Emitted(t.name, m) && !t.inactive
    ensures var was, now := Find(t.contacts, m.src), Find(Receive(t, m).topic.contacts, m.src);
            if m.status == Else then now == was
            else if m.status == Gone || m.command == Remove then now == None
            else
              var enabled := m.command == Enable || (m.command == NoCommand && was.Some? && was.value.enabled);
              now == Some(Contact(
                if was.None? then m.status == On
                else enabled && (m.status == On || (m.status in {NoStatus, Unknown} && was.value.online)), enabled))
    ensures var o := Receive(t, m).topic;
            o == t.(contacts := o.contacts) && forall x :: x != m.src ==> Find(o.contacts, x) == Find(t.contacts, x)
  {
  }

  // ----- what the exchange is for

  /** A topic answers exactly if it is active, not a proxy, asked for an answer and told "on" or "?unkn".
      The answer goes back to the sender and says "on", and asks for an answer in turn to "?unkn". */
  lemma AnswersIff(t: Topic, m: Notice)
    ensures Receive(t, m).reply.Some? <==> !t.inactive && !t.proxy && m.wantReply && m.status in {On, Unknown}
    ensures Receive(t, m).reply.Some? && m.command != Remove ==>
            Receive(t, m).reply.value == Notice(t.name, m.src, On, NoCommand, m.status == Unknown)
    ensures Receive(t, m).reply.Some? && m.command == Remove ==>
            Receive(t, m).reply.value.to == m.src && Receive(t, m).reply.value.src == t.name
  {
  }

  /** An active 'me' topic of a user, on this node. */
  predicate Awake(t: Topic) {
    MasterMe(t) && !t.inactive && t.name.User?
  }

  predicate Enabled(t: Topic, contact: Name) {
    contact in t.contacts && t.contacts[contact].enabled
  }

  lemma HearsOn(t: Topic, m: Notice)
    requires Awake(t) && m.src.User? && m.src != t.name && m.status == On
    requires m.command == Enable || (m.command == NoCommand && Enabled(t, m.src))
    ensures Live(Receive(t, m).topic, m.src) && Receive(t, m).topic.name == t.name && Awake(Receive(t, m).topic)
  {
  }

  lemma HearsUnknown(t: Topic, m: Notice)
    requires Awake(t) && m.src.User? && m.src != t.name && m.status == Unknown
    requires m.command == Enable || (m.command == NoCommand && Enabled(t, m.src))
    ensures Enabled(Receive(t, m).topic, m.src) && Receive(t, m).topic.name == t.name && Awake(Receive(t, m).topic)
    ensures forall x :: x != m.src ==> Find(Receive(t, m).topic.contacts, x) == Find(t.contacts, x)
  {
  }

  /** Two awake users in a network, each of whom listens to the other. */
  predicate Friends(net: Network, a: Name, b: Name) {
    a != b && a.User? && b.User? && a in net.topics && b in net.topics &&
    net.topics[a].name == a && net.topics[b].name == b && Awake(net.topics[a]) && Awake(net.topics[b])
  }

  /** The last message of the bag is delivered: its answer takes its place. */
  lemma DeliverLast(net: Network, bag: seq<Notice>, m: Notice)
    requires net.bag == bag + [m] && m.to in net.topics
    ensures var t, o := Act(net, Deliver(|bag|, false)), Receive(net.topics[m.to], m);
            t.topics == net.topics[m.to := o.topic] && t.bag == if o.reply.Some? then bag + [o.reply.value] else bag
  {
    assert Without(net.bag, |bag|) == bag;
  }

  /** A user who comes online tells a contact and asks for an answer: after the message and its answer
      are delivered each knows that the other is online, and nothing more is in flight. */
  lemma ComingOnlineIsMutual(net: Network, a: Name, b: Name, command: Command)
    requires Friends(net, a, b) && Enabled(net.topics[a], b)
    requires command == Enable || (command == NoCommand && Enabled(net.topics[b], a))
    ensures var last := Deliver(|net.bag|, false);
            var t := ActAll(net, [Send(Notice(a, b, On, command, true)), last, last]);
            t.bag == net.bag && a in t.topics && b in t.topics && Live(t.topics[a], b) && Live(t.topics[b], a)
  {
    var m := Notice(a, b, On, command, true);
    var last := Deliver(|net.bag|, false);
    var n1 := Act(net, Send(m));
    HearsOn(net.topics[b], m);
    AnswersIff(net.topics[b], m);
    DeliverLast(n1, net.bag, m);
    var n2 := Act(n1, last);
    var r := Notice(b, a, On, NoCommand, false);
    assert n2.bag == net.bag + [r] && n2.topics[a] == net.topics[a];
    HearsOn(n2.topics[a], r);
    AnswersIff(n2.topics[a], r);
    DeliverLast(n2, net.bag, r);
    ThreeActions(net, Send(m), last, last);
  }

  lemma ThreeActions(net: Network, x: Action, y: Action, z: Action)
    ensures ActAll(net, [x, y, z]) == Act(Act(Act(net, x), y), z)
  {
    assert [x, y, z][..2] == [x, y] && [x, y][..1] == [x] && [x][..0] == [];
    assert ActAll(net, []) == net;
    assert ActAll(net, [x]) == Act(net, x);
  }

  lemma FourActions(net: Network, x: Action, y: Action, z: Action, w: Action)
    ensures ActAll(net, [x, y, z, w]) == Act(Act(Act(Act(net, x), y), z), w)
  {
    assert [x, y, z, w][..3] == [x, y, z];
    ThreeActions(net, x, y, z);
  }

  /** The same when it is not known yet whether the first user is online: "?unkn" is answered by "on",
      which is answered by "on". */
  lemma AskingForStatusIsMutual(net: Network, a: Name, b: Name, command: Command)
    requires Friends(net, a, b) && Enabled(net.topics[a], b)
    requires command == Enable || (command == NoCommand && Enabled(net.topics[b], a))
    ensures var last := Deliver(|net.bag|, false);
            var t := ActAll(net, [Send(Notice(a, b, Unknown, command, true)), last, last, last]);
            t.bag == net.bag && a in t.topics && b in t.topics && Live(t.topics[a], b) && Live(t.topics[b], a)
  {
    var m := Notice(a, b, Unknown, command, true);
    var last := Deliver(|net.bag|, false);
    var n1 := Act(net, Send(m));
    HearsUnknown(net.topics[b], m);
    AnswersIff(net.topics[b], m);
    DeliverLast(n1, net.bag, m);
    var n2 := Act(n1, last);
    var r := Notice(b, a, On, NoCommand, true);
    HearsOn(n2.topics[a], r);
    AnswersIff(n2.topics[a], r);
    DeliverLast(n2, net.bag, r);
    var n3 := Act(n2, last);
    var q := Notice(a, b, On, NoCommand, false);
    HearsOn(n3.topics[b], q);
    AnswersIff(n3.topics[b], q);
    DeliverLast(n3, net.bag, q);
    FourActions(net, Send(m), last, last, last);
  }

  /** The odd case: the first message of an unlisted contact says "on" without enabling it. It is kept
      as online and disabled; enabling it then makes it online, and its next "on" is withheld too. */
  lemma OnlineWithoutNotice(t: Topic, from: Name)
    requires MasterMe(t) && !t.inactive && from !in t.contacts && from != t.name && !from.PeerToPeer?
    ensures var on := Notice(from, t.name, On, NoCommand, false);
            var first := Receive(t, on);
            var second := Receive(first.topic, Notice(from, t.name, NoStatus, Enable, false));
            first.forwarded.None? && second.forwarded.None? && Receive(second.topic, on).forwarded.None? && Live(second.topic, from)
  {
  }

  // ----- whole runs of a 'me' topic

  /** A stored subscription of the user: the topic and whether presence is wanted. */
  datatype Sub = Sub(topic: Name, presencer: bool)

  /** What happens to a 'me' topic: a message, the user goes invisible, the contacts are loaded, the
      topic is paused or resumed. */
  datatype Turn = Got(m: Notice) | GoInvisible | Load(subs: seq<Sub>) | SetInactive(inactive: bool)

  /** "off+dis" sent to all contacts: those it is sent to are taken for offline. Channels are skipped. */
  function Muted(contacts: map<Name, Contact>): map<Name, Contact> {
    map x | x in contacts :: MuteOne(x, contacts[x])
  }

  function MuteOne(name: Name, c: Contact): Contact {
    if name.Channel? then c else c.(online := false)
  }

  function Loaded(self: Name, contacts: map<Name, Contact>, subs: seq<Sub>): map<Name, Contact> {
    if subs == [] then contacts
    else
      var sub := subs[|subs| - 1];
      AddContact(self, Loaded(self, contacts, subs[..|subs| - 1]), sub.topic, Contact(false, sub.presencer))
  }

  function Take(t: Topic, turn: Turn): Topic {
    match turn
    case Got(m) => Receive(t, m).topic
    case GoInvisible => t.(contacts := Muted(t.contacts))
    case Load(subs) => if t.loaded then t else t.(loaded := true, contacts := Loaded(t.name, t.contacts, subs))
    case SetInactive(b) => t.(inactive := b)
  }

  /** The topic before turn `k`. */
  function At(t: Topic, turns: seq<Turn>, k: nat): Topic
    requires k <= |turns|
  {
    if k == 0 then t else Take(At(t, turns, k - 1), turns[k - 1])
  }

  /** What turn `k` tells the sessions of `contact`. */
  function Told(t: Topic, turns: seq<Turn>, k: nat, contact: Name): Option<Status>
    requires k < |turns|
  {
    if turns[k].Got? && turns[k].m.src == contact then Receive(At(t, turns, k), turns[k].m).forwarded else None
  }

  predicate AllEmitted(self: Name, turns: seq<Turn>) {
    forall k :: 0 <= k < |turns| && turns[k].Got? ==> Emitted(self, turns[k].m)
  }

  /** What may come between two "on"s of the same contact. */
  predicate Separates(t: Topic, turns: seq<Turn>, k: nat, contact: Name)
    requires k < |turns|
  {
    match turns[k]
    case Got(m) => m.src == contact && (Told(t, turns, k, contact) in {Some(Off), Some(Gone)} ||
                                        (m.status == NoStatus && m.command == Remove))
    case GoInvisible => !contact.Channel?
    case Load(subs) => !At(t, turns, k).loaded && Lists(t.name, subs, contact)
    case SetInactive(_) => false
  }

  /** Loading the subscriptions puts `contact` on the list. */
  predicate Lists(self: Name, subs: seq<Sub>, contact: Name) {
    exists k :: 0 <= k < |subs| && subs[k].topic != self && ListedAs(self, subs[k].topic) == contact
  }

  lemma {:induction false} LoadingLeavesOthers(self: Name, contacts: map<Name, Contact>, subs: seq<Sub>, contact: Name)
    requires !Lists(self, subs, contact)
    ensures Find(Loaded(self, contacts, subs), contact) == Find(contacts, contact)
    decreases |subs|
  {
    if subs != [] {
      var before := subs[..|subs| - 1];
      assert forall k :: 0 <= k < |before| ==> before[k] == subs[k];
      LoadingLeavesOthers(self, contacts, before, contact);
    }
  }

  lemma {:induction false} StaysMaster(t: Topic, turns: seq<Turn>, k: nat)
    requires MasterMe(t) && k <= |turns|
    ensures MasterMe(At(t, turns, k)) && At(t, turns, k).name == t.name
  {
    if k > 0 {
      StaysMaster(t, turns, k - 1);
    }
  }

  /** A contact stops being online only in a turn that separates. */
  lemma DropSeparates(t: Topic, turns: seq<Turn>, k: nat, contact: Name)
    requires MasterMe(t) && AllEmitted(t.name, turns) && k < |turns|
    requires Live(At(t, turns, k), contact) && !Live(At(t, turns, k + 1), contact)
    ensures Separates(t, turns, k, contact)
  {
    StaysMaster(t, turns, k);
    var now := At(t, turns, k);
    match turns[k]
    case Got(m) => OffIffStopsBeingLive(now, m);
    case Load(subs) =>
      if !Lists(t.name, subs, contact) {
        LoadingLeavesOthers(t.name, now.contacts, subs, contact);
      }
    case _ =>
  }

  lemma {:induction false} SomeDrop(t: Topic, turns: seq<Turn>, i: nat, j: nat, contact: Name) returns (k: nat)
    requires i <= j <= |turns| && Live(At(t, turns, i), contact) && !Live(At(t, turns, j), contact)
    ensures i <= k < j && Live(At(t, turns, k), contact) && !Live(At(t, turns, k + 1), contact)
    decreases j - i
  {
    if Live(At(t, turns, j - 1), contact) {
      k := j - 1;
    } else {
      k := SomeDrop(t, turns, i, j - 1, contact);
    }
  }

  /** Over every run of a 'me' topic two forwarded "on"s of a contact are separated by a forwarded "off"
      or "gone", by a removal, by the user going invisible or by the one load of the contacts if it lists
      the contact. */
  lemma OnsAreSeparated(t: Topic, turns: seq<Turn>, i: nat, j: nat, contact: Name) returns (k: nat)
    requires MasterMe(t) && AllEmitted(t.name, turns) && i < j < |turns|
    requires Told(t, turns, i, contact) == Some(On) && Told(t, turns, j, contact) == Some(On)
    ensures i < k < j && Separates(t, turns, k, contact)
  {
    StaysMaster(t, turns, i);
    StaysMaster(t, turns, j);
    OnIffBecomesLive(At(t, turns, i), turns[i].m);
    OnIffBecomesLive(At(t, turns, j), turns[j].m);
    assert At(t, turns, i + 1) == Receive(At(t, turns, i), turns[i].m).topic;
    k := SomeDrop(t, turns, i + 1, j, contact);
    DropSeparates(t, turns, k, contact);
  }

  /** The last status sessions were told of `contact` before turn `k`. */
  function LastTold(t: Topic, turns: seq<Turn>, k: nat, contact: Name): Option<Status>
    requires k <= |turns|
  {
    if k == 0 then None
    else if Told(t, turns, k - 1, contact) in {Some(On), Some(Off), Some(Gone)} then Told(t, turns, k - 1, contact)
    else LastTold(t, turns, k - 1, contact)
  }

  /** Turn `k` enables a contact whose record said online while it was disabled. */
  predicate EnablesUnheard(t: Topic, turns: seq<Turn>, k: nat, contact: Name)
    requires k < |turns|
  {
    turns[k].Got? && turns[k].m.src == contact && turns[k].m.command == Enable && turns[k].m.status != On &&
    Find(At(t, turns, k).contacts, contact) == Some(Contact(true, false))
  }

  /** A turn other than a message of the contact itself does not make it online. */
  lemma OthersDoNotRaise(t: Topic, turn: Turn, contact: Name)
    requires MasterMe(t) && !Live(t, contact)
    requires turn.Got? ==> turn.m.src != contact && Emitted(t.name, turn.m)
    ensures !Live(Take(t, turn), contact)
  {
    match turn
    case Got(m) => OffIffStopsBeingLive(t, m);
    case Load(subs) => LoadingDoesNotRaise(t.name, t.contacts, subs, contact);
    case _ =>
  }

  lemma {:induction false} LoadingDoesNotRaise(self: Name, contacts: map<Name, Contact>, subs: seq<Sub>, contact: Name)
    ensures var after := Loaded(self, contacts, subs);
            contact in after && after[contact].online ==> contact in contacts && after[contact] == contacts[contact]
    decreases |subs|
  {
    if subs != [] {
      LoadingDoesNotRaise(self, contacts, subs[..|subs| - 1], contact);
    }
  }

  /** Over every run: if the record says that a contact is online, this is also the last thing the
      sessions were told, unless it was enabled unheard. */
  lemma {:induction false} OnlineWasTold(t: Topic, turns: seq<Turn>, k: nat, contact: Name)
    requires MasterMe(t) && AllEmitted(t.name, turns) && k <= |turns| && !Live(t, contact)
    requires forall j: nat :: j < k ==> !EnablesUnheard(t, turns, j, contact)
    ensures Live(At(t, turns, k), contact) ==> LastTold(t, turns, k, contact) == Some(On)
  {
    if k > 0 {
      OnlineWasTold(t, turns, k - 1, contact);
      StaysMaster(t, turns, k - 1);
      var now, turn := At(t, turns, k - 1), turns[k - 1];
      if turn.Got? && turn.m.src == contact {
        OnIffBecomesLive(now, turn.m);
        OffIffStopsBeingLive(now, turn.m);
        assert !EnablesUnheard(t, turns, k - 1, contact);
      } else if !Live(now, contact) {
        OthersDoNotRaise(now, turn, contact);
      }
    }
  }

  /** Going invisible leaves who is listed and enabled, and takes all but channels for offline. */
  lemma GoingInvisible(t: Topic, contact: Name)
    ensures var was, now := Find(t.contacts, contact), Find(Take(t, GoInvisible).contacts, contact);
            now.Some? == was.Some? &&
            (was.Some? ==> now.value.enabled == was.value.enabled && now.value.online == (contact.Channel? && was.value.online))
  {
  }

  /** Loading lists the contact of each subscription as offline, enabled as the last one for it says. */
  lemma {:induction false} LoadingLists(self: Name, contacts: map<Name, Contact>, subs: seq<Sub>, k: nat)
    requires k < |subs| && subs[k].topic != self
    requires forall j :: k < j < |subs| ==> subs[j].topic == self || ListedAs(self, subs[j].topic) != ListedAs(self, subs[k].topic)
    ensures Find(Loaded(self, contacts, subs), ListedAs(self, subs[k].topic)) == Some(Contact(false, subs[k].presencer))
    decreases |subs|
  {
    if k < |subs| - 1 {
      LoadingLists(self, contacts, subs[..|subs| - 1], k);
    }
  }
}

/** The status word of a topic, changed by several goroutines at once with load and compare-and-swap.
    A call loads the word and, if it has to change, swaps it unless somebody else was faster, in which
    case it starts over. */
module TopicStatus {
  const LOADED: bv32 := 0x1
  const PAUSED: bv32 := 0x2
  const DELETED: bv32 := 0x10
  const READ_ONLY: bv32 := 0x20

  datatype Change = Change(bits: bv32, on: bool)

  function Changed(status: bv32, c: Change): bv32 {
    if c.on then status | c.bits else status & !c.bits
  }

  predicate IsInactive(status: bv32) {
    status & (PAUSED | DELETED) != 0
  }

  /** `Returned` tells where in the log the call took effect and how long the log was at its return. */
  datatype Phase = Started | Loaded(seen: bv32) | Returned(at: nat, end: nat)

  /** `begin` is how long the log was when the call was made. */
  datatype Call = Call(change: Change, begin: nat, phase: Phase)

  datatype Entry = Entry(id: nat, change: Change)

  /** The log is the order in which calls took effect. */
  datatype State = State(status: bv32, calls: map<nat, Call>, log: seq<Entry>)

  datatype Step = Begin(id: nat, change: Change) | Load(id: nat) | Swap(id: nat)

  function NewTopic(): State {
    State(0, map[], [])
  }

  /** The call takes effect and returns. */
  function Return(s: State, id: nat, status: bv32): State
    requires id in s.calls
  {
    var c := s.calls[id];
    State(status, s.calls[id := c.(phase := Returned(|s.log|, |s.log| + 1))], s.log + [Entry(id, c.change)])
  }

  function Apply(s: State, step: Step): State {
    match step
    case Begin(id, change) =>
      if id in s.calls then s else s.(calls := s.calls[id := Call(change, |s.log|, Started)])
    case Load(id) =>
      if id !in s.calls || !s.calls[id].phase.Started? then s
      else if Changed(s.status, s.calls[id].change) == s.status then Return(s, id, s.status)
      else s.(calls := s.calls[id := s.calls[id].(phase := Loaded(s.status))])
    case Swap(id) =>
      if id !in s.calls || !s.calls[id].phase.Loaded? then s
      else
        var c := s.calls[id];
        if s.status == c.phase.seen then Return(s, id, Changed(c.phase.seen, c.change))
        else s.(calls := s.calls[id := c.(phase := Started)])
  }

  function Run(steps: seq<Step>): State {
    if steps == [] then NewTopic() else Apply(Run(steps[..|steps| - 1]), steps[|steps| - 1])
  }

  /** The changes of a log made one after another. */
  function Sequentially(status: bv32, log: seq<Entry>): bv32 {
    if log == [] then status else Changed(Sequentially(status, log[..|log| - 1]), log[|log| - 1].change)
  }

  // ----- any interleaving is some sequence

  /** Every call that returned is in the log once, at its place between its begin and its return. */
  ghost predicate ReturnedOnce(s: State) {
    (forall id :: id in s.calls && s.calls[id].phase.Returned? ==>
       var c := s.calls[id];
       c.begin <= c.phase.at < c.phase.end <= |s.log| && s.log[c.phase.at] == Entry(id, c.change)) &&
    (forall k :: 0 <= k < |s.log| ==>
       var id := s.log[k].id;
       id in s.calls && s.calls[id].phase.Returned? && s.calls[id].phase.at == k)
  }

  ghost predicate Inv(s: State) {
    s.status == Sequentially(0, s.log) && ReturnedOnce(s) && forall id :: id in s.calls ==> s.calls[id].begin <= |s.log|
  }

  lemma ReturnKeeps(s: State, id: nat, status: bv32)
    requires Inv(s) && id in s.calls && !s.calls[id].phase.Returned? && status == Changed(s.status, s.calls[id].change)
    ensures Inv(Return(s, id, status))
  {
    var s' := Return(s, id, status);
    assert s'.log[..|s'.log| - 1] == s.log;
    assert forall k :: 0 <= k < |s.log| ==> s'.log[k] == s.log[k];
  }

  /** A call begins or goes on without taking effect. */
  lemma GoOnKeeps(s: State, id: nat, c: Call)
    requires Inv(s) && !c.phase.Returned? && c.begin <= |s.log| && (id in s.calls ==> !s.calls[id].phase.Returned?)
    ensures Inv(s.(calls := s.calls[id := c]))
  {
  }

  lemma StepKeeps(s: State, step: Step)
    requires Inv(s)
    ensures Inv(Apply(s, step))
  {
    var id, s' := step.id, Apply(s, step);
    if s'.log == s.log {
      if s' != s {
        GoOnKeeps(s, id, s'.calls[id]);
      }
    } else {
      ReturnKeeps(s, id, Changed(s.status, s.calls[id].change));
    }
  }

  lemma {:induction false} RunKeeps(steps: seq<Step>)
    ensures Inv(Run(steps))
    decreases |steps|
  {
    if steps != [] {
      RunKeeps(steps[..|steps| - 1]);
      StepKeeps(Run(steps[..|steps| - 1]), steps[|steps| - 1]);
    }
  }

  /** Over every interleaving: the status is what the returned calls would make it one after another,
      each exactly once. */
  lemma InterleavingIsSequential(steps: seq<Step>)
    ensures Run(steps).status == Sequentially(0, Run(steps).log) && ReturnedOnce(Run(steps))
  {
    RunKeeps(steps);
  }

  /** In that order a call which returned before another one was made comes first. */
  lemma OrderIsRealTime(steps: seq<Step>, a: nat, b: nat)
    requires var s := Run(steps);
             a in s.calls && b in s.calls && s.calls[a].phase.Returned? && s.calls[b].phase.Returned? &&
             s.calls[a].phase.end <= s.calls[b].begin
    ensures Run(steps).calls[a].phase.at < Run(steps).calls[b].phase.at
  {
    RunKeeps(steps);
  }

  lemma StepGrowsLog(s: State, step: Step)
    ensures |s.log| <= |Apply(s, step).log| && Apply(s, step).log[..|s.log|] == s.log
  {
  }

  /** The log only grows, so what took effect stays. */
  lemma {:induction false} LogGrows(steps: seq<Step>, n: nat)
    requires n <= |steps|
    ensures |Run(steps[..n]).log| <= |Run(steps).log| && Run(steps).log[..|Run(steps[..n]).log|] == Run(steps[..n]).log
    decreases |steps|
  {
    if n < |steps| {
      var before := steps[..|steps| - 1];
      LogGrows(before, n);
      assert before[..n] == steps[..n];
      var mid, last := Run(before).log, Run(steps).log;
      StepGrowsLog(Run(before), steps[|steps| - 1]);
      var k := |Run(steps[..n]).log|;
      assert last[..k] == last[..|mid|][..k];
    } else {
      assert steps[..n] == steps;
    }
  }

  // ----- no update is lost

  /** No entry from `k` on touches the bits the other way. */
  predicate Undisturbed(log: seq<Entry>, k: nat, c: Change) {
    forall j :: k <= j < |log| && log[j].change.on != c.on ==> log[j].change.bits & c.bits == 0
  }

  predicate Holds(status: bv32, c: Change) {
    status & c.bits == if c.on then c.bits else 0
  }

  lemma SetBitsAreSet(status: bv32, bits: bv32)
    ensures (status | bits) & bits == bits
  {
  }

  lemma ClearedBitsAreClear(status: bv32, bits: bv32)
    ensures (status & !bits) & bits == 0
  {
  }

  lemma ChangeHolds(status: bv32, c: Change)
    ensures Holds(Changed(status, c), c)
  {
    if c.on {
      SetBitsAreSet(status, c.bits);
    } else {
      ClearedBitsAreClear(status, c.bits);
    }
  }

  /** A change of the same kind, or of other bits, does not disturb. */
  lemma ChangeKeeps(status: bv32, c: Change, d: Change)
    requires Holds(status, c) && (d.on != c.on ==> d.bits & c.bits == 0)
    ensures Holds(Changed(status, d), c)
  {
  }

  /** A change that took effect shows in the status until one of the opposite kind takes effect. */
  lemma {:induction false} NoUpdateIsLost(status: bv32, log: seq<Entry>, k: nat)
    requires k < |log| && Undisturbed(log, k + 1, log[k].change)
    ensures Holds(Sequentially(status, log), log[k].change)
    decreases |log|
  {
    var before, c, d := log[..|log| - 1], log[k].change, log[|log| - 1].change;
    var was := Sequentially(status, before);
    assert Sequentially(status, log) == Changed(was, d);
    if k == |log| - 1 {
      ChangeHolds(was, c);
    } else {
      assert before[k] == log[k];
      assert Undisturbed(before, k + 1, c) by {
        UndisturbedBefore(log, k + 1, c);
      }
      NoUpdateIsLost(status, before, k);
      ChangeKeeps(was, c, d);
    }
  }

  lemma UndisturbedBefore(log: seq<Entry>, k: nat, c: Change)
    requires |log| > 0 && Undisturbed(log, k, c)
    ensures Undisturbed(log[..|log| - 1], k, c)
  {
  }

  /** The calls the code makes: of the four bits only "loaded" and "deleted" are never cleared. */
  predicate Known(c: Change) {
    c in {Change(LOADED, true), Change(PAUSED, true), Change(PAUSED, false), Change(DELETED, true),
          Change(READ_ONLY, true), Change(READ_ONLY, false)}
  }

  predicate AllKnown(steps: seq<Step>) {
    forall k :: 0 <= k < |steps| && steps[k].Begin? ==> Known(steps[k].change)
  }

  lemma {:induction false} LogIsKnown(steps: seq<Step>)
    requires AllKnown(steps)
    ensures forall id :: id in Run(steps).calls ==> Known(Run(steps).calls[id].change)
    ensures forall k :: 0 <= k < |Run(steps).log| ==> Known(Run(steps).log[k].change)
    decreases |steps|
  {
    if steps != [] {
      LogIsKnown(steps[..|steps| - 1]);
    }
  }

  /** Over every interleaving: once some call that marks the topic deleted took effect the topic is
      inactive in every later state, whatever the calls in progress had loaded before. */
  lemma DeletedForever(steps: seq<Step>, n: nat, k: nat)
    requires AllKnown(steps) && n <= |steps|
    requires k < |Run(steps[..n]).log| && Run(steps[..n]).log[k].change == Change(DELETED, true)
    ensures Run(steps).status & DELETED != 0 && IsInactive(Run(steps).status)
  {
    var s := Run(steps);
    LogGrows(steps, n);
    LogIsKnown(steps);
    RunKeeps(steps);
    assert s.log[k] == s.log[..|Run(steps[..n]).log|][k];
    NoUpdateIsLost(0, s.log, k);
  }

  /** A word with the deleted bit was made so by a call that returned. */
  lemma {:induction false} SetByACall(log: seq<Entry>) returns (k: nat)
    requires Sequentially(0, log) & DELETED != 0
    ensures k < |log| && log[k].change.on && log[k].change.bits & DELETED != 0
    decreases |log|
  {
    var before, c := log[..|log| - 1], log[|log| - 1].change;
    if c.on && c.bits & DELETED != 0 {
      k := |log| - 1;
    } else {
      BitWasThere(Sequentially(0, before), c);
      k := SetByACall(before);
    }
  }

  lemma BitWasThere(status: bv32, c: Change)
    requires Changed(status, c) & DELETED != 0 && (c.on ==> c.bits & DELETED == 0)
    ensures status & DELETED != 0
  {
  }

  /** Over every interleaving: a topic seen deleted stays deleted and inactive. */
  lemma SeenDeletedStaysDeleted(steps: seq<Step>, n: nat)
    requires AllKnown(steps) && n <= |steps| && Run(steps[..n]).status & DELETED != 0
    ensures Run(steps).status & DELETED != 0 && IsInactive(Run(steps).status)
  {
    RunKeeps(steps[..n]);
    var k := SetByACall(Run(steps[..n]).log);
    LogIsKnown(steps[..n]);
    assert Run(steps[..n]).log[k].change == Change(DELETED, true);
    DeletedForever(steps, n, k);
  }

  // ----- what a change does

  lemma OtherBitsAreKept(status: bv32, c: Change)
    ensures Changed(status, c) & !c.bits == status & !c.bits
  {
  }

  predicate IsFlag(flag: bv32) {
    flag == LOADED || flag == PAUSED || flag == DELETED || flag == READ_ONLY
  }

  predicate Has(status: bv32, flag: bv32) {
    status & flag != 0
  }

  /** A change of the code sets or clears its flag and leaves the others alone. */
  lemma ChangeOfFlag(status: bv32, c: Change, flag: bv32)
    requires Known(c) && IsFlag(flag)
    ensures Has(Changed(status, c), flag) <==> if c.bits == flag then c.on else Has(status, flag)
  {
    if c.bits == LOADED {
      assert c == Change(LOADED, true);
    } else if c.bits == PAUSED {
      assert c == Change(PAUSED, c.on);
    } else if c.bits == DELETED {
      assert c == Change(DELETED, true);
    }
  }

  /** What the last change of the flag says, or false if there is none. */
  predicate LastSet(log: seq<Entry>, flag: bv32) {
    log != [] &&
    var c := log[|log| - 1].change;
    if c.bits == flag then c.on else LastSet(log[..|log| - 1], flag)
  }

  lemma {:induction false} FlagAfterLog(log: seq<Entry>, flag: bv32)
    requires IsFlag(flag) && forall k :: 0 <= k < |log| ==> Known(log[k].change)
    ensures Has(Sequentially(0, log), flag) <==> LastSet(log, flag)
    decreases |log|
  {
    if log != [] {
      var before, c := log[..|log| - 1], log[|log| - 1].change;
      FlagAfterLog(before, flag);
      ChangeOfFlag(Sequentially(0, before), c, flag);
    }
  }

  /** Over every interleaving each of the four flags is what the last call that took effect on it made
      it, and not set if there was none. */
  lemma FlagsAreAsLastChanged(steps: seq<Step>, flag: bv32)
    requires AllKnown(steps) && IsFlag(flag)
    ensures Has(Run(steps).status, flag) <==> LastSet(Run(steps).log, flag)
  {
    RunKeeps(steps);
    LogIsKnown(steps);
    FlagAfterLog(Run(steps).log, flag);
  }

  /** A call that is left alone returns in two steps with its change made, whatever the status. */
  lemma LoneCallReturns(s: State, id: nat)
    requires id in s.calls && s.calls[id].phase == Started
    ensures var t := Apply(Apply(s, Load(id)), Swap(id));
            t.status == Changed(s.status, s.calls[id].change) && t.log == s.log + [Entry(id, s.calls[id].change)] &&
            id in t.calls && t.calls[id].phase.Returned?
  {
  }

  /** A swap fails only if the status was changed since it was loaded, and the call then starts over. */
  lemma SwapIff(s: State, id: nat)
    requires id in s.calls && s.calls[id].phase.Loaded?
    ensures var t := Apply(s, Swap(id));
            id in t.calls &&
            if s.calls[id].phase.seen == s.status then t.calls[id].phase.Returned? && t.status == Changed(s.status, s.calls[id].change)
            else t.calls[id].phase == Started && t.status == s.status
  {
  }
}

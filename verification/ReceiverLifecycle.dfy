/**
 The receivers of one peer and one key over time. A receiver runs in its own goroutine and is
 stopped through the shutdown handle registered for its key. An ending goroutine deletes the
 key whatever is registered there, and ensureStream replaces a receiver whose stream is not
 open yet, so a running receiver can lose its handle.
 */
module ReceiverLifecycle {
  import opened Options
  import opened PeerStreams

  datatype State = State(
    slot: Option<Receiver>,  // the registered receiver, with its shutdown handle
    running: set<int>,       // goroutines nobody has told to stop
    stopping: set<int>,      // told to stop, not ended yet
    next: int)

  datatype Action =
    | Ensure
    | Opened(handle: int)
    | Close
    | End(handle: int)

  predicate Enabled(s: State, a: Action) {
    match a
    case Ensure => true
    case Opened(h) => h in s.running || h in s.stopping
    case Close => true
    case End(h) => h in s.running || h in s.stopping
  }

  function Next(s: State, a: Action): State {
    match a
    case Ensure =>
      if s.slot.Some? && s.slot.value.open then s
      else s.(slot := Some(Receiver(s.next, false)), running := s.running + {s.next}, next := s.next + 1)
    case Opened(h) =>
      if s.slot.Some? && s.slot.value.handle == h then s.(slot := Some(Receiver(h, true))) else s
    case Close =>
      if s.slot.None? then s
      else
        var h := s.slot.value.handle;
        s.(slot := None, running := s.running - {h}, stopping := s.stopping + {h})
    case End(h) => s.(slot := None, running := s.running - {h}, stopping := s.stopping - {h})
  }

  const INITIAL := State(None, {}, {}, 0)

  ghost predicate IsRun(states: seq<State>, actions: seq<Action>) {
    && |states| == |actions| + 1
    && states[0] == INITIAL
    && forall i :: 0 <= i < |actions| ==> Enabled(states[i], actions[i]) && states[i + 1] == Next(states[i], actions[i])
  }

  /** The registered receiver runs, and handles are not reused. */
  ghost predicate Inv(s: State) {
    && (s.slot.Some? ==> s.slot.value.handle in s.running)
    && (forall h :: h in s.running || h in s.stopping ==> h < s.next)
    && s.running !! s.stopping
  }

  /** Every running receiver is the registered one, so closing the key stops it. */
  ghost predicate Stoppable(s: State) {
    forall h :: h in s.running ==> s.slot.Some? && s.slot.value.handle == h
  }

  /**
   The steps that leave no receiver behind: ensuring a stream when none is registered or the
   registered one is open, and ending while nothing newer is registered.
   */
  predicate Tidy(s: State, a: Action) {
    match a
    case Ensure => s.slot.None? || s.slot.value.open
    case End(h) => s.slot.None? || s.slot.value.handle == h
    case _ => true
  }

  lemma StepKeepsInv(s: State, a: Action)
    requires Inv(s) && Enabled(s, a)
    ensures Inv(Next(s, a))
  {
  }

  /** From a state in which everything can be stopped, a step keeps that exactly when it is tidy. */
  lemma StoppableIffTidy(s: State, a: Action)
    requires Inv(s) && Enabled(s, a) && Stoppable(s)
    ensures Stoppable(Next(s, a)) <==> Tidy(s, a)
  {
    if !Tidy(s, a) {
      assert s.slot.value.handle in Next(s, a).running;
    }
  }

  lemma {:induction false} RunKeepsInv(states: seq<State>, actions: seq<Action>, k: nat)
    requires IsRun(states, actions) && k < |states|
    ensures Inv(states[k])
  {
    if k > 0 {
      RunKeepsInv(states, actions, k - 1);
      StepKeepsInv(states[k - 1], actions[k - 1]);
    }
  }

  /** In every run: each receiver could be stopped at all times iff every step so far was tidy. */
  lemma {:induction false} AlwaysStoppableIffTidy(states: seq<State>, actions: seq<Action>, k: nat)
    requires IsRun(states, actions) && k < |states|
    ensures (forall i :: 0 <= i <= k ==> Stoppable(states[i])) <==>
            (forall i :: 0 <= i < k ==> Tidy(states[i], actions[i]))
  {
    if k > 0 {
      AlwaysStoppableIffTidy(states, actions, k - 1);
      RunKeepsInv(states, actions, k - 1);
      var s, a := states[k - 1], actions[k - 1];
      assert states[k] == Next(s, a);
      if Stoppable(s) {
        StoppableIffTidy(s, a);
      }
    }
  }

  /** Nothing to stop: closing the key leaves no receiver running. */
  lemma CloseStopsAll(s: State)
    requires Inv(s) && Stoppable(s)
    ensures Next(s, Close).running == {} && Next(s, Close).slot.None?
  {
    assert forall h :: h !in Next(s, Close).running;
  }

  /**
   Reconnecting before the old goroutine has ended: its end takes the new receiver's entry away,
   the new one runs on, and the next reconciliation starts a second stream beside it.
   */
  lemma StaleEndOrphans(s: State) returns (orphaned: State, doubled: State)
    requires Inv(s) && s.slot.Some?
    ensures var old' := s.slot.value.handle;
            && orphaned == Next(Next(Next(s, Close), Ensure), End(old'))
            && Enabled(Next(Next(s, Close), Ensure), End(old'))
    ensures orphaned.slot.None? && s.next in orphaned.running && !Stoppable(orphaned)
    ensures doubled == Next(orphaned, Ensure) && {s.next, s.next + 1} <= doubled.running
  {
    orphaned := Next(Next(Next(s, Close), Ensure), End(s.slot.value.handle));
    doubled := Next(orphaned, Ensure);
  }

  // ---------- the manager takes these steps ----------

  function SlotOf(peers: map<string, Streams>, p: string, k: Key): Option<Receiver> {
    if p in peers && k in peers[p].receivers then Some(peers[p].receivers[k]) else None
  }

  method Do(m: PeerManager, p: string, k: Key, a: Action, ghost s: State)
    requires m.Valid() && SlotOf(m.peers, p, k) == s.slot && m.nextHandle == s.next && Enabled(s, a)
    modifies m`peers, m`nextHandle
    ensures m.Valid() && SlotOf(m.peers, p, k) == Next(s, a).slot && m.nextHandle == Next(s, a).next
  {
    match a
    case Ensure => m.EnsureStream(p, k, true);
    case Opened(h) => m.ReceiverOpened(p, k, h);
    case Close =>
      if p in m.peers {
        m.CloseShard(p, k);
      }
    case End(_) => m.ReceiverEnded(p, k);
  }

  /** A manager driven through any run of one key has the run's receiver registered. */
  method Replay(p: string, k: Key, actions: seq<Action>, ghost states: seq<State>) returns (slot: Option<Receiver>)
    requires IsRun(states, actions)
    ensures slot == states[|actions|].slot
  {
    var m := new PeerManager("self");
    for i := 0 to |actions|
      invariant fresh(m) && m.Valid() && SlotOf(m.peers, p, k) == states[i].slot && m.nextHandle == states[i].next
    {
      Do(m, p, k, actions[i], states[i]);
    }
    slot := SlotOf(m.peers, p, k);
  }
}

/**
 StreamForwarder: two lanes, one per direction, each with a listener goroutine that reads
 one value at a time and a forwarding loop that takes it over an unbuffered channel, plus
 one shutdown latch shared by all four. Every receive, hand-over and send is one step.
 */
module StreamForwarder {
  /** A stream message; `known` says whether it is of the type the lane forwards. */
  datatype Msg = Msg(body: int, known: bool)

  /** What a receive yields. A fault may be a failure to seal or open (a VisitError). */
  datatype Item = Message(msg: Msg) | Eof | Fault(visit: bool)

  datatype Cause = Shutdown | SawEof | SawFault(visit: bool) | SendFailed | UnknownType | ListenerGone

  datatype Listener = Reading | Holding(item: Item) | Closed

  datatype Loop = Taking | Sending(msg: Msg) | Done(cause: Cause)

  datatype Lane = Lane(received: seq<Msg>, listener: Listener, loop: Loop, sent: seq<Msg>)

  const IDLE := Lane([], Reading, Taking, [])

  /** `messages` runs from the source to the target, `acks` the other way. */
  datatype State = State(messages: Lane, acks: Lane, latched: bool, visitErr: bool)

  const INITIAL := State(IDLE, IDLE, false, false)

  datatype Step =
    | Receive(item: Item)
    | Hand
    | ListenerStops
    | SendSucceeds
    | SendFails
    | SeeShutdown
    | SeeClosed

  datatype Action = Action(onMessages: bool, step: Step)

  predicate LaneEnabled(l: Lane, latched: bool, step: Step) {
    match step
    case Receive(_) => l.listener.Reading?
    case Hand => l.listener.Holding? && l.loop.Taking?
    case ListenerStops => !l.listener.Closed? && latched
    case SendSucceeds => l.loop.Sending?
    case SendFails => l.loop.Sending?
    case SeeShutdown => l.loop.Taking? && latched
    case SeeClosed => l.loop.Taking? && l.listener.Closed?
  }

  /** What the loop does with a value it takes. */
  function Took(item: Item): Loop {
    match item
    case Message(m) => if m.known then Sending(m) else Done(UnknownType)
    case Eof => Done(SawEof)
    case Fault(visit) => Done(SawFault(visit))
  }

  /** The listener looks at the latch between two receives. */
  function LaneNext(l: Lane, latched: bool, step: Step): Lane
    requires step.Hand? ==> l.listener.Holding?
    requires step.SendSucceeds? ==> l.loop.Sending?
  {
    match step
    case Receive(item) =>
      l.(received := if item.Message? then l.received + [item.msg] else l.received, listener := Holding(item))
    case Hand => l.(listener := if latched then Closed else Reading, loop := Took(l.listener.item))
    case ListenerStops => l.(listener := Closed)
    case SendSucceeds => l.(sent := l.sent + [l.loop.msg], loop := Taking)
    case SendFails => l.(loop := Done(SendFailed))
    case SeeShutdown => l.(loop := Done(Shutdown))
    case SeeClosed => l.(loop := Done(ListenerGone))
  }

  predicate Enabled(s: State, a: Action) {
    LaneEnabled(if a.onMessages then s.messages else s.acks, s.latched, a.step)
  }

  /** A loop that ends latches the shutdown; only the messages lane records a VisitError. */
  function Next(s: State, a: Action): State
    requires Enabled(s, a)
  {
    var lane := LaneNext(if a.onMessages then s.messages else s.acks, s.latched, a.step);
    var t := if a.onMessages then s.(messages := lane) else s.(acks := lane);
    t.(latched := s.latched || lane.loop.Done?,
       visitErr := s.visitErr || (a.onMessages && lane.loop == Done(SawFault(true))))
  }

  ghost predicate IsRun(states: seq<State>, actions: seq<Action>) {
    && |states| == |actions| + 1
    && states[0] == INITIAL
    && forall i :: 0 <= i < |actions| ==> Enabled(states[i], actions[i]) && states[i + 1] == Next(states[i], actions[i])
  }

  /** Messages read by the listener and not yet handed over. */
  function InHand(l: Listener): seq<Msg> {
    if l.Holding? && l.item.Message? then [l.item.msg] else []
  }

  function InLoop(l: Loop): seq<Msg> {
    if l.Sending? then [l.msg] else []
  }

  ghost predicate LaneSound(l: Lane) {
    && l.sent <= l.received
    && (!l.loop.Done? && !l.listener.Closed? ==> l.received == l.sent + InLoop(l.loop) + InHand(l.listener))
    && (!l.loop.Done? && l.listener.Closed? ==> l.sent + InLoop(l.loop) <= l.received)
  }

  lemma LaneStepKeeps(l: Lane, latched: bool, step: Step)
    requires LaneSound(l) && LaneEnabled(l, latched, step)
    ensures LaneSound(LaneNext(l, latched, step))
  {
  }

  ghost predicate Inv(s: State) {
    && LaneSound(s.messages) && LaneSound(s.acks)
    && (s.visitErr <==> s.messages.loop == Done(SawFault(true)))
    && (s.messages.loop.Done? || s.acks.loop.Done? ==> s.latched)
  }

  lemma {:induction false} RunKeepsInv(states: seq<State>, actions: seq<Action>, k: nat)
    requires IsRun(states, actions) && k < |states|
    ensures Inv(states[k])
  {
    if k > 0 {
      RunKeepsInv(states, actions, k - 1);
      var s, a := states[k - 1], actions[k - 1];
      assert states[k] == Next(s, a);
      LaneStepKeeps(if a.onMessages then s.messages else s.acks, s.latched, a.step);
    }
  }

  /** In every interleaving, each side has been sent an in-order prefix of what came from the other. */
  lemma SentIsPrefixOfReceived(states: seq<State>, actions: seq<Action>, k: nat)
    requires IsRun(states, actions) && k < |states|
    ensures states[k].messages.sent <= states[k].messages.received
    ensures states[k].acks.sent <= states[k].acks.received
  {
    RunKeepsInv(states, actions, k);
  }

  datatype Outcome = Nil | OpenError | VisitError

  /** What Run returns once both loops are done, or at once when the stream cannot be connected. */
  function RunReturns(connected: bool, s: State): Outcome {
    if !connected then OpenError else if s.visitErr then VisitError else Nil
  }

  /** The loop that forwards to the target was handed a failure to seal or open, in the first k steps. */
  ghost predicate SourceFailedToVisit(states: seq<State>, actions: seq<Action>, k: nat)
    requires |states| == |actions| + 1 && k <= |actions|
  {
    exists i :: 0 <= i < k && actions[i] == Action(true, Hand) && states[i].messages.listener == Holding(Fault(true))
  }

  lemma {:induction false} VisitErrorWasHanded(states: seq<State>, actions: seq<Action>, k: nat)
    requires IsRun(states, actions) && k <= |actions|
    ensures states[k].visitErr <==> SourceFailedToVisit(states, actions, k)
  {
    if k > 0 {
      VisitErrorWasHanded(states, actions, k - 1);
      RunKeepsInv(states, actions, k - 1);
      assert states[k] == Next(states[k - 1], actions[k - 1]);
      if actions[k - 1] == Action(true, Hand) && states[k - 1].messages.listener == Holding(Fault(true)) {
        assert SourceFailedToVisit(states, actions, k);
      }
    }
  }

  /** An open stream returns an error exactly when a VisitError ended the source direction. */
  lemma ErrorIffVisitErrorEndedSource(states: seq<State>, actions: seq<Action>, k: nat, connected: bool)
    requires IsRun(states, actions) && k < |states|
    requires states[k].messages.loop.Done? && states[k].acks.loop.Done?
    ensures RunReturns(connected, states[k]) != Nil <==> !connected || states[k].messages.loop.cause == SawFault(true)
    ensures RunReturns(connected, states[k]) == OpenError <==> !connected
    ensures RunReturns(connected, states[k]) == VisitError <==> connected && SourceFailedToVisit(states, actions, k)
  {
    RunKeepsInv(states, actions, k);
    VisitErrorWasHanded(states, actions, k);
  }

  /** What a lane can still send once the latch is set: what it is sending, and one more. */
  function Remaining(l: Lane): nat {
    (if l.loop.Sending? then 1 else 0) + (if l.listener.Closed? then 0 else 1)
  }

  function Budget(l: Lane): nat {
    |l.sent| + Remaining(l)
  }

  /** After any part of the forwarder has ended, each lane sends at most two more messages. */
  lemma {:induction false} ShutdownIsPrompt(states: seq<State>, actions: seq<Action>, j: nat, k: nat)
    requires IsRun(states, actions) && j <= k < |states| && states[j].latched
    ensures states[k].latched
    ensures Budget(states[k].messages) <= Budget(states[j].messages) && Budget(states[k].acks) <= Budget(states[j].acks)
    ensures |states[k].messages.sent| <= |states[j].messages.sent| + 2
    ensures |states[k].acks.sent| <= |states[j].acks.sent| + 2
  {
    if j < k {
      ShutdownIsPrompt(states, actions, j, k - 1);
      assert states[k] == Next(states[k - 1], actions[k - 1]);
    }
  }

  lemma AppendStep(states: seq<State>, actions: seq<Action>, a: Action)
    requires IsRun(states, actions) && Enabled(states[|actions|], a)
    ensures IsRun(states + [Next(states[|actions|], a)], actions + [a])
  {
    var longer, more := states + [Next(states[|actions|], a)], actions + [a];
    forall i | 0 <= i < |more|
      ensures Enabled(longer[i], more[i]) && longer[i + 1] == Next(longer[i], more[i])
    {
      if i < |actions| {
        assert longer[i] == states[i] && longer[i + 1] == states[i + 1] && more[i] == actions[i];
      }
    }
  }

  /** The step with which a loop that has seen the latch can end. */
  function EndingStep(l: Loop): Step {
    if l.Sending? then SendFails else SeeShutdown
  }

  /** Once the latch is set, one more step ends either loop, whatever the peers do: no run is stuck short of the end. */
  lemma LatchedRunCanFinish(states: seq<State>, actions: seq<Action>, onMessages: bool)
    returns (states': seq<State>, actions': seq<Action>)
    requires IsRun(states, actions) && states[|actions|].latched
    ensures IsRun(states', actions') && states <= states' && |actions'| <= |actions| + 1
    ensures var s, s' := states[|actions|], states'[|actions'|];
            && (if onMessages then s'.messages.loop.Done? && s'.acks == s.acks
                else s'.acks.loop.Done? && s'.messages == s.messages)
            && s'.latched
  {
    var s := states[|actions|];
    var loop := (if onMessages then s.messages else s.acks).loop;
    if loop.Done? {
      states', actions' := states, actions;
    } else {
      var a := Action(onMessages, EndingStep(loop));
      AppendStep(states, actions, a);
      states', actions' := states + [Next(s, a)], actions + [a];
    }
  }

  // ---------- one loop on its own ----------

  /** The messages among the items. */
  function Messages(items: seq<Item>): seq<Msg> {
    if items == [] then []
    else Messages(items[..|items| - 1]) + if items[|items| - 1].Message? then [items[|items| - 1].msg] else []
  }

  /**
   A forwarding loop over the values it takes, `accepts` saying which sends succeed; with
   no value left it sees the shutdown. It sends everything before the value that ends it.
   */
  method ForwardLoop(items: seq<Item>, accepts: seq<bool>) returns (sent: seq<Msg>, cause: Cause)
    requires |accepts| == |items|
    ensures |sent| <= |items| && sent == Messages(items[..|sent|])
    ensures forall i :: 0 <= i < |sent| ==> items[i].Message? && items[i].msg.known && accepts[i]
    ensures |sent| == |items| ==> cause == Shutdown
    ensures |sent| < |items| ==>
              match items[|sent|]
              case Message(m) => if m.known then !accepts[|sent|] && cause == SendFailed else cause == UnknownType
              case Eof => cause == SawEof
              case Fault(visit) => cause == SawFault(visit)
  {
    sent := [];
    for i := 0 to |items|
      invariant |sent| == i && sent == Messages(items[..i])
      invariant forall k :: 0 <= k < i ==> items[k].Message? && items[k].msg.known && accepts[k]
    {
      assert items[..i + 1][..i] == items[..i];
      match items[i] {
        case Eof => return sent, SawEof;
        case Fault(visit) => return sent, SawFault(visit);
        case Message(m) =>
          if !m.known {
            return sent, UnknownType;
          }
          if !accepts[i] {
            return sent, SendFailed;
          }
          sent := sent + [m];
      }
    }
    cause := Shutdown;
  }
}

/**
 proxyStreamReceiver, acknowledgement side: keep the latest level of every target that has
 acknowledged, and send the minimum upstream, clamped to the last source watermark and
 never below what was sent before. The source watermark is written by the other goroutine,
 so the locked computation and the send are two steps.
 */
module AckAggregation {
  import opened Shards
  import opened Options

  ghost predicate IsLeast(levels: map<ShardId, int>, least: int) {
    (exists t :: t in levels && levels[t] == least) && forall t :: t in levels ==> least <= levels[t]
  }

  /** What the locked section leaves to the send: the minimum, and the watermark read with it. */
  datatype Candidate = Candidate(least: int, high: int)

  /** An acknowledgement sent upstream, with the levels and source watermark known then. */
  datatype Sent = Sent(level: int, known: map<ShardId, int>, sourceHigh: int, keepalive: bool)

  datatype State = State(
    ackByTarget: map<ShardId, int>,
    lastSentMin: int,
    high: int,
    lastSentAck: Option<int>,
    candidate: Option<Candidate>,
    upstream: seq<Sent>)

  const INITIAL := State(map[], 0, 0, None, None, [])

  /** The clamp on a minimum that is not below the last one sent. */
  function Clamp(c: Candidate): int {
    if c.high > 0 && c.least > c.high then c.high else c.least
  }

  datatype Action =
    | SetHigh(high: int)
    | TakeAck(target: ShardId, level: int, least: int)
    | SendUp
    | Keepalive

  ghost predicate Enabled(s: State, a: Action) {
    match a
    case SetHigh(_) => true
    case TakeAck(target, level, least) => s.candidate.None? && IsLeast(s.ackByTarget[target := level], least)
    case SendUp => s.candidate.Some?
    case Keepalive => s.candidate.None? && s.lastSentAck.Some?
  }

  function Next(s: State, a: Action): State {
    match a
    case SetHigh(high) => s.(high := high)
    case TakeAck(target, level, least) =>
      s.(ackByTarget := s.ackByTarget[target := level], candidate := Some(Candidate(least, s.high)))
    case SendUp =>
      if s.candidate.Some? && s.candidate.value.least >= s.lastSentMin then
        var level := Clamp(s.candidate.value);
        s.(candidate := None, lastSentMin := level, lastSentAck := Some(level),
           upstream := s.upstream + [Sent(level, s.ackByTarget, s.high, false)])
      else s.(candidate := None)
    case Keepalive =>
      if s.lastSentAck.Some? then
        s.(upstream := s.upstream + [Sent(s.lastSentAck.value, s.ackByTarget, s.high, true)])
      else s
  }

  ghost predicate IsRun(states: seq<State>, actions: seq<Action>) {
    && |states| == |actions| + 1
    && states[0] == INITIAL
    && forall i :: 0 <= i < |actions| ==> Enabled(states[i], actions[i]) && states[i + 1] == Next(states[i], actions[i])
  }

  /** Source watermarks never fall, and a positive one arrives before any acknowledgement. */
  ghost predicate SourceContract(s: State, a: Action) {
    match a
    case SetHigh(high) => s.high <= high
    case TakeAck(_, _, _) => s.high > 0
    case _ => true
  }

  /** Levels sent upstream never fall, keepalives included. */
  ghost predicate Monotone(upstream: seq<Sent>) {
    forall i, j :: 0 <= i < j < |upstream| ==> upstream[i].level <= upstream[j].level
  }

  /** A level computed from acknowledgements respects every known target and the source watermark. */
  ghost predicate Bounded(upstream: seq<Sent>) {
    forall i :: 0 <= i < |upstream| && !upstream[i].keepalive ==>
      && upstream[i].level <= upstream[i].sourceHigh
      && forall t :: t in upstream[i].known ==> upstream[i].level <= upstream[i].known[t]
  }

  /** A keepalive repeats an earlier computed level. */
  ghost predicate KeepalivesRepeat(upstream: seq<Sent>) {
    forall i :: 0 <= i < |upstream| && upstream[i].keepalive ==>
      exists j :: 0 <= j < i && !upstream[j].keepalive && upstream[j].level == upstream[i].level
  }

  ghost predicate Inv(s: State) {
    && Monotone(s.upstream) && Bounded(s.upstream) && KeepalivesRepeat(s.upstream)
    && (s.upstream != [] ==> s.upstream[|s.upstream| - 1].level == s.lastSentMin && s.lastSentMin <= s.high)
    && s.lastSentAck == (if s.upstream == [] then None else Some(s.lastSentMin))
    && (s.upstream == [] ==> s.lastSentMin == 0)
    && (s.candidate.Some? ==>
          var c := s.candidate.value;
          && IsLeast(s.ackByTarget, c.least) && 0 < c.high <= s.high
          && (s.upstream != [] ==> s.lastSentMin <= c.high))
  }

  lemma RepeatsKept(upstream: seq<Sent>, next: Sent)
    requires KeepalivesRepeat(upstream)
    requires next.keepalive ==> upstream != [] && upstream[|upstream| - 1].level == next.level
    ensures KeepalivesRepeat(upstream + [next])
  {
    var all := upstream + [next];
    forall i | 0 <= i < |all| && all[i].keepalive
      ensures exists j :: 0 <= j < i && !all[j].keepalive && all[j].level == all[i].level
    {
      var from := if i < |upstream| then i else i - 1;
      var j := if upstream[from].keepalive then
        var j :| 0 <= j < from && !upstream[j].keepalive && upstream[j].level == upstream[from].level; j
      else from;
      assert all[j] == upstream[j];
    }
  }

  lemma StepKeepsInv(s: State, a: Action)
    requires Inv(s) && Enabled(s, a) && SourceContract(s, a)
    ensures Inv(Next(s, a))
  {
    var t := Next(s, a);
    if t.upstream != s.upstream {
      var next := t.upstream[|s.upstream|];
      assert t.upstream == s.upstream + [next];
      RepeatsKept(s.upstream, next);
    }
  }

  lemma {:induction false} UpstreamAcksMonotoneAndBounded(states: seq<State>, actions: seq<Action>, k: nat)
    requires IsRun(states, actions) && k < |states|
    requires forall i :: 0 <= i < k ==> SourceContract(states[i], actions[i])
    ensures Inv(states[k])
  {
    if k > 0 {
      UpstreamAcksMonotoneAndBounded(states, actions, k - 1);
      StepKeepsInv(states[k - 1], actions[k - 1]);
    }
  }

  /** Each entry of the history was sent by its own step, with the levels and the watermark of that moment. */
  lemma {:induction false} SendsAreOfTheirTime(states: seq<State>, actions: seq<Action>, k: nat, j: nat)
    returns (i: nat)
    requires IsRun(states, actions) && k < |states| && j < |states[k].upstream|
    ensures i < k && |states[i].upstream| == j && (actions[i].SendUp? || actions[i].Keepalive?)
    ensures var sent := states[k].upstream[j];
            && sent.known == states[i].ackByTarget && sent.sourceHigh == states[i].high
            && sent.keepalive == actions[i].Keepalive?
  {
    assert states[k] == Next(states[k - 1], actions[k - 1]);
    if j < |states[k - 1].upstream| {
      i := SendsAreOfTheirTime(states, actions, k - 1, j);
    } else {
      i := k - 1;
    }
  }

  /** A send that goes out below the previous one: the clamp is the only way down. */
  ghost predicate ClampsBelow(s: State) {
    && s.upstream != [] && s.candidate.Some? && s.candidate.value.least >= s.lastSentMin
    && 0 < s.candidate.value.high < s.lastSentMin
  }

  /** Keepalives repeat the last level sent, whatever the source does. */
  ghost predicate RemembersLast(s: State) {
    && s.lastSentAck == (if s.upstream == [] then None else Some(s.lastSentMin))
    && (s.upstream != [] ==> s.upstream[|s.upstream| - 1].level == s.lastSentMin)
  }

  lemma {:induction false} RunRemembersLast(states: seq<State>, actions: seq<Action>, k: nat)
    requires IsRun(states, actions) && k < |states|
    ensures RemembersLast(states[k])
  {
    if k > 0 {
      RunRemembersLast(states, actions, k - 1);
      assert states[k] == Next(states[k - 1], actions[k - 1]);
    }
  }

  /** The receiver can repeat its acknowledgement exactly when it is between two and has sent one. */
  lemma KeepaliveIff(states: seq<State>, actions: seq<Action>, k: nat)
    requires IsRun(states, actions) && k < |states|
    ensures Enabled(states[k], Keepalive) <==> states[k].candidate.None? && states[k].upstream != []
  {
    RunRemembersLast(states, actions, k);
  }

  /** With no assumption on the source, the levels of a run never fall iff no send is clamped below. */
  lemma {:induction false} MonotoneIffNeverClampedBelow(states: seq<State>, actions: seq<Action>, k: nat)
    requires IsRun(states, actions) && k < |states|
    ensures Monotone(states[k].upstream) <==> forall i :: 0 <= i < k && actions[i].SendUp? ==> !ClampsBelow(states[i])
  {
    if k > 0 {
      MonotoneIffNeverClampedBelow(states, actions, k - 1);
      RunRemembersLast(states, actions, k - 1);
      var s, t := states[k - 1], states[k];
      assert t == Next(s, actions[k - 1]);
      if t.upstream != s.upstream {
        var n := |s.upstream|;
        assert t.upstream == s.upstream + [t.upstream[n]];
        assert Monotone(t.upstream) ==> Monotone(s.upstream) by {
          assert forall i :: 0 <= i < n ==> t.upstream[i] == s.upstream[i];
        }
        if n > 0 && t.upstream[n].level < s.lastSentMin {
          assert t.upstream[n - 1].level > t.upstream[n].level;
        }
      }
    }
  }

  /** Without a watermark before the first acknowledgement, the levels sent can fall. */
  lemma EarlyAckCanFall(t: ShardId) returns (states: seq<State>, actions: seq<Action>)
    ensures IsRun(states, actions)
    ensures forall i :: 0 <= i < |actions| && actions[i].SetHigh? ==> states[i].high <= actions[i].high
    ensures !Monotone(states[|actions|].upstream)
  {
    actions := [TakeAck(t, 10, 10), SendUp, SetHigh(5), TakeAck(t, 12, 12), SendUp];
    var s1 := Next(INITIAL, actions[0]);
    var s2 := Next(s1, actions[1]);
    var s3 := Next(s2, actions[2]);
    var s4 := Next(s3, actions[3]);
    var s5 := Next(s4, actions[4]);
    states := [INITIAL, s1, s2, s3, s4, s5];
    assert s1.ackByTarget[t] == 10 && s4.ackByTarget[t] == 12;
    assert s5.upstream[0].level == 10 && s5.upstream[1].level == 5;
  }

  class Aggregator {
    var ackByTarget: map<ShardId, int>
    var lastSentMin: int
    var lastExclusiveHigh: int
    var lastSentAck: Option<int>

    /** The fields as a state; the goroutine's local candidate and the history are the caller's. */
    ghost predicate Matches(s: State)
      reads this
    {
      && s.ackByTarget == ackByTarget && s.lastSentMin == lastSentMin
      && s.high == lastExclusiveHigh && s.lastSentAck == lastSentAck
    }

    constructor ()
      ensures Matches(INITIAL)
    {
      ackByTarget, lastSentMin, lastExclusiveHigh, lastSentAck := map[], 0, 0, None;
    }

    method SetHigh(high: int)
      modifies this`lastExclusiveHigh
      ensures lastExclusiveHigh == high
    {
      lastExclusiveHigh := high;
    }

    /** The locked section: record a target's level and compute the minimum over all targets. */
    method TakeAck(target: ShardId, level: int) returns (c: Candidate)
      modifies this`ackByTarget
      ensures ackByTarget == old(ackByTarget)[target := level]
      ensures IsLeast(ackByTarget, c.least) && c.high == lastExclusiveHigh
    {
      ackByTarget := ackByTarget[target := level];
      var min, first := 0, true;
      var unvisited := ackByTarget.Keys;
      while unvisited != {}
        invariant unvisited <= ackByTarget.Keys
        invariant first <==> unvisited == ackByTarget.Keys
        invariant !first ==> exists t :: t in ackByTarget && t !in unvisited && ackByTarget[t] == min
        invariant forall t :: t in ackByTarget && t !in unvisited ==> min <= ackByTarget[t]
        decreases |unvisited|
      {
        var t :| t in unvisited;
        unvisited := unvisited - {t};
        if first || ackByTarget[t] < min {
          min, first := ackByTarget[t], false;
        }
      }
      assert target in ackByTarget;
      c := Candidate(min, lastExclusiveHigh);
    }

    /** The send: skip a minimum below the last one sent, else clamp it and remember it. */
    method SendUp(c: Candidate) returns (sent: Option<int>)
      modifies this`lastSentMin, this`lastSentAck
      ensures sent == if c.least >= old(lastSentMin) then Some(Clamp(c)) else None
      ensures sent.Some? ==> sent.value == if 0 < c.high < c.least then c.high else c.least
      ensures lastSentMin == if sent.Some? then sent.value else old(lastSentMin)
      ensures lastSentAck == if sent.Some? then sent else old(lastSentAck)
    {
      if c.least < lastSentMin {
        return None;
      }
      var level := c.least;
      if c.high > 0 && level > c.high {
        level := c.high;
      }
      lastSentMin := level;
      lastSentAck := Some(level);
      sent := Some(level);
    }
  }

  /** The class, driven through any run, sends what the run says. */
  method Replay(actions: seq<Action>, ghost states: seq<State>) returns (levels: seq<int>)
    requires IsRun(states, actions)
    ensures |levels| == |states[|actions|].upstream|
    ensures forall i :: 0 <= i < |levels| ==> levels[i] == states[|actions|].upstream[i].level
  {
    var agg := new Aggregator();
    var c := Candidate(0, 0);
    levels := [];
    for i := 0 to |actions|
      invariant fresh(agg) && agg.Matches(states[i])
      invariant states[i].candidate.Some? ==> states[i].candidate.value == c
      invariant |levels| == |states[i].upstream|
      invariant forall k :: 0 <= k < |levels| ==> levels[k] == states[i].upstream[k].level
    {
      assert states[i + 1] == Next(states[i], actions[i]);
      match actions[i] {
        case SetHigh(high) =>
          agg.SetHigh(high);
        case TakeAck(target, level, least) =>
          c := agg.TakeAck(target, level);
        case SendUp =>
          var sent := agg.SendUp(c);
          if sent.Some? {
            levels := levels + [sent.value];
          }
        case Keepalive =>
          if agg.lastSentAck.Some? {
            levels := levels + [agg.lastSentAck.value];
          }
      }
    }
  }
}

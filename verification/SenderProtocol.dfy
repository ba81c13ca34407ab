/**
 The sender's two goroutines interleaved. Each critical section of the mutex, and each
 network send, is one atomic step: the send loop rewrites and emits batches or keepalives
 while the acknowledgement loop aggregates, forwards one level at a time, and discards.
 History fields record everything ever recorded in the ring, sent, and forwarded.
 */
module SenderProtocol {
  import opened Shards
  import opened Delivery
  import opened IdLog
  import opened Options
  import opened StreamSender

  /** A value recorded in the ring: a task's original ID, or the watermark of an empty batch. */
  datatype Entry = Entry(source: ShardId, value: int, isTask: bool)

  /** A message on the wire to the target, reduced to its task IDs and watermark. */
  datatype Wire = Wire(ids: seq<int>, high: int)

  datatype Ack = Ack(source: ShardId, level: int)

  datatype SendPhase = Ready | Emitting(wire: Wire) | SendEnded

  datatype AckPhase =
    | Waiting
    | Forwarding(levels: map<ShardId, int>, isFresh: bool, count: nat, left: set<ShardId>)
    | AckEnded

  datatype State = State(
    core: Core,
    sending: SendPhase,
    acking: AckPhase,
    recorded: seq<Entry>,  // proxy ID p is recorded[p - 1]
    dropped: nat,          // how many of them were discarded
    top: int,              // largest watermark received, 0 before the first
    wire: seq<Wire>,
    forwarded: seq<Ack>)

  const INITIAL := State(FRESH, Ready, Waiting, [], 0, 0, [], [])

  datatype Action =
    | Rewrite(source: ShardId, ids: seq<int>, high: int)
    | Emit
    | Keepalive
    | EndSend
    | Aggregate(watermark: int)
    | Forward(source: ShardId)
    | Discard
    | EndAck

  function Entries(source: ShardId, ids: seq<int>, high: int): (es: seq<Entry>)
    ensures |es| == |Recorded(ids, high)|
    ensures forall i :: 0 <= i < |es| ==> es[i] == Entry(source, Recorded(ids, high)[i], ids != [])
  {
    var values := Recorded(ids, high);
    seq(|values|, i requires 0 <= i < |values| => Entry(source, values[i], ids != []))
  }

  function WireOf(next: int, n: nat): Wire {
    Wire(seq(n, i => next + 1 + i), ProxyHigh(next, n))
  }

  predicate Enabled(s: State, a: Action) {
    match a
    case Rewrite(_, _, _) => s.sending.Ready?
    case Emit => s.sending.Emitting?
    case Keepalive => s.sending.Ready? && s.core.lastSent > 0
    case EndSend => true
    case Aggregate(_) => s.acking.Waiting?
    case Forward(source) => s.acking.Forwarding? && source in s.acking.left && source in s.acking.levels
    case Discard => s.acking.Forwarding? && s.acking.left == {}
    case EndAck => true
  }

  function Next(s: State, a: Action): State
    requires Enabled(s, a)
  {
    match a
    case Rewrite(source, ids, high) =>
      s.(core := Record(s.core, source, ids, high),
         sending := Emitting(WireOf(s.core.next, |ids|)),
         recorded := s.recorded + Entries(source, ids, high))
    case Emit =>
      s.(core := s.core.(lastSent := s.sending.wire.high), sending := Ready, wire := s.wire + [s.sending.wire])
    case Keepalive => s.(wire := s.wire + [Wire([], s.core.lastSent)])
    case EndSend => s.(sending := SendEnded)
    case Aggregate(w) =>
      var log := s.core.log;
      var count := Covered(log.start, |log.entries|, w);
      var levels := Levels(s.core, w);
      s.(acking := Forwarding(levels, |AckMap(log.entries[..count])| > 0, count, levels.Keys),
         top := if w > s.top then w else s.top)
    case Forward(source) =>
      ForwardOne(s, source)
    case Discard =>
      s.(core := s.core.(log := if s.acking.count > 0 then DropFrom(s.core.log, s.acking.count) else s.core.log),
         dropped := s.dropped + s.acking.count, acking := Waiting)
    case EndAck => s.(acking := AckEnded)
  }

  function ForwardOne(s: State, source: ShardId): State
    requires s.acking.Forwarding? && source in s.acking.left && source in s.acking.levels
  {
    var level := s.acking.levels[source];
    s.(core := if s.acking.isFresh then s.core.(prevAck := s.core.prevAck[source := level]) else s.core,
       acking := s.acking.(left := s.acking.left - {source}),
       forwarded := s.forwarded + [Ack(source, level)])
  }

  /** A run from the initial state under any interleaving. */
  ghost predicate IsRun(states: seq<State>, actions: seq<Action>) {
    && |states| == |actions| + 1
    && states[0] == INITIAL
    && forall i :: 0 <= i < |actions| ==> Enabled(states[i], actions[i]) && states[i + 1] == Next(states[i], actions[i])
  }

  // ---------- invariants ----------

  function Plain(es: seq<Entry>): (m: seq<Mapping>)
    ensures |m| == |es|
  {
    seq(|es|, i requires 0 <= i < |es| => Mapping(es[i].source, es[i].value))
  }

  /** The ring holds exactly what was recorded and not yet dropped, at the right proxy IDs. */
  ghost predicate RingMatchesHistory(s: State) {
    && s.core.next == |s.recorded| && s.dropped <= |s.recorded|
    && s.core.log.entries == Plain(s.recorded[s.dropped..])
    && (s.core.log.entries != [] ==> s.core.log.start == s.dropped + 1)
  }

  /** The level is a value of that source recorded at a proxy ID the target has reached. */
  ghost predicate Witnessed(s: State, source: ShardId, level: int) {
    exists j :: 0 <= j < |s.recorded| && j < s.top && s.recorded[j].source == source && s.recorded[j].value == level
  }

  ghost predicate LevelsWitnessed(s: State) {
    && (forall k :: 0 <= k < |s.forwarded| ==> Witnessed(s, s.forwarded[k].source, s.forwarded[k].level))
    && (forall src :: src in s.core.prevAck ==> Witnessed(s, src, s.core.prevAck[src]))
    && (s.acking.Forwarding? ==>
          forall src :: src in s.acking.levels ==> Witnessed(s, src, s.acking.levels[src]))
  }

  /** What a half-forwarded acknowledgement is about to discard. */
  ghost predicate ForwardingSound(s: State) {
    s.acking.Forwarding? ==>
      && s.acking.count <= |s.core.log.entries|
      && s.acking.left <= s.acking.levels.Keys
      && (s.acking.isFresh ==>
            && s.acking.levels == AckMap(s.core.log.entries[..s.acking.count])
            && forall src :: src in s.acking.levels && src !in s.acking.left ==>
                 Ack(src, s.acking.levels[src]) in s.forwarded)
      && (!s.acking.isFresh ==>
            forall i :: 0 <= i < s.acking.count ==> s.core.log.entries[i].source == NO_SHARD)
  }

  /** The i-th recorded value has been acknowledged to its source at or above its value. */
  ghost predicate Settled(s: State, i: nat)
    requires i < |s.recorded|
  {
    exists k :: 0 <= k < |s.forwarded| && s.forwarded[k].source == s.recorded[i].source
                && s.recorded[i].value <= s.forwarded[k].level
  }

  ghost predicate DroppedSettled(s: State) {
    s.dropped <= |s.recorded| && forall i :: 0 <= i < s.dropped && s.recorded[i].source != NO_SHARD ==> Settled(s, i)
  }

  /** A stream the target accepts: IDs rise, watermarks never fall and separate messages. */
  ghost predicate WellFormedStream(wire: seq<Wire>) {
    && (forall a, i :: 0 <= a < |wire| && 0 <= i < |wire[a].ids| ==> wire[a].ids[i] < wire[a].high)
    && (forall a, i, j :: 0 <= a < |wire| && 0 <= i < j < |wire[a].ids| ==> wire[a].ids[i] < wire[a].ids[j])
    && (forall a, b :: 0 <= a < b < |wire| ==> wire[a].high <= wire[b].high)
    && (forall a, b, i :: 0 <= a < b < |wire| && 0 <= i < |wire[b].ids| ==> wire[a].high <= wire[b].ids[i])
  }

  ghost predicate WireSound(s: State) {
    && WellFormedStream(s.wire)
    && (forall a :: 0 <= a < |s.wire| ==> s.wire[a].high <= s.core.next + 1)
    && (!s.sending.SendEnded? ==> forall a :: 0 <= a < |s.wire| ==> s.wire[a].high <= s.core.lastSent)
    && s.core.lastSent <= s.core.next + 1
    && (s.sending.Emitting? ==> WellFormedStream(s.wire + [s.sending.wire]) && s.sending.wire.high <= s.core.next + 1)
  }

  ghost predicate Inv(s: State) {
    RingMatchesHistory(s) && LevelsWitnessed(s) && ForwardingSound(s) && DroppedSettled(s) && WireSound(s)
  }

  // ---------- preservation ----------

  lemma WitnessKept(s: State, t: State, source: ShardId, level: int)
    requires Witnessed(s, source, level) && s.recorded <= t.recorded && s.top <= t.top
    ensures Witnessed(t, source, level)
  {
  }

  lemma WitnessesKept(s: State, t: State)
    requires LevelsWitnessed(s) && s.recorded <= t.recorded && s.top <= t.top
    requires s.forwarded == t.forwarded && s.core.prevAck == t.core.prevAck
    requires t.acking.Forwarding? ==> s.acking.Forwarding? && t.acking.levels == s.acking.levels
    ensures LevelsWitnessed(t)
  {
  }

  /** Settled entries stay settled while the history only grows. */
  lemma SettledKept(s: State, t: State)
    requires DroppedSettled(s) && s.recorded <= t.recorded && s.forwarded <= t.forwarded && t.dropped == s.dropped
    ensures DroppedSettled(t)
  {
  }

  lemma AppendWire(wire: seq<Wire>, w: Wire)
    requires WellFormedStream(wire)
    requires forall i :: 0 <= i < |w.ids| ==> w.ids[i] < w.high
    requires forall i, j :: 0 <= i < j < |w.ids| ==> w.ids[i] < w.ids[j]
    requires forall a :: 0 <= a < |wire| ==> wire[a].high <= w.high
    requires forall a, i :: 0 <= a < |wire| && 0 <= i < |w.ids| ==> wire[a].high <= w.ids[i]
    ensures WellFormedStream(wire + [w])
  {
  }

  lemma RewriteKeepsWire(s: State, source: ShardId, ids: seq<int>, high: int)
    requires WireSound(s) && s.sending.Ready?
    ensures WireSound(Next(s, Rewrite(source, ids, high)))
  {
    AppendWire(s.wire, WireOf(s.core.next, |ids|));
  }

  lemma EmitKeepsWire(s: State)
    requires WireSound(s) && s.sending.Emitting?
    ensures WireSound(Next(s, Emit))
  {
    var t := Next(s, Emit);
    assert t.wire[|s.wire|] == s.sending.wire;
  }

  lemma WireKept(s: State, a: Action)
    requires WireSound(s) && Enabled(s, a)
    ensures WireSound(Next(s, a))
  {
    match a
    case Rewrite(source, ids, high) => RewriteKeepsWire(s, source, ids, high);
    case Emit => EmitKeepsWire(s);
    case Keepalive => AppendWire(s.wire, Wire([], s.core.lastSent));
    case _ =>
  }

  lemma RewriteKeepsRing(s: State, source: ShardId, ids: seq<int>, high: int)
    requires RingMatchesHistory(s) && s.sending.Ready?
    ensures RingMatchesHistory(Next(s, Rewrite(source, ids, high)))
    ensures s.core.log.entries <= Next(s, Rewrite(source, ids, high)).core.log.entries
  {
  }

  /** A pending discard is unaffected by entries behind it. */
  lemma ForwardingKept(s: State, t: State)
    requires ForwardingSound(s) && t.acking == s.acking && s.core.log.entries <= t.core.log.entries
    requires s.forwarded == t.forwarded
    ensures ForwardingSound(t)
  {
    if s.acking.Forwarding? {
      assert t.core.log.entries[..s.acking.count] == s.core.log.entries[..s.acking.count];
    }
  }

  lemma RewriteKeepsInv(s: State, source: ShardId, ids: seq<int>, high: int)
    requires Inv(s) && s.sending.Ready?
    ensures Inv(Next(s, Rewrite(source, ids, high)))
  {
    var t := Next(s, Rewrite(source, ids, high));
    WireKept(s, Rewrite(source, ids, high));
    RewriteKeepsRing(s, source, ids, high);
    WitnessesKept(s, t);
    SettledKept(s, t);
    ForwardingKept(s, t);
  }

  /** Levels aggregated from the covered part of the ring are witnessed. */
  lemma FreshLevelsWitnessed(s: State, t: State, w: int, source: ShardId)
    requires RingMatchesHistory(s) && t.recorded == s.recorded && t.top >= w
    requires var log := s.core.log;
             source in AckMap(log.entries[..Covered(log.start, |log.entries|, w)])
    ensures var log := s.core.log;
            Witnessed(t, source, AckMap(log.entries[..Covered(log.start, |log.entries|, w)])[source])
  {
    var entries := s.core.log.entries;
    var covered := entries[..Covered(s.core.log.start, |entries|, w)];
    AckMapIsShardMaximum(covered);
    var i :| 0 <= i < |covered| && covered[i] == Mapping(source, AckMap(covered)[source]);
    assert covered[i] == entries[i] == Plain(s.recorded[s.dropped..])[i];
    assert s.recorded[s.dropped..][i] == t.recorded[s.dropped + i];
    assert t.recorded[s.dropped + i].source == source;
  }

  lemma AggregateKeepsWitnesses(s: State, w: int)
    requires RingMatchesHistory(s) && LevelsWitnessed(s) && s.acking.Waiting?
    ensures LevelsWitnessed(Next(s, Aggregate(w)))
  {
    var t := Next(s, Aggregate(w));
    forall src, level | Witnessed(s, src, level)
      ensures Witnessed(t, src, level)
    {
      WitnessKept(s, t, src, level);
    }
    if t.acking.isFresh {
      forall src | src in t.acking.levels
        ensures Witnessed(t, src, t.acking.levels[src])
      {
        FreshLevelsWitnessed(s, t, w, src);
      }
    }
  }

  lemma AggregateStartsForwarding(s: State, w: int)
    requires s.acking.Waiting?
    ensures ForwardingSound(Next(s, Aggregate(w)))
  {
    var t := Next(s, Aggregate(w));
    var covered := s.core.log.entries[..t.acking.count];
    AckMapIsShardMaximum(covered);
    if !t.acking.isFresh {
      forall i | 0 <= i < t.acking.count
        ensures s.core.log.entries[i].source == NO_SHARD
      {
        assert covered[i] == s.core.log.entries[i];
      }
    }
  }

  lemma AggregateKeepsInv(s: State, w: int)
    requires Inv(s) && s.acking.Waiting?
    ensures Inv(Next(s, Aggregate(w)))
  {
    AggregateKeepsWitnesses(s, w);
    AggregateStartsForwarding(s, w);
    SettledKept(s, Next(s, Aggregate(w)));
    WireKept(s, Aggregate(w));
  }

  lemma ForwardKeepsWitnesses(s: State, source: ShardId)
    requires LevelsWitnessed(s) && Enabled(s, Forward(source))
    ensures LevelsWitnessed(Next(s, Forward(source)))
  {
  }

  lemma ForwardKeepsForwarding(s: State, source: ShardId)
    requires ForwardingSound(s) && Enabled(s, Forward(source))
    ensures ForwardingSound(Next(s, Forward(source)))
  {
  }

  lemma ForwardKeepsInv(s: State, source: ShardId)
    requires Inv(s) && Enabled(s, Forward(source))
    ensures Inv(Next(s, Forward(source)))
  {
    ForwardKeepsWitnesses(s, source);
    ForwardKeepsForwarding(s, source);
    SettledKept(s, Next(s, Forward(source)));
    WireKept(s, Forward(source));
  }

  lemma DiscardKeepsRing(s: State)
    requires RingMatchesHistory(s) && ForwardingSound(s) && Enabled(s, Discard)
    ensures RingMatchesHistory(Next(s, Discard))
  {
  }

  /** Entries covered by a fully forwarded acknowledgement are settled. */
  lemma ForwardedIsSettled(s: State, i: nat)
    requires RingMatchesHistory(s) && ForwardingSound(s) && Enabled(s, Discard)
    requires s.dropped <= i < s.dropped + s.acking.count && s.recorded[i].source != NO_SHARD
    ensures Settled(s, i)
  {
    var covered := s.core.log.entries[..s.acking.count];
    AckMapIsShardMaximum(covered);
    var e := covered[i - s.dropped];
    assert e == s.core.log.entries[i - s.dropped] == Plain(s.recorded[s.dropped..])[i - s.dropped];
    assert s.recorded[s.dropped..][i - s.dropped] == s.recorded[i];
    assert Ack(e.source, s.acking.levels[e.source]) in s.forwarded;
  }

  lemma DiscardKeepsSettled(s: State)
    requires RingMatchesHistory(s) && ForwardingSound(s) && DroppedSettled(s) && Enabled(s, Discard)
    ensures DroppedSettled(Next(s, Discard))
  {
    var t := Next(s, Discard);
    forall i | 0 <= i < t.dropped && t.recorded[i].source != NO_SHARD
      ensures Settled(t, i)
    {
      if i >= s.dropped {
        ForwardedIsSettled(s, i);
      }
      assert Settled(s, i);
    }
  }

  lemma DiscardKeepsInv(s: State)
    requires Inv(s) && Enabled(s, Discard)
    ensures Inv(Next(s, Discard))
  {
    DiscardKeepsRing(s);
    DiscardKeepsSettled(s);
    WitnessesKept(s, Next(s, Discard));
    WireKept(s, Discard);
  }

  lemma SendSideKeepsInv(s: State, a: Action)
    requires Inv(s) && Enabled(s, a) && (a.Emit? || a.Keepalive? || a.EndSend? || a.EndAck?)
    ensures Inv(Next(s, a))
  {
    WireKept(s, a);
    WitnessesKept(s, Next(s, a));
    SettledKept(s, Next(s, a));
    if Next(s, a).acking == s.acking {
      ForwardingKept(s, Next(s, a));
    }
  }

  lemma StepKeepsInv(s: State, a: Action)
    requires Inv(s) && Enabled(s, a)
    ensures Inv(Next(s, a))
  {
    match a
    case Rewrite(source, ids, high) => RewriteKeepsInv(s, source, ids, high);
    case Aggregate(w) => AggregateKeepsInv(s, w);
    case Forward(source) => ForwardKeepsInv(s, source);
    case Discard => DiscardKeepsInv(s);
    case _ => SendSideKeepsInv(s, a);
  }

  lemma {:induction false} RunKeepsInv(states: seq<State>, actions: seq<Action>, k: nat)
    requires IsRun(states, actions) && k < |states|
    ensures Inv(states[k])
  {
    if k > 0 {
      RunKeepsInv(states, actions, k - 1);
      StepKeepsInv(states[k - 1], actions[k - 1]);
    }
  }

  /** What a step adds to the recorded history. */
  function Added(a: Action): seq<Entry> {
    if a.Rewrite? then Entries(a.source, a.ids, a.high) else []
  }

  lemma StepOnlyAdds(s: State, a: Action)
    requires Enabled(s, a)
    ensures Next(s, a).recorded == s.recorded + Added(a)
    ensures s.top <= Next(s, a).top
  {
  }

  // ---------- theorems ----------

  /** No task of the source is recorded after a larger value of it. */
  ghost predicate OrderedFor(es: seq<Entry>, source: ShardId) {
    forall i, j :: 0 <= i < j < |es| && es[i].source == es[j].source == source && es[j].isTask ==>
      es[i].value <= es[j].value
  }

  /** The order the queue promises, for every source. */
  ghost predicate Ordered(es: seq<Entry>) {
    forall source :: source != NO_SHARD ==> OrderedFor(es, source)
  }

  /** No level forwarded for the source exceeds a task of it that the target has not finished. */
  ghost predicate NoOvertaking(s: State, source: ShardId) {
    forall k, i :: 0 <= k < |s.forwarded| && s.forwarded[k].source == source && Unfinished(s, i, source) ==>
      s.forwarded[k].level <= s.recorded[i].value
  }

  /** Entry i is a task of `source` at a proxy ID no watermark has passed. */
  ghost predicate Unfinished(s: State, i: int, source: ShardId) {
    0 <= i < |s.recorded| && s.recorded[i].isTask && s.recorded[i].source == source && i + 1 >= s.top
  }

  lemma WitnessedNeverOvertakes(s: State, source: ShardId, level: int, i: int)
    requires OrderedFor(s.recorded, source) && Witnessed(s, source, level) && Unfinished(s, i, source)
    ensures level <= s.recorded[i].value
  {
  }

  /** A sender in any reachable state, for a source whose values came in queue order. */
  lemma OrderPreventsOvertaking(s: State, source: ShardId)
    requires LevelsWitnessed(s) && OrderedFor(s.recorded, source)
    ensures NoOvertaking(s, source)
  {
    forall f, i | 0 <= f < |s.forwarded| && s.forwarded[f].source == source && Unfinished(s, i, source)
      ensures s.forwarded[f].level <= s.recorded[i].value
    {
      WitnessedNeverOvertakes(s, source, s.forwarded[f].level, i);
    }
  }

  lemma AcksNeverOvertake(states: seq<State>, actions: seq<Action>, k: nat, source: ShardId)
    requires IsRun(states, actions) && k < |states| && OrderedFor(states[k].recorded, source)
    ensures NoOvertaking(states[k], source)
  {
    RunKeepsInv(states, actions, k);
    OrderPreventsOvertaking(states[k], source);
  }

  /** The levels a watermark yields stay below every unfinished task of their source. */
  ghost predicate SafeAt(es: seq<Entry>, watermark: int) {
    var levels := AckMap(Plain(es)[..Covered(1, |es|, watermark)]);
    forall i :: 0 <= i < |es| && i + 1 >= watermark && es[i].isTask && es[i].source in levels ==>
      levels[es[i].source] <= es[i].value
  }

  lemma OrderedIsSafe(es: seq<Entry>, w: int)
    requires Ordered(es)
    ensures SafeAt(es, w)
  {
    var covered := Plain(es)[..Covered(1, |es|, w)];
    AckMapIsShardMaximum(covered);
    forall i | 0 <= i < |es| && i + 1 >= w && es[i].isTask && es[i].source in AckMap(covered)
      ensures AckMap(covered)[es[i].source] <= es[i].value
    {
      var j :| 0 <= j < |covered| && covered[j] == Mapping(es[i].source, AckMap(covered)[es[i].source]);
      assert covered[j] == Plain(es)[j];
      assert OrderedFor(es, es[i].source);
    }
  }

  /** A watermark that has just reached the larger value acknowledges past the task behind it. */
  lemma DisorderIsUnsafe(es: seq<Entry>, i: nat, j: nat)
    requires i < j < |es| && es[i].source == es[j].source != NO_SHARD && es[j].isTask
    requires es[i].value > es[j].value
    ensures !SafeAt(es, i + 1)
  {
    var covered := Plain(es)[..Covered(1, |es|, i + 1)];
    AckMapIsShardMaximum(covered);
    assert covered[i] == Mapping(es[i].source, es[i].value);
  }

  /** Taking the per-shard maximum is a sound inverse of the rewriting exactly for ordered queues. */
  lemma MaximumIsSafeIffOrdered(es: seq<Entry>)
    ensures (forall w :: SafeAt(es, w)) <==> Ordered(es)
  {
    if Ordered(es) {
      forall w
        ensures SafeAt(es, w)
      {
        OrderedIsSafe(es, w);
      }
    } else {
      var source :| source != NO_SHARD && !OrderedFor(es, source);
      var i, j :| 0 <= i < j < |es| && es[i].source == es[j].source == source && es[j].isTask
                  && es[i].value > es[j].value;
      DisorderIsUnsafe(es, i, j);
    }
  }

  /** Everything that ever left the ring was acknowledged to its source first. */
  lemma NothingLostUnacknowledged(states: seq<State>, actions: seq<Action>, k: nat)
    requires IsRun(states, actions) && k < |states|
    ensures states[k].dropped <= |states[k].recorded|
    ensures forall i :: 0 <= i < states[k].dropped && states[k].recorded[i].source != NO_SHARD ==> Settled(states[k], i)
  {
    RunKeepsInv(states, actions, k);
  }

  /** No acknowledgement is taken up or finished in states[j..k]. */
  ghost predicate SameAck(actions: seq<Action>, j: nat, k: nat)
    requires j <= k <= |actions|
  {
    forall i :: j <= i < k ==> !actions[i].Aggregate? && !actions[i].Discard? && !actions[i].EndAck?
  }

  lemma {:induction false} AggregationSurvives(states: seq<State>, actions: seq<Action>, j: nat, k: nat)
    requires IsRun(states, actions) && j < k <= |actions|
    requires actions[j].Aggregate? && SameAck(actions, j + 1, k)
    ensures states[k].acking.Forwarding?
    ensures var log := states[j].core.log;
            states[k].acking.count == Covered(log.start, |log.entries|, actions[j].watermark)
    ensures states[j].core.log.entries <= states[k].core.log.entries
    ensures states[k].dropped == states[j].dropped
  {
    if k > j + 1 {
      AggregationSurvives(states, actions, j, k - 1);
    }
  }

  /**
   However many batches are recorded while levels are being forwarded, the discard removes
   exactly the entries the aggregation covered.
   */
  lemma DiscardRemovesWhatWasAggregated(states: seq<State>, actions: seq<Action>, j: nat, k: nat)
    requires IsRun(states, actions) && j < k < |actions|
    requires actions[j].Aggregate? && actions[k].Discard? && SameAck(actions, j + 1, k)
    ensures var count := Covered(states[j].core.log.start, |states[j].core.log.entries|, actions[j].watermark);
            && count <= |states[k].core.log.entries|
            && states[k].core.log.entries[..count] == states[j].core.log.entries[..count]
            && states[k + 1].core.log.entries == states[k].core.log.entries[count..]
            && states[k + 1].dropped == states[j].dropped + count
  {
    AggregationSurvives(states, actions, j, k);
  }

  /** A shutdown in the middle of forwarding leaves the ring's contents alone for good. */
  lemma {:induction false} ShutdownDiscardsNothing(states: seq<State>, actions: seq<Action>, j: nat, k: nat)
    requires IsRun(states, actions) && j < k <= |actions| && actions[j].EndAck?
    ensures states[k].acking.AckEnded? && states[k].dropped == states[j].dropped
    ensures states[j].core.log.entries <= states[k].core.log.entries
  {
    if k > j + 1 {
      ShutdownDiscardsNothing(states, actions, j, k - 1);
    }
  }

  lemma StreamStaysWellFormed(states: seq<State>, actions: seq<Action>, k: nat)
    requires IsRun(states, actions) && k < |states|
    ensures WellFormedStream(states[k].wire)
  {
    RunKeepsInv(states, actions, k);
  }

  // ---------- what the state remembers ----------

  /** The largest watermark ever received, or 0: what `top` stands for in every claim about finished work. */
  lemma {:induction false} TopIsLargestWatermark(states: seq<State>, actions: seq<Action>, k: nat)
    requires IsRun(states, actions) && k < |states|
    ensures forall i :: 0 <= i < k && actions[i].Aggregate? ==> actions[i].watermark <= states[k].top
    ensures states[k].top == 0 || exists i :: 0 <= i < k && actions[i] == Aggregate(states[k].top)
    ensures 0 <= states[k].top
  {
    if k > 0 {
      TopIsLargestWatermark(states, actions, k - 1);
      assert states[k] == Next(states[k - 1], actions[k - 1]);
    }
  }

  /** What a keepalive will repeat is the watermark of the last message sent. */
  lemma {:induction false} LastSentIsLastHigh(states: seq<State>, actions: seq<Action>, k: nat)
    requires IsRun(states, actions) && k < |states|
    ensures var wire := states[k].wire;
            states[k].core.lastSent == if wire == [] then 0 else wire[|wire| - 1].high
  {
    if k > 0 {
      LastSentIsLastHigh(states, actions, k - 1);
      assert states[k] == Next(states[k - 1], actions[k - 1]);
    }
  }

  /** A keepalive has no tasks and repeats the watermark before it. */
  lemma KeepaliveRepeats(states: seq<State>, actions: seq<Action>, k: nat)
    requires IsRun(states, actions) && k < |actions| && actions[k].Keepalive?
    ensures var wire := states[k].wire;
            wire != [] && states[k + 1].wire == wire + [Wire([], wire[|wire| - 1].high)]
  {
    LastSentIsLastHigh(states, actions, k);
  }

  /** The send loop can repeat a watermark exactly when it is between messages and has sent a positive one. */
  lemma KeepaliveIff(states: seq<State>, actions: seq<Action>, k: nat)
    requires IsRun(states, actions) && k < |states|
    ensures var wire := states[k].wire;
            Enabled(states[k], Keepalive) <==> states[k].sending.Ready? && wire != [] && wire[|wire| - 1].high > 0
  {
    LastSentIsLastHigh(states, actions, k);
  }

  /** The last level forwarded for the source. */
  ghost predicate IsLast(forwarded: seq<Ack>, source: ShardId, level: int) {
    exists j :: 0 <= j < |forwarded| && forwarded[j] == Ack(source, level)
                && forall l :: j < l < |forwarded| ==> forwarded[l].source != source
  }

  ghost predicate RemembersLevels(s: State) {
    && (forall k :: 0 <= k < |s.forwarded| ==> s.forwarded[k].source in s.core.prevAck)
    && (forall src :: src in s.core.prevAck ==> IsLast(s.forwarded, src, s.core.prevAck[src]))
    && (s.acking.Forwarding? && !s.acking.isFresh ==> s.acking.levels == s.core.prevAck)
  }

  lemma OneMoreForwarded(forwarded: seq<Ack>, source: ShardId, level: int, other: ShardId, known: int)
    ensures IsLast(forwarded + [Ack(source, level)], source, level)
    ensures other != source && IsLast(forwarded, other, known) ==>
              IsLast(forwarded + [Ack(source, level)], other, known)
  {
    var more := forwarded + [Ack(source, level)];
    assert more[|forwarded|] == Ack(source, level);
    if other != source && IsLast(forwarded, other, known) {
      var j :| 0 <= j < |forwarded| && forwarded[j] == Ack(other, known)
               && forall l :: j < l < |forwarded| ==> forwarded[l].source != other;
      assert more[j] == Ack(other, known);
    }
  }

  lemma StepRemembersLevels(s: State, a: Action)
    requires RemembersLevels(s) && Enabled(s, a)
    ensures RemembersLevels(Next(s, a))
  {
    if a.Forward? {
      forall src | src in Next(s, a).core.prevAck
        ensures IsLast(Next(s, a).forwarded, src, Next(s, a).core.prevAck[src])
      {
        var known := if src in s.core.prevAck then s.core.prevAck[src] else 0;
        OneMoreForwarded(s.forwarded, a.source, s.acking.levels[a.source], src, known);
      }
    }
  }

  lemma {:induction false} RunRemembersLevels(states: seq<State>, actions: seq<Action>, k: nat)
    requires IsRun(states, actions) && k < |states|
    ensures RemembersLevels(states[k])
  {
    if k > 0 {
      RunRemembersLevels(states, actions, k - 1);
      StepRemembersLevels(states[k - 1], actions[k - 1]);
    }
  }

  /** A watermark that covers no real entry repeats, for every source, the level forwarded last. */
  lemma IdleAckRepeatsLevels(states: seq<State>, actions: seq<Action>, k: nat)
    requires IsRun(states, actions) && k < |actions| && actions[k].Aggregate?
    requires var log := states[k].core.log;
             var covered := log.entries[..Covered(log.start, |log.entries|, actions[k].watermark)];
             forall e :: e in covered ==> e.source == NO_SHARD
    ensures var acking := states[k + 1].acking;
            && acking.Forwarding? && acking.left == acking.levels.Keys
            && (forall src :: src in acking.levels ==> IsLast(states[k].forwarded, src, acking.levels[src]))
            && (forall j :: 0 <= j < |states[k].forwarded| ==> states[k].forwarded[j].source in acking.levels)
  {
    RunRemembersLevels(states, actions, k);
    LevelsForward(states[k].core, actions[k].watermark);
  }

  // ---------- one whole acknowledgement ----------

  /** A stretch of a run, from any state. */
  ghost predicate Steps(states: seq<State>, actions: seq<Action>) {
    && |states| == |actions| + 1
    && forall i :: 0 <= i < |actions| ==> Enabled(states[i], actions[i]) && states[i + 1] == Next(states[i], actions[i])
  }

  function Acks(levels: map<ShardId, int>, sources: seq<ShardId>): (acks: seq<Ack>)
    requires forall s :: s in sources ==> s in levels
    ensures |acks| == |sources|
    ensures forall i :: 0 <= i < |acks| ==> acks[i] == Ack(sources[i], levels[sources[i]])
  {
    seq(|sources|, i requires 0 <= i < |sources| => Ack(sources[i], levels[sources[i]]))
  }

  /** The state of a forwarding acknowledgement after some of its sources took their level. */
  ghost function Handed(s: State, sources: seq<ShardId>): State
    requires s.acking.Forwarding? && forall src :: src in sources ==> src in s.acking.levels
  {
    var levels := s.acking.levels;
    var prevAck := if s.acking.isFresh then s.core.prevAck + Restrict(levels, Elements(sources)) else s.core.prevAck;
    s.(core := s.core.(prevAck := prevAck), acking := s.acking.(left := s.acking.left - Elements(sources)),
       forwarded := s.forwarded + Acks(levels, sources))
  }

  lemma HandedNone(s: State)
    requires s.acking.Forwarding?
    ensures Handed(s, []) == s
  {
    assert Elements<ShardId>([]) == {} && s.acking.left - {} == s.acking.left;
    assert s.core.prevAck + Restrict(s.acking.levels, {}) == s.core.prevAck;
    assert s.forwarded + [] == s.forwarded;
  }

  lemma HandedOneMore(s: State, sources: seq<ShardId>, src: ShardId)
    requires s.acking.Forwarding? && s.acking.left <= s.acking.levels.Keys && src in s.acking.left && src !in sources
    requires forall other :: other in sources ==> other in s.acking.levels
    ensures Enabled(Handed(s, sources), Forward(src))
    ensures Next(Handed(s, sources), Forward(src)) == Handed(s, sources + [src])
  {
    var levels := s.acking.levels;
    assert Elements(sources + [src]) == Elements(sources) + {src};
    assert s.acking.left - Elements(sources) - {src} == s.acking.left - Elements(sources + [src]);
    assert Acks(levels, sources + [src]) == Acks(levels, sources) + [Ack(src, levels[src])];
    assert (s.core.prevAck + Restrict(levels, Elements(sources)))[src := levels[src]] ==
           s.core.prevAck + Restrict(levels, Elements(sources + [src]));
  }

  lemma AppendStep(states: seq<State>, actions: seq<Action>, a: Action)
    requires Steps(states, actions) && Enabled(states[|actions|], a)
    ensures Steps(states + [Next(states[|actions|], a)], actions + [a])
  {
    var longer, more := states + [Next(states[|actions|], a)], actions + [a];
    forall i | 0 <= i < |more|
      ensures Enabled(longer[i], more[i]) && longer[i + 1] == Next(longer[i], more[i])
    {
      if i < |actions| {
        assert longer[i] == states[i] && longer[i + 1] == states[i + 1] && more[i] == actions[i];
      }
    }
  }

  function ForwardActions(sources: seq<ShardId>): (actions: seq<Action>)
    ensures |actions| == |sources|
  {
    seq(|sources|, i requires 0 <= i < |sources| => Forward(sources[i]))
  }

  /** Aggregate, then forward to each source in turn. */
  lemma {:induction false} ForwardInTurn(s: State, watermark: int, sent: seq<ShardId>) returns (states: seq<State>)
    requires s.acking.Waiting? && NoRepeats(sent) && forall src :: src in sent ==> src in Levels(s.core, watermark)
    ensures Steps(states, [Aggregate(watermark)] + ForwardActions(sent)) && states[0] == s
    ensures states[|sent| + 1] == Handed(Next(s, Aggregate(watermark)), sent)
  {
    var s1 := Next(s, Aggregate(watermark));
    if sent == [] {
      states := [s, s1];
      HandedNone(s1);
    } else {
      var n := |sent| - 1;
      states := ForwardInTurn(s, watermark, sent[..n]);
      HandedOneMore(s1, sent[..n], sent[n]);
      AppendStep(states, [Aggregate(watermark)] + ForwardActions(sent[..n]), Forward(sent[n]));
      states := states + [Handed(s1, sent[..n] + [sent[n]])];
      assert sent[..n] + [sent[n]] == sent;
      assert ForwardActions(sent[..n]) + [Forward(sent[n])] == ForwardActions(sent);
      assert [Aggregate(watermark)] + ForwardActions(sent[..n]) + [Forward(sent[n])] ==
             [Aggregate(watermark)] + ForwardActions(sent);
    }
  }

  /**
   Handling an acknowledgement in one go is a run of the protocol: it forwards the same levels to
   the same sources and ends with the same state, having discarded only if every source took its level.
   */
  lemma HandlingIsARun(s: State, watermark: int, sent: seq<ShardId>, completed: bool) returns (states: seq<State>)
    requires s.acking.Waiting? && NoRepeats(sent)
    requires forall src :: src in sent ==> src in Levels(s.core, watermark)
    requires completed <==> forall src :: src in Levels(s.core, watermark) ==> src in sent
    ensures Steps(states, [Aggregate(watermark)] + ForwardActions(sent) + [if completed then Discard else EndAck])
    ensures var t := states[|sent| + 2];
            && states[0] == s && t.core == AfterAck(s.core, watermark, Elements(sent), completed)
            && t.forwarded == s.forwarded + Acks(Levels(s.core, watermark), sent)
            && (!completed ==> t.dropped == s.dropped)
  {
    states := ForwardInTurn(s, watermark, sent);
    var last := states[|sent| + 1];
    var finish := if completed then Discard else EndAck;
    assert completed ==> last.acking.left == {};
    AppendStep(states, [Aggregate(watermark)] + ForwardActions(sent), finish);
    states := states + [Next(last, finish)];
    HandedCore(s, watermark, sent, completed);
  }

  lemma HandedCore(s: State, watermark: int, sent: seq<ShardId>, completed: bool)
    requires s.acking.Waiting? && forall src :: src in sent ==> src in Levels(s.core, watermark)
    ensures var t := Handed(Next(s, Aggregate(watermark)), sent);
            var count := t.acking.count;
            AfterAck(s.core, watermark, Elements(sent), completed) ==
            t.core.(log := if completed && count > 0 then DropFrom(s.core.log, count) else s.core.log)
  {
    var s1 := Next(s, Aggregate(watermark));
    if !s1.acking.isFresh {
      RestrictedIsKnown(s.core.prevAck, Elements(sent));
    }
  }

  /** Rewrite a batch given by its task IDs. */
  method RewriteIds(sender: Sender, source: ShardId, ids: seq<int>, high: int) returns (wire: Wire)
    requires sender.Valid()
    modifies sender`nextProxyTaskId, sender.idRing, sender.idRing.entries
    ensures sender.Valid()
    ensures sender.idRing.entries == old(sender.idRing.entries) || fresh(sender.idRing.entries)
    ensures sender.Value() == Record(old(sender.Value()), source, ids, high)
    ensures wire == WireOf(old(sender.nextProxyTaskId), |ids|)
  {
    var batch := Message(seq(|ids|, k requires 0 <= k < |ids| => Task(ids[k], None, "")), high);
    assert Ids(batch.tasks) == ids;
    var sent := sender.Rewrite(source, batch);
    wire := Wire(Ids(sent.tasks), sent.exclusiveHigh);
  }

  /** The goroutines' local variables, and what they have put on the network. */
  datatype Locals = Locals(
    outgoing: Wire, levels: map<ShardId, int>, isFresh: bool, count: nat, wire: seq<Wire>, forwarded: seq<Ack>)

  ghost predicate Tracks(l: Locals, s: State) {
    && l.wire == s.wire && l.forwarded == s.forwarded
    && (s.sending.Emitting? ==> l.outgoing == s.sending.wire)
    && (s.acking.Forwarding? ==>
          l.levels == s.acking.levels && l.isFresh == s.acking.isFresh && l.count == s.acking.count)
  }

  /** One critical section or send, performed on the class. */
  method Do(sender: Sender, a: Action, l: Locals, ghost s: State) returns (l': Locals)
    requires sender.Valid() && sender.Value() == s.core && Tracks(l, s) && Enabled(s, a)
    modifies sender, sender.idRing, sender.idRing.entries
    ensures sender.Valid() && sender.idRing == old(sender.idRing)
    ensures sender.idRing.entries == old(sender.idRing.entries) || fresh(sender.idRing.entries)
    ensures sender.Value() == Next(s, a).core && Tracks(l', Next(s, a))
  {
    l' := l;
    match a {
      case Rewrite(source, ids, high) =>
        var outgoing := RewriteIds(sender, source, ids, high);
        l' := l.(outgoing := outgoing);
      case Emit =>
        l' := l.(wire := l.wire + [l.outgoing]);
        sender.NoteSent(l.outgoing.high);
      case Keepalive =>
        l' := l.(wire := l.wire + [Wire([], sender.lastSentWatermark)]);
      case Aggregate(w) =>
        var acks, n := sender.Aggregate(w);
        l' := l.(levels := if |acks| > 0 then acks else sender.prevAckBySource, isFresh := |acks| > 0, count := n);
      case Forward(source) =>
        l' := l.(forwarded := l.forwarded + [Ack(source, l.levels[source])]);
        if l.isFresh {
          sender.RecordAck(source, l.levels[source]);
        }
      case Discard =>
        if l.count > 0 {
          sender.Discard(l.count);
        }
      case EndSend =>
      case EndAck =>
    }
  }

  /**
   The class, driven through any interleaving of its critical sections, sends and forwards
   what the run says.
   */
  method Replay(actions: seq<Action>, ghost states: seq<State>) returns (wire: seq<Wire>, forwarded: seq<Ack>)
    requires IsRun(states, actions)
    ensures wire == states[|actions|].wire
    ensures forwarded == states[|actions|].forwarded
  {
    var sender := new Sender();
    var l := Locals(Wire([], 0), map[], false, 0, [], []);
    for i := 0 to |actions|
      invariant sender.Valid() && fresh(sender) && fresh(sender.idRing) && fresh(sender.idRing.entries)
      invariant sender.Value() == states[i].core && Tracks(l, states[i])
    {
      l := Do(sender, actions[i], l, states[i]);
    }
    wire, forwarded := l.wire, l.forwarded;
  }
}

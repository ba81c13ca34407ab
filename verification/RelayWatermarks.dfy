/**
 Late watermarks of a relaying proxy. A relay remembers the watermark of every message it
 passes on, task batches included, and hands it to any target that registers later. Such a
 watermark is safe exactly when it is in line; otherwise some continuation of the run
 acknowledges a task that is still waiting.
 */
module RelayWatermarks {
  import opened Shards
  import opened IdLog
  import opened Options
  import opened StreamReceiver
  import opened RoutingSystem
  import SP = SenderProtocol
  import AA = AckAggregation

  /** A stretch of a run in which every further relayed watermark is in line. */
  ghost predicate Path(src: ShardId, s: State, s': State, states: seq<State>, actions: seq<Action>) {
    && Steps(src, states, actions) && AllOrderly(src, states, actions, |actions|)
    && states[0] == s && states[|actions|] == s'
  }

  ghost predicate Reaches(src: ShardId, s: State, s': State) {
    exists states, actions :: Path(src, s, s', states, actions)
  }

  lemma ReachesItself(src: ShardId, s: State)
    ensures Reaches(src, s, s)
  {
    assert Path(src, s, s, [s], []);
  }

  lemma OneMoreStep(src: ShardId, s0: State, s: State, a: Action)
    requires Reaches(src, s0, s) && Enabled(src, s, a) && Orderly(src, s, a)
    ensures Reaches(src, s0, Next(src, s, a))
  {
    var states, actions :| Path(src, s0, s, states, actions);
    var s' := Next(src, s, a);
    var longer, more := states + [s'], actions + [a];
    forall i | 0 <= i < |more|
      ensures Enabled(src, longer[i], more[i]) && longer[i + 1] == Next(src, longer[i], more[i])
      ensures Orderly(src, longer[i], more[i])
    {
      if i < |actions| {
        assert longer[i] == states[i] && longer[i + 1] == states[i + 1] && Orderly(src, states[i], actions[i]);
      }
    }
    assert Path(src, s0, s', longer, more);
  }

  /** A set of states that no step but a relay leaves; the lemmas below never look inside it. */
  ghost predicate Closed(src: ShardId, reach: State -> bool) {
    forall s, a {:trigger reach(Next(src, s, a))} ::
      reach(s) && Enabled(src, s, a) && !a.Relay? ==> reach(Next(src, s, a))
  }

  ghost predicate SenderFacts(reach: State -> bool) {
    forall s, t :: reach(s) && t in s.senders ==>
      SP.ForwardingSound(s.senders[t]) && SP.RingMatchesHistory(s.senders[t])
  }

  ghost predicate Reach(src: ShardId, reach: State -> bool) {
    Closed(src, reach) && SenderFacts(reach)
  }

  // ---------- letting one sender finish what it has ----------

  ghost predicate Alive(s: State, t: ShardId) {
    t in s.senders && t in s.queues && !s.senders[t].sending.SendEnded? && !s.senders[t].acking.AckEnded?
  }

  /** Only t's sender moved, and it recorded nothing. */
  ghost predicate OnlySender(s: State, s': State, t: ShardId) {
    && s'.agg == s.agg && s'.routing == s.routing && s'.queues == s.queues && s'.routed == s.routed
    && t in s.senders && t in s'.senders && s'.senders[t].recorded == s.senders[t].recorded
  }

  /** The acknowledgement in progress can be finished. */
  lemma {:induction false} SettleAcks(src: ShardId, reach: State -> bool, s: State, t: ShardId) returns (s': State)
    requires Reach(src, reach) && reach(s) && Alive(s, t)
    ensures reach(s') && OnlySender(s, s', t) && Alive(s', t) && s'.senders[t].acking.Waiting?
    ensures s'.senders[t].sending == s.senders[t].sending
    decreases if s.senders[t].acking.Forwarding? then |s.senders[t].acking.left| + 1 else 0
  {
    s' := s;
    var acking := s.senders[t].acking;
    if acking.Forwarding? {
      var step := SP.Discard;
      if acking.left != {} {
        var source :| source in acking.left;
        step := SP.Forward(source);
      }
      assert reach(Next(src, s, SenderStep(t, step)));
      s' := SettleAcks(src, reach, Next(src, s, SenderStep(t, step)), t);
    }
  }

  /** The message being sent can be sent. */
  lemma FinishSend(src: ShardId, reach: State -> bool, s: State, t: ShardId) returns (s': State)
    requires Reach(src, reach) && reach(s) && Alive(s, t) && s.senders[t].acking.Waiting?
    ensures reach(s') && OnlySender(s, s', t) && Alive(s', t)
    ensures s'.senders[t].acking.Waiting? && s'.senders[t].sending.Ready?
    ensures s'.senders[t].dropped == s.senders[t].dropped
  {
    s' := s;
    if s.senders[t].sending.Emitting? {
      s' := Next(src, s, SenderStep(t, SP.Emit));
    }
  }

  /** Taken from the front of t's queue, n batches; the last of them ends the record. */
  ghost predicate Took(src: ShardId, s: State, s': State, t: ShardId, n: nat)
    requires t in s.queues && n <= |s.queues[t]|
  {
    && s'.agg == s.agg && s'.routing == s.routing && s'.routed == s.routed
    && t in s.senders && t in s'.senders && t in s'.queues && s'.queues[t] == s.queues[t][n..]
    && s'.senders[t].dropped == s.senders[t].dropped
    && |s'.senders[t].recorded| >= |s.senders[t].recorded| + n
    && s'.senders[t].sending.Ready? && s'.senders[t].acking.Waiting?
    && (n > 0 && s.queues[t][n - 1].ids == [] ==>
          s'.senders[t].recorded != [] &&
          s'.senders[t].recorded[|s'.senders[t].recorded| - 1] == SP.Entry(src, s.queues[t][n - 1].high, false))
  }

  lemma {:induction false} TakeBatches(src: ShardId, reach: State -> bool, s: State, t: ShardId, n: nat)
    returns (s': State)
    requires Reach(src, reach) && reach(s) && Alive(s, t) && s.senders[t].acking.Waiting? && s.senders[t].sending.Ready?
    requires n <= |s.queues[t]|
    ensures reach(s') && Took(src, s, s', t, n)
  {
    s' := s;
    if n > 0 {
      var before := TakeBatches(src, reach, s, t, n - 1);
      var after := Next(src, before, Consume(t));
      s' := FinishSend(src, reach, after, t);
      assert before.queues[t][0] == s.queues[t][n - 1];
      assert s.queues[t][n - 1..][1..] == s.queues[t][n..];
    }
  }

  // ---------- the acknowledgement that overtakes ----------

  lemma {:induction false} LeastExists(levels: map<ShardId, int>)
    requires levels != map[]
    ensures exists least :: AA.IsLeast(levels, least)
  {
    var t :| t in levels;
    var rest := levels - {t};
    assert forall u :: u in levels && u != t ==> u in rest && rest[u] == levels[u];
    if rest == map[] {
      assert AA.IsLeast(levels, levels[t]);
    } else {
      LeastExists(rest);
      var least :| AA.IsLeast(rest, least);
      var u :| u in rest && rest[u] == least;
      var m := if levels[t] < least then levels[t] else least;
      assert levels[if levels[t] < least then t else u] == m;
      assert AA.IsLeast(levels, m);
    }
  }

  /** A target that acknowledges everything acknowledges at least the last value of the source. */
  lemma FullAckReaches(src: ShardId, sender: SP.State, h: int)
    requires src != NO_SHARD && SP.RingMatchesHistory(sender) && sender.acking.Waiting?
    requires sender.dropped < |sender.recorded| && sender.recorded[|sender.recorded| - 1] == SP.Entry(src, h, false)
    ensures var after := SP.Next(sender, SP.Aggregate(|sender.recorded|));
            && after.acking.Forwarding? && src in after.acking.left && src in after.acking.levels
            && after.acking.levels[src] >= h
  {
    var entries := sender.core.log.entries;
    var last := |sender.recorded| - 1;
    assert entries == SP.Plain(sender.recorded[sender.dropped..]);
    assert entries[last - sender.dropped] == Mapping(src, h);
    assert entries[..Covered(sender.core.log.start, |entries|, |sender.recorded|)] == entries;
    AckMapIsShardMaximum(entries);
    assert src in AckMap(entries) && AckMap(entries)[src] >= h;
  }

  /** Nothing but t keeps the next level from reaching h and being sent. */
  ghost predicate Unheld(agg: AA.State, t: ShardId, h: int) {
    && agg.candidate.None? && agg.lastSentMin <= h
    && forall u :: u in agg.ackByTarget && u != t ==> h <= agg.ackByTarget[u]
  }

  ghost predicate Exposed(s: State, t: ShardId, h: int) {
    Alive(s, t) && Unheld(s.agg, t, h)
  }

  /** The ID waits behind a watermark at position `at` of t's queue that exceeds it. */
  ghost predicate Overtaken(s: State, t: ShardId, at: nat, h: int, x: int) {
    && t in s.queues && at < |s.queues[t]| && s.queues[t][at] == Batch([], h)
    && Behind(s, t, at + 1, x) && x < h && x < s.agg.high && Placed(t, x) in s.routed
  }

  /** t acknowledges a watermark of at least h, which goes back to the receiver. */
  lemma ReturnLevel(src: ShardId, reach: State -> bool, s: State, t: ShardId, h: int) returns (s': State, level: int)
    requires src != NO_SHARD && Reach(src, reach) && reach(s) && Alive(s, t) && s.senders[t].acking.Waiting?
    requires var es := s.senders[t].recorded;
             s.senders[t].dropped < |es| && es[|es| - 1] == SP.Entry(src, h, false)
    ensures reach(s') && level >= h && Level(t, level) in s'.returned
    ensures s'.agg == s.agg && s'.routing == s.routing && s'.queues == s.queues && s'.routed == s.routed
  {
    FullAckReaches(src, s.senders[t], h);
    var aggregate := SenderStep(t, SP.Aggregate(|s.senders[t].recorded|));
    var mid := Next(src, s, aggregate);
    level := mid.senders[t].acking.levels[src];
    s' := Next(src, mid, SenderStep(t, SP.Forward(src)));
  }

  /** The receiver takes the level up and sends one that exceeds x. */
  lemma SendPast(src: ShardId, reach: State -> bool, s: State, t: ShardId, level: int, h: int, x: int)
    returns (s': State)
    requires Reach(src, reach) && reach(s) && Level(t, level) in s.returned && level >= h > x && s.agg.high > x
    requires Unheld(s.agg, t, h)
    ensures reach(s') && s'.routing == s.routing && s'.queues == s.queues && s'.routed == s.routed
    ensures var n := |s.agg.upstream|;
            && |s'.agg.upstream| == n + 1 && !s'.agg.upstream[n].keepalive
            && t in s'.agg.upstream[n].known && s'.agg.upstream[n].level > x
  {
    assert t in s.agg.ackByTarget[t := level];
    LeastExists(s.agg.ackByTarget[t := level]);
    var least :| AA.IsLeast(s.agg.ackByTarget[t := level], least);
    var mid := Next(src, s, Aggregator(AA.TakeAck(t, level, least)));
    s' := Next(src, mid, Aggregator(AA.SendUp));
  }

  lemma WaitingIsNotDone(src: ShardId, s: State, k: nat, t: ShardId, x: int)
    requires k < |s.agg.upstream| && !s.agg.upstream[k].keepalive && t in s.agg.upstream[k].known
    requires s.agg.upstream[k].level > x && Placed(t, x) in s.routed && Waiting(s, t, x)
    ensures !AcksSafe(src, s)
  {
    assert !Done(src, s, Placed(t, x));
    assert !SendSafe(src, s, s.agg.upstream[k]);
  }

  /** From any state with a watermark ahead of a smaller waiting ID, a run acknowledges past that ID. */
  lemma OvertakenIsAcknowledged(src: ShardId, reach: State -> bool, s: State, t: ShardId, at: nat, h: int, x: int)
    returns (s': State)
    requires src != NO_SHARD && Reach(src, reach) && reach(s) && Exposed(s, t, h) && Overtaken(s, t, at, h, x)
    ensures reach(s') && !AcksSafe(src, s')
  {
    var settled := SettleAcks(src, reach, s, t);
    var ready := FinishSend(src, reach, settled, t);
    var took := TakeBatches(src, reach, ready, t, at + 1);
    var returned, level := ReturnLevel(src, reach, took, t, h);
    s' := SendPast(src, reach, returned, t, level, h, x);
    assert Waiting(s', t, x);
    WaitingIsNotDone(src, s', |s.agg.upstream|, t, x);
  }

  // ---------- the exact condition ----------

  ghost function From(src: ShardId, s0: State): State -> bool {
    s => Reaches(src, s0, s) && Base(src, s)
  }

  lemma FromIsClosed(src: ShardId, s0: State)
    ensures Closed(src, From(src, s0))
  {
    forall s, a | From(src, s0)(s) && Enabled(src, s, a) && !a.Relay?
      ensures From(src, s0)(Next(src, s, a))
    {
      OneMoreStep(src, s0, s, a);
      StepKeepsBase(src, s, a);
    }
  }

  lemma FromIsReach(src: ShardId, s0: State)
    ensures Reach(src, From(src, s0))
  {
    FromIsClosed(src, s0);
    forall s, t | From(src, s0)(s) && t in s.senders
      ensures SP.ForwardingSound(s.senders[t]) && SP.RingMatchesHistory(s.senders[t])
    {
      assert SP.Inv(s.senders[t]);
    }
  }

  /** A one-task message for t, at the source watermark. */
  function Probe(t: ShardId, id: int): (Placement, seq<SourceTask>) {
    (Placement(t.cluster, (_, _) => t.shard), [SourceTask(id, Some(RawTask("n", "w", id)))])
  }

  lemma ProbeGoesToTarget(src: ShardId, s: State, t: ShardId)
    requires s.routing == map[] && 0 <= s.agg.high
    ensures var (p, tasks) := Probe(t, s.agg.high);
            var a := Receive(p, tasks, s.agg.high + 1);
            && Enabled(src, s, a) && s.agg.high in Tail(Next(src, s, a), t)
            && Placed(t, s.agg.high) in Next(src, s, a).routed
  {
    var (p, tasks) := Probe(t, s.agg.high);
    assert Routable(tasks[0]) && TargetOf(p, tasks[0]) == t;
    TaskInGroup(p, tasks, 0);
  }

  /** The watermark exceeds an ID that already waits behind it. */
  lemma OvertakesWaiting(src: ShardId, reach: State -> bool, s: State, t: ShardId, h: int, at: nat, x: int)
    returns (s': State)
    requires src != NO_SHARD && WaitingRouted(s) && Enabled(src, s, Relay(t, h, at)) && Exposed(s, t, h)
    requires Reach(src, reach) && reach(Next(src, s, Relay(t, h, at)))
    requires Behind(s, t, at, x) && x < h
    ensures reach(s') && !AcksSafe(src, s')
  {
    var s0 := Next(src, s, Relay(t, h, at));
    assert Waiting(s, t, x);
    assert s0.queues[t][at + 1..] == s.queues[t][at..];
    s' := OvertakenIsAcknowledged(src, reach, s0, t, at, h, x);
  }

  /** The watermark exceeds the source's own, so it will exceed a task yet to come. */
  lemma OvertakesFuture(src: ShardId, reach: State -> bool, s: State, t: ShardId, h: int, at: nat) returns (s': State)
    requires src != NO_SHARD && 0 <= s.agg.high < h && s.routing == map[]
    requires Enabled(src, s, Relay(t, h, at)) && Exposed(s, t, h)
    requires Reach(src, reach) && reach(Next(src, s, Relay(t, h, at)))
    ensures reach(s') && !AcksSafe(src, s')
  {
    var s0 := Next(src, s, Relay(t, h, at));
    ProbeGoesToTarget(src, s0, t);
    var (p, tasks) := Probe(t, s.agg.high);
    var start := Next(src, s0, Receive(p, tasks, s.agg.high + 1));
    s' := OvertakenIsAcknowledged(src, reach, start, t, at, h, s.agg.high);
  }

  /**
   A relayed watermark that is not in line: some continuation of the run, with no further late
   watermark, sends an acknowledgement past a task that still waits.
   */
  lemma LateRelayOvertakes(src: ShardId, s: State, t: ShardId, h: int, at: nat) returns (s': State)
    requires src != NO_SHARD && Enabled(src, s, Relay(t, h, at)) && Exposed(s, t, h) && !InLine(s, t, h, at)
    requires h <= s.agg.high || s.routing == map[]
    requires Inv(src, s)
    ensures Reaches(src, Next(src, s, Relay(t, h, at)), s') && !AcksSafe(src, s')
  {
    var s0 := Next(src, s, Relay(t, h, at));
    StepKeepsBase(src, s, Relay(t, h, at));
    ReachesItself(src, s0);
    FromIsReach(src, s0);
    if h <= s.agg.high {
      var x :| Behind(s, t, at, x) && x < h;
      s' := OvertakesWaiting(src, From(src, s0), s, t, h, at, x);
    } else {
      s' := OvertakesFuture(src, From(src, s0), s, t, h, at);
    }
  }

  lemma ReachedIsSafe(src: ShardId, s: State, s': State)
    requires Inv(src, s) && Reaches(src, s, s')
    ensures AcksSafe(src, s')
  {
    var states, actions :| Path(src, s, s', states, actions);
    StepsKeepInv(src, states, actions, |actions|);
  }

  /**
   When the target's sender runs and no other target holds the minimum down, a relayed
   watermark keeps every continuation safe if and only if it is in line.
   */
  lemma RelayIsSafeIffInLine(src: ShardId, s: State, t: ShardId, h: int, at: nat)
    requires src != NO_SHARD && Enabled(src, s, Relay(t, h, at)) && Exposed(s, t, h)
    requires h <= s.agg.high || s.routing == map[]
    requires Inv(src, s)
    ensures InLine(s, t, h, at) <==>
            forall s' :: Reaches(src, Next(src, s, Relay(t, h, at)), s') ==> AcksSafe(src, s')
  {
    if InLine(s, t, h, at) {
      StepKeepsInv(src, s, Relay(t, h, at));
      forall s' | Reaches(src, Next(src, s, Relay(t, h, at)), s')
        ensures AcksSafe(src, s')
      {
        ReachedIsSafe(src, Next(src, s, Relay(t, h, at)), s');
      }
    } else {
      var s' := LateRelayOvertakes(src, s, t, h, at);
    }
  }

  /** Two tasks of one message, the smaller ID for `second` and the larger for `first`. */
  ghost predicate IsPair(p: Placement, tasks: seq<SourceTask>, first: ShardId, second: ShardId, x: int, y: int) {
    && |tasks| == 2 && tasks[0].sourceTaskId == x && tasks[1].sourceTaskId == y
    && RoutedTo(p, tasks[0], second) && RoutedTo(p, tasks[1], first) && first != second
    && tasks[0].raw.value.taskId == x && tasks[1].raw.value.taskId == y
  }

  lemma PairIsSplit(p: Placement, tasks: seq<SourceTask>, first: ShardId, second: ShardId, x: int, y: int)
    requires IsPair(p, tasks, first, second, x, y)
    ensures Share(p, tasks, first) == [tasks[1]] && Share(p, tasks, second) == [tasks[0]]
  {
    assert tasks[..1] == [tasks[0]] && tasks[..1][..0] == [];
    assert Share(p, tasks[..1], first) == [] && Share(p, tasks[..1], second) == [tasks[0]];
  }

  lemma PairIsGrouped(p: Placement, tasks: seq<SourceTask>, first: ShardId, second: ShardId, x: int, y: int)
    requires IsPair(p, tasks, first, second, x, y)
    ensures var groups := Groups(p, tasks);
            && first in groups && groups[first] == Batch([y], y + 1)
            && second in groups && groups[second].ids == [x]
  {
    PairIsSplit(p, tasks, first, second, x, y);
    assert SourceIds([tasks[1]]) == [y] && SourceIds([tasks[0]]) == [x];
    assert TargetOf(p, tasks[0]) in Targets(p, tasks) && TargetOf(p, tasks[1]) in Targets(p, tasks);
  }

  /** The larger task's batch is on its way, the smaller one's is not. */
  lemma OneGroupDelivered(
    src: ShardId, reach: State -> bool, s0: State,
    p: Placement, tasks: seq<SourceTask>, first: ShardId, second: ShardId, x: int, y: int) returns (s: State)
    requires Closed(src, reach) && reach(s0) && s0 == Initial({first, second})
    requires IsPair(p, tasks, first, second, x, y) && 0 <= x < y
    ensures reach(s) && IsLate(src, s, second, x, y)
  {
    PairIsGrouped(p, tasks, first, second, x, y);
    assert Enabled(src, s0, Receive(p, tasks, y + 1));
    var s1 := Next(src, s0, Receive(p, tasks, y + 1));
    assert Enabled(src, s1, DeliverGroup(first));
    s := Next(src, s1, DeliverGroup(first));
    assert Behind(s, second, 0, x);
  }

  /** The watermark y + 1 can be relayed to t, whose task x is still undelivered. */
  ghost predicate IsLate(src: ShardId, s: State, t: ShardId, x: int, y: int) {
    && Enabled(src, s, Relay(t, y + 1, 0)) && Exposed(s, t, y + 1) && x in Tail(s, t)
    && y + 1 <= s.agg.high && !InLine(s, t, y + 1, 0)
  }

  ghost function Within(src: ShardId, s0: State): State -> bool {
    s => Reaches(src, s0, s) && Inv(src, s)
  }

  lemma WithinIsClosed(src: ShardId, s0: State)
    ensures Closed(src, Within(src, s0))
  {
    forall s, a | Within(src, s0)(s) && Enabled(src, s, a) && !a.Relay?
      ensures Within(src, s0)(Next(src, s, a))
    {
      OneMoreStep(src, s0, s, a);
      StepKeepsInv(src, s, a);
    }
  }

  lemma PairExists(first: ShardId, second: ShardId, x: int, y: int) returns (p: Placement, tasks: seq<SourceTask>)
    requires first.cluster == second.cluster && first != second
    ensures IsPair(p, tasks, first, second, x, y)
  {
    p := Placement(first.cluster, (_, w) => if w == "1" then first.shard else second.shard);
    tasks := [SourceTask(x, Some(RawTask("n", "2", x))), SourceTask(y, Some(RawTask("n", "1", y)))];
  }

  lemma StartsWithin(src: ShardId, s0: State, targets: set<ShardId>)
    requires s0 == Initial(targets)
    ensures Closed(src, Within(src, s0)) && Within(src, s0)(s0)
  {
    InitialInv(src, targets);
    ReachesItself(src, s0);
    WithinIsClosed(src, s0);
  }

  /** A run that ends with a late watermark about to be relayed to t. */
  ghost predicate LateRun(src: ShardId, s0: State, s: State, t: ShardId, x: int, y: int) {
    Reaches(src, s0, s) && IsLate(src, s, t, x, y)
  }

  lemma LatePrefix(src: ShardId, first: ShardId, second: ShardId, x: int, y: int) returns (s: State)
    requires first.cluster == second.cluster && first != second && 0 <= x < y
    ensures LateRun(src, Initial({first, second}), s, second, x, y) && Inv(src, s)
  {
    var s0 := Initial({first, second});
    var p, tasks := PairExists(first, second, x, y);
    StartsWithin(src, s0, {first, second});
    s := OneGroupDelivered(src, Within(src, s0), s0, p, tasks, first, second, x, y);
  }

  lemma LateIsUnsafe(src: ShardId, s: State, t: ShardId, x: int, y: int) returns (s': State)
    requires src != NO_SHARD && IsLate(src, s, t, x, y) && Inv(src, s)
    ensures Reaches(src, Next(src, s, Relay(t, y + 1, 0)), s') && !AcksSafe(src, s')
  {
    s' := LateRelayOvertakes(src, s, t, y + 1, 0);
  }

  /**
   The condition is not idle: for any two targets of a cluster and any two IDs, the relayed
   watermark of the larger task's batch overtakes the smaller one, which is still undelivered.
   */
  lemma RelayCanOvertake(src: ShardId, first: ShardId, second: ShardId, x: int, y: int) returns (s: State, s': State)
    requires src != NO_SHARD && first.cluster == second.cluster && first != second && 0 <= x < y
    ensures LateRun(src, Initial({first, second}), s, second, x, y)
    ensures Reaches(src, Next(src, s, Relay(second, y + 1, 0)), s') && !AcksSafe(src, s')
  {
    s := LatePrefix(src, first, second, x, y);
    s' := LateIsUnsafe(src, s, second, x, y);
  }
}

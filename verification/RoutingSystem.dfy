/**
 The whole routing path for one source shard: its receiver routes tasks to any number of
 target senders, each of which also carries arbitrary traffic of other source shards, and
 the receiver aggregates the levels the senders forward. Queues are FIFO per target, except
 that a proxy relaying for a peer may slip a remembered watermark in; forwarded levels may be
 duplicated and reordered on their way back.
 */
module RoutingSystem {
  import opened Shards
  import opened StreamSender
  import opened StreamReceiver
  import SP = SenderProtocol
  import AA = AckAggregation

  /** A routed batch in a sender's channel, by original IDs. */
  datatype Batch = Batch(ids: seq<int>, high: int)

  datatype Level = Level(target: ShardId, level: int)

  datatype Placed = Placed(target: ShardId, id: int)

  datatype State = State(
    agg: AA.State,
    routing: map<ShardId, Batch>,      // groups of the current message not delivered yet
    watermarks: set<int>,              // watermarks of the empty messages received so far
    relayed: set<int>,                 // watermarks of all batches queued so far, as relays remember them
    queues: map<ShardId, seq<Batch>>,
    senders: map<ShardId, SP.State>,
    returned: set<Level>,              // levels forwarded for this source
    routed: set<Placed>)               // every task ever routed, with its target

  datatype Action =
    | Receive(p: Placement, tasks: seq<SourceTask>, high: int)
    | DeliverGroup(target: ShardId)
    | PushWatermark(target: ShardId, high: int)
    | Relay(target: ShardId, high: int, at: nat)
    | Consume(target: ShardId)
    | SenderStep(target: ShardId, step: SP.Action)
    | Aggregator(ack: AA.Action)

  function SourceIds(tasks: seq<SourceTask>): (ids: seq<int>)
    ensures |ids| == |tasks|
  {
    seq(|tasks|, i requires 0 <= i < |tasks| => tasks[i].sourceTaskId)
  }

  function Targets(p: Placement, tasks: seq<SourceTask>): set<ShardId> {
    set i | 0 <= i < |tasks| && Routable(tasks[i]) :: TargetOf(p, tasks[i])
  }

  /** The watermark a group is delivered with, from the raw ID of its last task. */
  function GroupHigh(share: seq<SourceTask>): int {
    if share == [] || share[|share| - 1].raw.None? then 0 else share[|share| - 1].raw.value.taskId + 1
  }

  function Groups(p: Placement, tasks: seq<SourceTask>): map<ShardId, Batch> {
    map t | t in Targets(p, tasks) :: Batch(SourceIds(Share(p, tasks, t)), GroupHigh(Share(p, tasks, t)))
  }

  function PlacedTasks(p: Placement, tasks: seq<SourceTask>): set<Placed> {
    set i | 0 <= i < |tasks| && Routable(tasks[i]) :: Placed(TargetOf(p, tasks[i]), tasks[i].sourceTaskId)
  }

  ghost predicate Sorted(ids: seq<int>) {
    forall i, j :: 0 <= i < j < |ids| ==> ids[i] <= ids[j]
  }

  /**
   What the source cluster promises of its stream: watermarks are positive and never fall,
   and a message's tasks are sorted between the previous watermark and its own.
   */
  ghost predicate SourcePromise(previousHigh: int, tasks: seq<SourceTask>, high: int) {
    && 0 < high && previousHigh <= high
    && Sorted(SourceIds(tasks))
    && forall i :: 0 <= i < |tasks| ==> previousHigh <= tasks[i].sourceTaskId < high
  }

  ghost predicate Enabled(src: ShardId, s: State, a: Action) {
    match a
    case Receive(p, tasks, high) => s.routing == map[] && SourcePromise(s.agg.high, tasks, high)
    case DeliverGroup(t) => t in s.routing && t in s.queues
    case PushWatermark(t, h) => t in s.queues && h in s.watermarks
    case Relay(t, h, at) => t in s.queues && at <= |s.queues[t]| && h in s.relayed && h != 0
    case Consume(t) => t in s.queues && t in s.senders && s.queues[t] != [] && s.senders[t].sending.Ready?
    case SenderStep(t, step) =>
      t in s.senders && SP.Enabled(s.senders[t], step) && (step.Rewrite? ==> step.source != src)
    case Aggregator(ack) =>
      AA.Enabled(s.agg, ack) && !ack.SetHigh? && (ack.TakeAck? ==> Level(ack.target, ack.level) in s.returned)
  }

  /** A level forwarded for this source goes back to its receiver. */
  function ReturnedBy(src: ShardId, t: ShardId, sender: SP.State, step: SP.Action): set<Level>
    requires SP.Enabled(sender, step)
  {
    if step.Forward? && step.source == src then {Level(t, sender.acking.levels[src])} else {}
  }

  /** `at` counts the batches that have reached the channel; the others are still with a relay. */
  function Inserted(queue: seq<Batch>, at: nat, b: Batch): seq<Batch>
    requires at <= |queue|
  {
    queue[..at] + [b] + queue[at..]
  }

  ghost function Next(src: ShardId, s: State, a: Action): State
    requires Enabled(src, s, a)
  {
    match a
    case Receive(p, tasks, high) =>
      s.(agg := AA.Next(s.agg, AA.SetHigh(high)),
         routing := Groups(p, tasks),
         watermarks := if tasks == [] then s.watermarks + {high} else s.watermarks,
         routed := s.routed + PlacedTasks(p, tasks))
    case DeliverGroup(t) =>
      s.(queues := s.queues[t := s.queues[t] + [s.routing[t]]], routing := s.routing - {t},
         relayed := s.relayed + {s.routing[t].high})
    case PushWatermark(t, h) =>
      s.(queues := s.queues[t := s.queues[t] + [Batch([], h)]], relayed := s.relayed + {h})
    case Relay(t, h, at) =>
      s.(queues := s.queues[t := Inserted(s.queues[t], at, Batch([], h))])
    case Consume(t) =>
      var b := s.queues[t][0];
      s.(queues := s.queues[t := s.queues[t][1..]],
         senders := s.senders[t := SP.Next(s.senders[t], SP.Rewrite(src, b.ids, b.high))])
    case SenderStep(t, step) =>
      s.(senders := s.senders[t := SP.Next(s.senders[t], step)],
         returned := s.returned + ReturnedBy(src, t, s.senders[t], step))
    case Aggregator(ack) => s.(agg := AA.Next(s.agg, ack))
  }

  function Initial(targets: set<ShardId>): State {
    State(AA.INITIAL, map[], {}, {}, map t | t in targets :: [], map t | t in targets :: SP.INITIAL, {}, {})
  }

  /** A stretch of a run, from any state. */
  ghost predicate Steps(src: ShardId, states: seq<State>, actions: seq<Action>) {
    && |states| == |actions| + 1
    && forall i :: 0 <= i < |actions| ==>
      Enabled(src, states[i], actions[i]) && states[i + 1] == Next(src, states[i], actions[i])
  }

  ghost predicate IsRun(src: ShardId, states: seq<State>, actions: seq<Action>) {
    Steps(src, states, actions) && exists targets :: states[0] == Initial(targets)
  }

  // ---------- one target's line: recorded, queued, then still to be delivered ----------

  /** Nothing the sender recorded for the source exceeds v. */
  ghost predicate RecordedBelow(src: ShardId, es: seq<SP.Entry>, v: int) {
    forall i :: 0 <= i < |es| && es[i].source == src ==> es[i].value <= v
  }

  ghost predicate BatchBelow(b: Batch, v: int) {
    forall x :: x in Recorded(b.ids, b.high) ==> x <= v
  }

  /** Nothing recorded or queued for the source exceeds v. */
  ghost predicate Below(src: ShardId, es: seq<SP.Entry>, queue: seq<Batch>, v: int) {
    RecordedBelow(src, es, v) && forall b :: b in queue ==> BatchBelow(b, v)
  }

  /** The batch can follow what is recorded and queued. */
  ghost predicate Follows(src: ShardId, es: seq<SP.Entry>, queue: seq<Batch>, ids: seq<int>) {
    Sorted(ids) && forall x :: x in ids ==> Below(src, es, queue, x)
  }

  ghost predicate RecordedInOrder(src: ShardId, es: seq<SP.Entry>) {
    forall j :: 0 <= j < |es| && es[j].source == src && es[j].isTask ==> RecordedBelow(src, es[..j], es[j].value)
  }

  ghost predicate QueueInOrder(src: ShardId, es: seq<SP.Entry>, queue: seq<Batch>) {
    forall b :: 0 <= b < |queue| ==> Follows(src, es, queue[..b], queue[b].ids)
  }

  ghost predicate Line(src: ShardId, es: seq<SP.Entry>, queue: seq<Batch>, tail: seq<int>, high: int) {
    && RecordedInOrder(src, es) && QueueInOrder(src, es, queue) && Follows(src, es, queue, tail)
    && Below(src, es, queue, high) && forall x :: x in tail ==> x <= high
  }

  /** Queueing the tail itself. */
  lemma Enqueue(src: ShardId, es: seq<SP.Entry>, queue: seq<Batch>, tail: seq<int>, high: int, b: Batch)
    requires Line(src, es, queue, tail, high) && b.ids == tail && tail != []
    ensures Line(src, es, queue + [b], [], high)
  {
    forall c | 0 <= c < |queue + [b]|
      ensures Follows(src, es, (queue + [b])[..c], (queue + [b])[c].ids)
    {
      assert (queue + [b])[..c] == queue[..c];
      if c == |queue| {
        assert queue[..c] == queue;
      }
    }
  }

  /** Slipping a watermark in: not above any ID behind it. */
  lemma Insert(src: ShardId, es: seq<SP.Entry>, queue: seq<Batch>, tail: seq<int>, high: int, at: nat, h: int)
    requires Line(src, es, queue, tail, high) && at <= |queue| && h <= high
    requires forall x :: x in tail ==> h <= x
    requires forall b, x :: b in queue[at..] && x in b.ids ==> h <= x
    ensures Line(src, es, Inserted(queue, at, Batch([], h)), tail, high)
  {
    var longer := Inserted(queue, at, Batch([], h));
    forall c | 0 <= c < |longer|
      ensures Follows(src, es, longer[..c], longer[c].ids)
    {
      if c < at {
        assert longer[..c] == queue[..c];
      } else if c > at {
        assert longer[c] == queue[at..][c - 1 - at] && Follows(src, es, queue[..c - 1], queue[c - 1].ids);
        assert longer[..c] == Inserted(queue[..c - 1], at, Batch([], h));
      }
    }
  }

  /** A later message: nothing recorded or queued exceeds the old watermark. */
  lemma NewTail(src: ShardId, es: seq<SP.Entry>, queue: seq<Batch>, high: int, tail: seq<int>, newHigh: int)
    requires Line(src, es, queue, [], high) && high <= newHigh
    requires Sorted(tail) && forall x :: x in tail ==> high <= x <= newHigh
    ensures Line(src, es, queue, tail, newHigh)
  {
  }

  /** The sender takes the front batch into its ring. */
  lemma Dequeue(src: ShardId, es: seq<SP.Entry>, queue: seq<Batch>, tail: seq<int>, high: int)
    requires Line(src, es, queue, tail, high) && queue != []
    ensures Line(src, es + SP.Entries(src, queue[0].ids, queue[0].high), queue[1..], tail, high)
  {
    var b := queue[0];
    var added := SP.Entries(src, b.ids, b.high);
    var es' := es + added;
    assert queue[..0] == [] && Follows(src, es, [], b.ids);
    forall v | RecordedBelow(src, es, v) && BatchBelow(b, v)
      ensures RecordedBelow(src, es', v)
    {
      assert forall i :: |es| <= i < |es'| ==> es'[i].value in Recorded(b.ids, b.high);
    }
    forall j | 0 <= j < |es'| && es'[j].source == src && es'[j].isTask
      ensures RecordedBelow(src, es'[..j], es'[j].value)
    {
      if j < |es| {
        assert es'[..j] == es[..j];
      } else {
        assert es'[j].value == b.ids[j - |es|] && es'[j].value in b.ids;
        assert forall i :: |es| <= i < j ==> es'[i].value == b.ids[i - |es|];
      }
    }
    forall c | 0 <= c < |queue[1..]|
      ensures Follows(src, es', queue[1..][..c], queue[1..][c].ids)
    {
      assert queue[..c + 1] == [b] + queue[1..][..c];
      assert Follows(src, es, queue[..c + 1], queue[c + 1].ids);
    }
  }

  /** Traffic of another source leaves the line alone. */
  lemma OtherTraffic(
    src: ShardId, es: seq<SP.Entry>, added: seq<SP.Entry>, queue: seq<Batch>, tail: seq<int>, high: int)
    requires Line(src, es, queue, tail, high)
    requires forall i :: 0 <= i < |added| ==> added[i].source != src
    ensures Line(src, es + added, queue, tail, high)
  {
  }

  // ---------- system invariant ----------

  function Tail(s: State, t: ShardId): seq<int> {
    if t in s.routing then s.routing[t].ids else []
  }

  /** The ID waits for the target's sender: undelivered or queued. */
  ghost predicate Waiting(s: State, t: ShardId, id: int) {
    id in Tail(s, t) || (t in s.queues && exists b :: b in s.queues[t] && id in b.ids)
  }

  /** The ID waits behind the first `at` batches of the queue. */
  ghost predicate Behind(s: State, t: ShardId, at: nat, id: int)
    requires t in s.queues && at <= |s.queues[t]|
  {
    id in Tail(s, t) || exists b :: b in s.queues[t][at..] && id in b.ids
  }

  /** What a relayed watermark must respect: the source watermark and every ID behind it. */
  ghost predicate InLine(s: State, t: ShardId, h: int, at: nat)
    requires t in s.queues && at <= |s.queues[t]|
  {
    h <= s.agg.high && forall x :: Behind(s, t, at, x) ==> h <= x
  }

  ghost predicate Orderly(src: ShardId, s: State, a: Action)
    requires Enabled(src, s, a)
  {
    a.Relay? ==> InLine(s, a.target, a.high, a.at)
  }

  ghost predicate TargetSound(src: ShardId, s: State, t: ShardId)
    requires t in s.senders && t in s.queues
  {
    Line(src, s.senders[t].recorded, s.queues[t], Tail(s, t), s.agg.high)
  }

  ghost predicate NoneFrom(src: ShardId, es: seq<SP.Entry>) {
    forall i :: 0 <= i < |es| ==> es[i].source != src
  }

  ghost predicate TargetsSound(src: ShardId, s: State) {
    s.queues.Keys == s.senders.Keys && forall t :: t in s.senders ==> TargetSound(src, s, t)
  }

  /** Every sender keeps its own invariant. */
  ghost predicate SendersSound(s: State) {
    forall t :: t in s.senders ==> SP.Inv(s.senders[t])
  }

  /** Remembered watermarks and undelivered groups fit between the past and the source watermark. */
  ghost predicate RoutingSound(s: State) {
    && 0 <= s.agg.high && (forall h :: h in s.watermarks ==> h <= s.agg.high)
    && (forall t :: t in s.routing ==> s.routing[t].ids != [])
    && (forall h, t, x :: h in s.watermarks && t in s.routing && x in s.routing[t].ids ==> h <= x)
  }

  /** Before the first positive watermark nothing of the source is anywhere. */
  ghost predicate HighFirst(src: ShardId, s: State)
    requires s.queues.Keys == s.senders.Keys
  {
    s.agg.high > 0 ||
    (&& s.watermarks == {} && s.relayed == {} && s.routing == map[]
     && forall t :: t in s.senders ==> s.queues[t] == [] && NoneFrom(src, s.senders[t].recorded))
  }

  /** Only routed tasks below the source watermark wait. */
  ghost predicate WaitingRouted(s: State) {
    forall t, x :: Waiting(s, t, x) ==> Placed(t, x) in s.routed && x < s.agg.high
  }

  ghost predicate RecordedAt(src: ShardId, s: State, pl: Placed) {
    pl.target in s.senders && SP.Entry(src, pl.id, true) in s.senders[pl.target].recorded
  }

  /** A routed task is still waiting, or recorded by its target's sender. */
  ghost predicate Located(src: ShardId, s: State, pl: Placed) {
    Waiting(s, pl.target, pl.id) || RecordedAt(src, s, pl)
  }

  ghost predicate AllLocated(src: ShardId, s: State) {
    forall pl :: pl in s.routed ==> Located(src, s, pl)
  }

  ghost predicate LevelSound(src: ShardId, s: State, t: ShardId, level: int) {
    t in s.senders && SP.Witnessed(s.senders[t], src, level)
  }

  ghost predicate LevelsSound(src: ShardId, s: State) {
    && (forall l :: l in s.returned ==> LevelSound(src, s, l.target, l.level))
    && (forall t :: t in s.agg.ackByTarget ==> LevelSound(src, s, t, s.agg.ackByTarget[t]))
  }

  /** Every recorded copy of the task is at a proxy ID strictly below a watermark that has arrived. */
  ghost predicate CopiesPassed(src: ShardId, sender: SP.State, id: int) {
    forall i :: 0 <= i < |sender.recorded| && sender.recorded[i] == SP.Entry(src, id, true) ==> i + 1 < sender.top
  }

  /** The target has acknowledged the task: it was recorded, every copy is acknowledged, and none waits. */
  ghost predicate Done(src: ShardId, s: State, pl: Placed) {
    && RecordedAt(src, s, pl) && !Waiting(s, pl.target, pl.id)
    && CopiesPassed(src, s.senders[pl.target], pl.id)
  }

  /** Every task routed to a target known at the time, with an ID below the level, is done. */
  ghost predicate SendSafe(src: ShardId, s: State, sent: AA.Sent) {
    forall pl :: pl in s.routed && pl.target in sent.known && pl.id < sent.level ==> Done(src, s, pl)
  }

  ghost predicate AcksSafe(src: ShardId, s: State) {
    forall k :: 0 <= k < |s.agg.upstream| && !s.agg.upstream[k].keepalive ==> SendSafe(src, s, s.agg.upstream[k])
  }

  /** What every run keeps, whatever order the queues are in. */
  ghost predicate Base(src: ShardId, s: State) {
    && AA.Inv(s.agg) && SendersSound(s) && LevelsSound(src, s)
    && s.queues.Keys == s.senders.Keys && HighFirst(src, s)
  }

  /** What holds while the queues are in order. */
  ghost predicate Lines(src: ShardId, s: State) {
    TargetsSound(src, s) && RoutingSound(s) && WaitingRouted(s) && AllLocated(src, s) && AcksSafe(src, s)
  }

  ghost predicate Inv(src: ShardId, s: State) {
    Base(src, s) && Lines(src, s)
  }

  // ---------- preservation ----------

  ghost predicate SenderGrows(a: SP.State, b: SP.State) {
    a.recorded <= b.recorded && a.top <= b.top
  }

  /** Senders only ever record more and see higher watermarks. */
  ghost predicate SendersGrow(s: State, s': State) {
    forall t :: t in s.senders ==> t in s'.senders && SenderGrows(s.senders[t], s'.senders[t])
  }

  lemma LevelKept(src: ShardId, s: State, s': State, t: ShardId, level: int)
    requires LevelSound(src, s, t, level) && SendersGrow(s, s')
    ensures LevelSound(src, s', t, level)
  {
  }

  lemma LevelsKept(src: ShardId, s: State, s': State)
    requires LevelsSound(src, s) && SendersGrow(s, s')
    requires s'.returned == s.returned && s'.agg.ackByTarget == s.agg.ackByTarget
    ensures LevelsSound(src, s')
  {
  }

  /** One sender's step keeps every sender's invariant. */
  lemma SendersKept(s: State, u: ShardId, step: SP.Action, s': State)
    requires SendersSound(s) && u in s.senders && SP.Enabled(s.senders[u], step)
    requires s'.senders == s.senders[u := SP.Next(s.senders[u], step)]
    ensures SendersSound(s')
  {
    SP.StepKeepsInv(s.senders[u], step);
  }

  lemma SenderWitnesses(s: State, u: ShardId)
    requires SendersSound(s) && u in s.senders
    ensures SP.LevelsWitnessed(s.senders[u])
  {
  }

  lemma SenderStepKeepsLevels(src: ShardId, s: State, u: ShardId, step: SP.Action)
    requires LevelsSound(src, s) && Enabled(src, s, SenderStep(u, step)) && SP.LevelsWitnessed(s.senders[u])
    requires SendersGrow(s, Next(src, s, SenderStep(u, step)))
    ensures LevelsSound(src, Next(src, s, SenderStep(u, step)))
  {
    var s' := Next(src, s, SenderStep(u, step));
    var kept := s'.(returned := s.returned);
    LevelsKept(src, s, kept);
    forall l | l in s'.returned
      ensures LevelSound(src, s', l.target, l.level)
    {
      if l in s.returned {
        assert LevelSound(src, kept, l.target, l.level);
      } else {
        LevelKept(src, s, s', u, l.level);
      }
    }
    assert forall t :: t in s'.agg.ackByTarget ==> LevelSound(src, kept, t, s'.agg.ackByTarget[t]);
  }

  /** An acknowledgement is only taken up after a positive source watermark. */
  lemma AggregatorMeetsContract(src: ShardId, s: State, ack: AA.Action)
    requires LevelsSound(src, s) && s.queues.Keys == s.senders.Keys && HighFirst(src, s)
    requires Enabled(src, s, Aggregator(ack))
    ensures AA.SourceContract(s.agg, ack)
  {
    if ack.TakeAck? {
      assert LevelSound(src, s, ack.target, ack.level);
    }
  }

  /** Steps that leave the senders and the levels alone. */
  lemma SendersUntouched(src: ShardId, s: State, s': State)
    requires SendersSound(s) && LevelsSound(src, s) && s'.senders == s.senders && s'.returned == s.returned
    requires s'.agg.ackByTarget == s.agg.ackByTarget
    ensures SendersSound(s') && LevelsSound(src, s')
  {
    LevelsKept(src, s, s');
  }

  lemma SenderStepGrows(src: ShardId, s: State, u: ShardId, step: SP.Action)
    requires Enabled(src, s, SenderStep(u, step))
    ensures SendersGrow(s, Next(src, s, SenderStep(u, step)))
  {
    SP.StepOnlyAdds(s.senders[u], step);
  }

  lemma SenderStepKeepsHighFirst(src: ShardId, s: State, u: ShardId, step: SP.Action)
    requires s.queues.Keys == s.senders.Keys && HighFirst(src, s) && Enabled(src, s, SenderStep(u, step))
    ensures var s' := Next(src, s, SenderStep(u, step)); s'.queues.Keys == s'.senders.Keys && HighFirst(src, s')
  {
    SP.StepOnlyAdds(s.senders[u], step);
  }

  lemma SenderStepKeepsBase(src: ShardId, s: State, u: ShardId, step: SP.Action)
    requires Base(src, s) && Enabled(src, s, SenderStep(u, step))
    ensures Base(src, Next(src, s, SenderStep(u, step)))
  {
    var s' := Next(src, s, SenderStep(u, step));
    assert SendersSound(s') by { SendersKept(s, u, step, s'); }
    assert LevelsSound(src, s') by {
      SenderStepGrows(src, s, u, step);
      SenderWitnesses(s, u);
      SenderStepKeepsLevels(src, s, u, step);
    }
    SenderStepKeepsHighFirst(src, s, u, step);
  }

  lemma ConsumeGrows(src: ShardId, s: State, u: ShardId)
    requires Enabled(src, s, Consume(u))
    ensures SendersGrow(s, Next(src, s, Consume(u)))
  {
  }

  lemma ConsumeKeepsHighFirst(src: ShardId, s: State, u: ShardId)
    requires s.queues.Keys == s.senders.Keys && HighFirst(src, s) && Enabled(src, s, Consume(u))
    ensures var s' := Next(src, s, Consume(u)); s'.queues.Keys == s'.senders.Keys && HighFirst(src, s')
  {
    assert s.queues[u] != [];
  }

  lemma ConsumeKeepsBase(src: ShardId, s: State, u: ShardId)
    requires Base(src, s) && Enabled(src, s, Consume(u))
    ensures Base(src, Next(src, s, Consume(u)))
  {
    var s' := Next(src, s, Consume(u));
    assert SendersSound(s') by {
      SendersKept(s, u, SP.Rewrite(src, s.queues[u][0].ids, s.queues[u][0].high), s');
    }
    assert LevelsSound(src, s') by {
      ConsumeGrows(src, s, u);
      LevelsKept(src, s, s');
    }
    ConsumeKeepsHighFirst(src, s, u);
  }

  lemma AggregatorKeepsLevels(src: ShardId, s: State, ack: AA.Action)
    requires LevelsSound(src, s) && Enabled(src, s, Aggregator(ack))
    ensures LevelsSound(src, Next(src, s, Aggregator(ack)))
  {
  }

  lemma AggregatorKeepsOwn(src: ShardId, s: State, ack: AA.Action)
    requires AA.Inv(s.agg) && LevelsSound(src, s) && s.queues.Keys == s.senders.Keys && HighFirst(src, s)
    requires Enabled(src, s, Aggregator(ack))
    ensures AA.Inv(Next(src, s, Aggregator(ack)).agg)
  {
    AggregatorMeetsContract(src, s, ack);
    AA.StepKeepsInv(s.agg, ack);
  }

  lemma AggregatorKeepsBase(src: ShardId, s: State, ack: AA.Action)
    requires Base(src, s) && Enabled(src, s, Aggregator(ack))
    ensures Base(src, Next(src, s, Aggregator(ack)))
  {
    AggregatorKeepsOwn(src, s, ack);
    AggregatorKeepsLevels(src, s, ack);
  }

  lemma ReceiveKeepsBase(src: ShardId, s: State, p: Placement, tasks: seq<SourceTask>, high: int)
    requires Base(src, s) && Enabled(src, s, Receive(p, tasks, high))
    ensures Base(src, Next(src, s, Receive(p, tasks, high)))
  {
    AA.StepKeepsInv(s.agg, AA.SetHigh(high));
    SendersUntouched(src, s, Next(src, s, Receive(p, tasks, high)));
  }

  /** Queueing at the end: a group, or the watermark of an empty batch. */
  predicate Queues(a: Action) {
    a.DeliverGroup? || a.PushWatermark?
  }

  lemma BaseUntouched(src: ShardId, s: State, s': State)
    requires Base(src, s) && s'.agg == s.agg && s'.senders == s.senders && s'.returned == s.returned
    requires s'.queues.Keys == s'.senders.Keys && HighFirst(src, s')
    ensures Base(src, s')
  {
    assert SendersSound(s') && LevelsSound(src, s') by { SendersUntouched(src, s, s'); }
  }

  lemma QueueingKeepsHighFirst(src: ShardId, s: State, a: Action)
    requires s.queues.Keys == s.senders.Keys && HighFirst(src, s) && Enabled(src, s, a) && (Queues(a) || a.Relay?)
    ensures var s' := Next(src, s, a); s'.queues.Keys == s'.senders.Keys && HighFirst(src, s')
  {
  }

  lemma QueueingKeepsBase(src: ShardId, s: State, a: Action)
    requires Base(src, s) && Enabled(src, s, a) && (Queues(a) || a.Relay?)
    ensures Base(src, Next(src, s, a))
  {
    QueueingKeepsHighFirst(src, s, a);
    BaseUntouched(src, s, Next(src, s, a));
  }

  /** Every step keeps the order-free part, late relays included. */
  lemma StepKeepsBase(src: ShardId, s: State, a: Action)
    requires Base(src, s) && Enabled(src, s, a)
    ensures Base(src, Next(src, s, a))
  {
    match a
    case Receive(p, tasks, high) => ReceiveKeepsBase(src, s, p, tasks, high);
    case Consume(t) => ConsumeKeepsBase(src, s, t);
    case SenderStep(t, step) => SenderStepKeepsBase(src, s, t, step);
    case Aggregator(ack) => AggregatorKeepsBase(src, s, ack);
    case _ => QueueingKeepsBase(src, s, a);
  }

  /** Nothing sent upstream exceeds the source watermark. */
  ghost predicate SentBelowHigh(s: State) {
    forall k :: 0 <= k < |s.agg.upstream| ==> s.agg.upstream[k].level <= s.agg.high
  }

  lemma BoundedByHigh(s: State)
    requires AA.Inv(s.agg)
    ensures SentBelowHigh(s)
  {
  }

  ghost predicate NewTasksWaited(src: ShardId, s: State, t: ShardId, from: nat, es: seq<SP.Entry>) {
    forall i :: from <= i < |es| && es[i].source == src && es[i].isTask ==> Waiting(s, t, es[i].value)
  }

  /** Tasks that are routed, wait or get recorded anew were waiting, or lie at or above the watermark. */
  ghost predicate NothingNewBelow(src: ShardId, s: State, s': State) {
    && (forall pl :: pl in s'.routed ==> pl in s.routed || pl.id >= s.agg.high)
    && (forall t, x :: Waiting(s', t, x) ==> Waiting(s, t, x) || x >= s.agg.high)
    && (forall t :: t in s.senders && t in s'.senders ==>
          NewTasksWaited(src, s, t, |s.senders[t].recorded|, s'.senders[t].recorded))
  }

  lemma DoneKept(src: ShardId, s: State, s': State, pl: Placed)
    requires Done(src, s, pl) && SendersGrow(s, s') && NothingNewBelow(src, s, s') && pl.id < s.agg.high
    ensures Done(src, s', pl)
  {
    var before, after := s.senders[pl.target], s'.senders[pl.target];
    forall i | 0 <= i < |after.recorded| && after.recorded[i] == SP.Entry(src, pl.id, true)
      ensures i + 1 < after.top
    {
      assert i < |before.recorded| ==> before.recorded[i] == after.recorded[i];
    }
  }

  /** Old sends stay safe while senders grow and new tasks lie at or above the old watermark. */
  lemma SafetyKept(src: ShardId, s: State, s': State)
    requires AcksSafe(src, s) && SentBelowHigh(s) && SendersGrow(s, s') && s'.agg.upstream == s.agg.upstream
    requires NothingNewBelow(src, s, s')
    ensures AcksSafe(src, s')
  {
    forall k, pl | 0 <= k < |s.agg.upstream| && !s.agg.upstream[k].keepalive && pl in s'.routed
                   && pl.target in s.agg.upstream[k].known && pl.id < s.agg.upstream[k].level
      ensures Done(src, s', pl)
    {
      assert s.agg.upstream[k].level <= s.agg.high;
      assert SendSafe(src, s, s.agg.upstream[k]);
      DoneKept(src, s, s', pl);
    }
  }

  /** What still waits lies at or above every witnessed level. */
  lemma WaitingIsNotBelow(src: ShardId, s: State, t: ShardId, level: int, id: int)
    requires TargetsSound(src, s) && LevelSound(src, s, t, level) && Waiting(s, t, id)
    ensures level <= id
  {
    assert TargetSound(src, s, t);
    if b :| b in s.queues[t] && id in b.ids {
      var c :| 0 <= c < |s.queues[t]| && s.queues[t][c] == b;
      assert Follows(src, s.senders[t].recorded, s.queues[t][..c], b.ids);
    }
  }

  /** The recorded values of the source are in queue order. */
  lemma LineIsOrdered(src: ShardId, s: State, t: ShardId)
    requires TargetsSound(src, s) && t in s.senders
    ensures SP.OrderedFor(s.senders[t].recorded, src)
  {
    assert TargetSound(src, s, t);
    var es := s.senders[t].recorded;
    forall i, j | 0 <= i < j < |es| && es[i].source == es[j].source == src && es[j].isTask
      ensures es[i].value <= es[j].value
    {
      assert es[..j][i] == es[i];
    }
  }

  /** The heart of the matter: below a witnessed level, every routed task is done. */
  lemma BelowLevelIsDone(src: ShardId, s: State, pl: Placed, level: int)
    requires TargetsSound(src, s) && Located(src, s, pl)
    requires LevelSound(src, s, pl.target, level) && pl.id < level
    ensures Done(src, s, pl)
  {
    var sender := s.senders[pl.target];
    if Waiting(s, pl.target, pl.id) {
      WaitingIsNotBelow(src, s, pl.target, level, pl.id);
      assert false;
    }
    LineIsOrdered(src, s, pl.target);
    forall i | 0 <= i < |sender.recorded| && sender.recorded[i] == SP.Entry(src, pl.id, true)
      ensures i + 1 < sender.top
    {
      if SP.Unfinished(sender, i, src) {
        SP.WitnessedNeverOvertakes(sender, src, level, i);
        assert false;
      }
    }
  }

  lemma ReceiveKeepsLines(src: ShardId, s: State, p: Placement, tasks: seq<SourceTask>, high: int)
    requires Lines(src, s) && SentBelowHigh(s) && Enabled(src, s, Receive(p, tasks, high))
    ensures Lines(src, Next(src, s, Receive(p, tasks, high)))
  {
    var s' := Next(src, s, Receive(p, tasks, high));
    forall t | t in s'.routing
      ensures s'.routing[t].ids != [] && Sorted(s'.routing[t].ids)
      ensures forall x :: x in s'.routing[t].ids ==> s.agg.high <= x < high
    {
      GroupFits(p, tasks, t, s.agg.high, high);
    }
    forall t | t in s'.senders
      ensures TargetSound(src, s', t)
    {
      assert TargetSound(src, s, t);
      NewTail(src, s.senders[t].recorded, s.queues[t], s.agg.high, Tail(s', t), high);
    }
    ReceiveKeepsPlaces(src, s, p, tasks, high);
    SafetyKept(src, s, s');
  }

  lemma ReceiveKeepsPlaces(src: ShardId, s: State, p: Placement, tasks: seq<SourceTask>, high: int)
    requires AllLocated(src, s) && WaitingRouted(s) && Enabled(src, s, Receive(p, tasks, high))
    ensures var s' := Next(src, s, Receive(p, tasks, high));
            AllLocated(src, s') && WaitingRouted(s') && NothingNewBelow(src, s, s')
  {
    var s' := Next(src, s, Receive(p, tasks, high));
    forall t, x | Waiting(s', t, x)
      ensures Waiting(s, t, x) || (s.agg.high <= x < high && Placed(t, x) in s'.routed)
    {
      if x in Tail(s', t) {
        GroupFits(p, tasks, t, s.agg.high, high);
        GroupIsPlaced(p, tasks, t, x);
      }
    }
    forall pl | pl in s'.routed
      ensures Located(src, s', pl) && (pl in s.routed || pl.id >= s.agg.high)
    {
      if pl in s.routed {
        assert Located(src, s, pl);
      } else {
        var i :| 0 <= i < |tasks| && Routable(tasks[i]) && pl == Placed(TargetOf(p, tasks[i]), tasks[i].sourceTaskId);
        TaskInGroup(p, tasks, i);
      }
    }
  }

  lemma GroupIsPlaced(p: Placement, tasks: seq<SourceTask>, t: ShardId, x: int)
    requires t in Groups(p, tasks) && x in Groups(p, tasks)[t].ids
    ensures Placed(t, x) in PlacedTasks(p, tasks)
  {
    var at := ShareSelects(p, tasks, t);
    var k :| 0 <= k < |at| && SourceIds(Share(p, tasks, t))[k] == x;
    assert at[k] in at && tasks[at[k]].sourceTaskId == x;
  }

  /** A group inherits the order and the bounds of its message. */
  lemma GroupFits(p: Placement, tasks: seq<SourceTask>, t: ShardId, low: int, high: int)
    requires t in Targets(p, tasks) && SourcePromise(low, tasks, high)
    ensures var ids := SourceIds(Share(p, tasks, t));
            ids != [] && Sorted(ids) && forall x :: x in ids ==> low <= x < high
  {
    var at := ShareSelects(p, tasks, t);
    var ids := SourceIds(Share(p, tasks, t));
    var i :| 0 <= i < |tasks| && Routable(tasks[i]) && TargetOf(p, tasks[i]) == t;
    assert i in at;
    forall k, l | 0 <= k < l < |ids|
      ensures ids[k] <= ids[l]
    {
      assert SourceIds(tasks)[at[k]] <= SourceIds(tasks)[at[l]];
    }
  }

  lemma TaskInGroup(p: Placement, tasks: seq<SourceTask>, i: nat)
    requires i < |tasks| && Routable(tasks[i])
    ensures TargetOf(p, tasks[i]) in Groups(p, tasks)
    ensures tasks[i].sourceTaskId in Groups(p, tasks)[TargetOf(p, tasks[i])].ids
  {
    var t := TargetOf(p, tasks[i]);
    assert t in Targets(p, tasks);
    var at := ShareSelects(p, tasks, t);
    assert i in at;
    var k :| 0 <= k < |at| && at[k] == i;
    assert SourceIds(Share(p, tasks, t))[k] == tasks[i].sourceTaskId;
  }

  /** The direct receiver's watermarks are always in line, at any position its FIFO queue can give them. */
  lemma DirectPushIsInLine(src: ShardId, s: State, t: ShardId, h: int)
    requires RoutingSound(s) && Enabled(src, s, PushWatermark(t, h))
    ensures InLine(s, t, h, |s.queues[t]|)
  {
    forall x | Behind(s, t, |s.queues[t]|, x)
      ensures h <= x
    {
      assert x in s.routing[t].ids;
    }
  }

  lemma DeliveryKeepsTargets(src: ShardId, s: State, u: ShardId)
    requires TargetsSound(src, s) && RoutingSound(s) && Enabled(src, s, DeliverGroup(u))
    ensures TargetsSound(src, Next(src, s, DeliverGroup(u)))
  {
    var s' := Next(src, s, DeliverGroup(u));
    assert TargetSound(src, s, u);
    Enqueue(src, s.senders[u].recorded, s.queues[u], Tail(s, u), s.agg.high, s.routing[u]);
    forall t | t in s'.senders
      ensures TargetSound(src, s', t)
    {
      assert TargetSound(src, s, t);
    }
  }

  /** A watermark in line can be slipped in anywhere. */
  lemma InsertionKeepsTargets(src: ShardId, s: State, s': State, t: ShardId, h: int, at: nat)
    requires TargetsSound(src, s) && t in s.queues && at <= |s.queues[t]| && InLine(s, t, h, at)
    requires s'.agg == s.agg && s'.routing == s.routing && s'.senders == s.senders
    requires s'.queues == s.queues[t := Inserted(s.queues[t], at, Batch([], h))]
    ensures TargetsSound(src, s')
  {
    assert TargetSound(src, s, t);
    forall b, x | b in s.queues[t][at..] && x in b.ids
      ensures h <= x
    {
      assert Behind(s, t, at, x);
    }
    assert forall x :: x in Tail(s, t) ==> Behind(s, t, at, x);
    Insert(src, s.senders[t].recorded, s.queues[t], Tail(s, t), s.agg.high, at, h);
    OneTargetKept(src, s, s', t);
  }

  lemma QueueingKeepsTargets(src: ShardId, s: State, a: Action)
    requires TargetsSound(src, s) && RoutingSound(s) && Enabled(src, s, a) && Queues(a)
    ensures TargetsSound(src, Next(src, s, a))
  {
    if a.DeliverGroup? {
      DeliveryKeepsTargets(src, s, a.target);
    } else {
      var q := s.queues[a.target];
      DirectPushIsInLine(src, s, a.target, a.high);
      assert q + [Batch([], a.high)] == Inserted(q, |q|, Batch([], a.high));
      InsertionKeepsTargets(src, s, Next(src, s, a), a.target, a.high, |q|);
    }
  }

  /** Queueing moves no task away from its target. */
  lemma QueueingKeepsWaiting(src: ShardId, s: State, a: Action, t: ShardId, x: int)
    requires Enabled(src, s, a) && (Queues(a) || a.Relay?)
    ensures Waiting(Next(src, s, a), t, x) <==> Waiting(s, t, x)
  {
    var s' := Next(src, s, a);
    if t == a.target {
      if a.Relay? {
        assert s.queues[t] == s.queues[t][..a.at] + s.queues[t][a.at..];
        assert forall b :: b in s'.queues[t] <==> b in s.queues[t] || b == Batch([], a.high);
      } else {
        assert s'.queues[t] == s.queues[t] + [s'.queues[t][|s.queues[t]|]];
      }
    }
  }

  lemma QueueingKeepsPlaces(src: ShardId, s: State, a: Action)
    requires AllLocated(src, s) && WaitingRouted(s) && Enabled(src, s, a) && (Queues(a) || a.Relay?)
    ensures AllLocated(src, Next(src, s, a)) && WaitingRouted(Next(src, s, a))
    ensures NothingNewBelow(src, s, Next(src, s, a))
  {
    forall t, x
      ensures Waiting(Next(src, s, a), t, x) <==> Waiting(s, t, x)
    {
      QueueingKeepsWaiting(src, s, a, t, x);
    }
  }

  lemma QueueingKeepsLines(src: ShardId, s: State, a: Action)
    requires Lines(src, s) && SentBelowHigh(s) && Enabled(src, s, a) && Queues(a)
    ensures Lines(src, Next(src, s, a))
  {
    QueueingKeepsTargets(src, s, a);
    QueueingKeepsPlaces(src, s, a);
    SafetyKept(src, s, Next(src, s, a));
  }

  /** A relayed watermark that is in line keeps everything. */
  lemma RelayKeepsLines(src: ShardId, s: State, t: ShardId, h: int, at: nat)
    requires Lines(src, s) && SentBelowHigh(s) && Enabled(src, s, Relay(t, h, at)) && InLine(s, t, h, at)
    ensures Lines(src, Next(src, s, Relay(t, h, at)))
  {
    var s' := Next(src, s, Relay(t, h, at));
    InsertionKeepsTargets(src, s, s', t, h, at);
    QueueingKeepsPlaces(src, s, Relay(t, h, at));
    SafetyKept(src, s, s');
  }

  /** Replacing one sender and its queue keeps the other targets sound. */
  lemma OneTargetKept(src: ShardId, s: State, s': State, u: ShardId)
    requires TargetsSound(src, s) && u in s.senders
    requires s'.agg == s.agg && s'.routing == s.routing
    requires s'.senders.Keys == s.senders.Keys == s'.queues.Keys
    requires forall t :: t in s.senders && t != u ==> s'.senders[t] == s.senders[t] && s'.queues[t] == s.queues[t]
    requires TargetSound(src, s', u)
    ensures TargetsSound(src, s')
  {
  }

  /** The front batch's tasks leave the queue for the ring. */
  lemma ConsumeMoves(src: ShardId, s: State, u: ShardId)
    requires Enabled(src, s, Consume(u))
    ensures var s' := Next(src, s, Consume(u));
            && NewTasksWaited(src, s, u, |s.senders[u].recorded|, s'.senders[u].recorded)
            && (forall x :: x in s.queues[u][0].ids ==> RecordedAt(src, s', Placed(u, x)))
            && (forall t, x :: Waiting(s', t, x) ==> Waiting(s, t, x))
            && (forall t, x :: Waiting(s, t, x) ==> Waiting(s', t, x) || (t == u && x in s.queues[u][0].ids))
  {
    var s' := Next(src, s, Consume(u));
    var b, rest := s.queues[u][0], s.queues[u][1..];
    assert s.queues[u] == [b] + rest;
    var n, es := |s.senders[u].recorded|, s'.senders[u].recorded;
    forall i | n <= i < |es| && es[i].isTask
      ensures Waiting(s, u, es[i].value)
    {
      assert es[i].value == b.ids[i - n];
    }
    forall x | x in b.ids
      ensures RecordedAt(src, s', Placed(u, x))
    {
      var i :| 0 <= i < |b.ids| && b.ids[i] == x;
      assert es[n + i] == SP.Entry(src, x, true);
    }
  }

  lemma ConsumeKeepsPlaces(src: ShardId, s: State, u: ShardId)
    requires AllLocated(src, s) && WaitingRouted(s) && Enabled(src, s, Consume(u))
    ensures AllLocated(src, Next(src, s, Consume(u))) && WaitingRouted(Next(src, s, Consume(u)))
    ensures NothingNewBelow(src, s, Next(src, s, Consume(u)))
  {
    var s' := Next(src, s, Consume(u));
    ConsumeMoves(src, s, u);
    forall pl | pl in s'.routed
      ensures Located(src, s', pl)
    {
      assert Located(src, s, pl);
    }
  }

  lemma ConsumeKeepsTargets(src: ShardId, s: State, u: ShardId)
    requires TargetsSound(src, s) && Enabled(src, s, Consume(u))
    ensures TargetsSound(src, Next(src, s, Consume(u)))
    ensures SendersGrow(s, Next(src, s, Consume(u)))
  {
    var s' := Next(src, s, Consume(u));
    var b := s.queues[u][0];
    assert TargetSound(src, s, u);
    Dequeue(src, s.senders[u].recorded, s.queues[u], Tail(s, u), s.agg.high);
    OneTargetKept(src, s, s', u);
  }

  lemma ConsumeKeepsLines(src: ShardId, s: State, u: ShardId)
    requires Lines(src, s) && SentBelowHigh(s) && Enabled(src, s, Consume(u))
    ensures Lines(src, Next(src, s, Consume(u)))
  {
    var s' := Next(src, s, Consume(u));
    ConsumeKeepsTargets(src, s, u);
    ConsumeKeepsPlaces(src, s, u);
    SafetyKept(src, s, s');
  }

  /** Replacing a sender by one that recorded only other sources' values keeps all targets sound. */
  lemma ForeignTrafficKept(src: ShardId, s: State, s': State, u: ShardId, added: seq<SP.Entry>)
    requires TargetsSound(src, s) && u in s.senders && u in s'.senders
    requires s'.agg == s.agg && s'.routing == s.routing && s'.queues == s.queues
    requires s'.senders == s.senders[u := s'.senders[u]]
    requires s'.senders[u].recorded == s.senders[u].recorded + added
    requires forall i :: 0 <= i < |added| ==> added[i].source != src
    ensures TargetsSound(src, s')
  {
    assert TargetSound(src, s, u);
    OtherTraffic(src, s.senders[u].recorded, added, s.queues[u], Tail(s, u), s.agg.high);
    OneTargetKept(src, s, s', u);
  }

  lemma SenderStepKeepsTargets(src: ShardId, s: State, u: ShardId, step: SP.Action)
    requires TargetsSound(src, s) && Enabled(src, s, SenderStep(u, step))
    ensures TargetsSound(src, Next(src, s, SenderStep(u, step)))
    ensures SendersGrow(s, Next(src, s, SenderStep(u, step)))
  {
    var s' := Next(src, s, SenderStep(u, step));
    SP.StepOnlyAdds(s.senders[u], step);
    ForeignTrafficKept(src, s, s', u, SP.Added(step));
  }

  /** Places survive when senders grow and nothing else moves. */
  lemma PlacesKept(src: ShardId, s: State, s': State)
    requires AllLocated(src, s) && WaitingRouted(s) && SendersGrow(s, s')
    requires s'.routed == s.routed && s'.routing == s.routing && s'.queues == s.queues
    requires s'.agg.high == s.agg.high
    ensures AllLocated(src, s') && WaitingRouted(s')
  {
    forall t, x
      ensures Waiting(s', t, x) <==> Waiting(s, t, x)
    {
    }
  }

  lemma SenderStepAddsNothing(src: ShardId, s: State, u: ShardId, step: SP.Action)
    requires Enabled(src, s, SenderStep(u, step))
    ensures NothingNewBelow(src, s, Next(src, s, SenderStep(u, step)))
  {
    SP.StepOnlyAdds(s.senders[u], step);
  }

  lemma SenderStepKeepsLines(src: ShardId, s: State, u: ShardId, step: SP.Action)
    requires Lines(src, s) && SentBelowHigh(s) && Enabled(src, s, SenderStep(u, step))
    ensures Lines(src, Next(src, s, SenderStep(u, step)))
  {
    var s' := Next(src, s, SenderStep(u, step));
    SenderStepKeepsTargets(src, s, u, step);
    PlacesKept(src, s, s');
    SenderStepAddsNothing(src, s, u, step);
    SafetyKept(src, s, s');
  }

  /** A computed level is at most every known target's level, so everything below it is done. */
  lemma SendUpIsSafe(src: ShardId, s: State, sent: AA.Sent)
    requires TargetsSound(src, s) && AllLocated(src, s) && LevelsSound(src, s)
    requires sent.known == s.agg.ackByTarget
    requires forall t :: t in sent.known ==> sent.level <= sent.known[t]
    ensures SendSafe(src, s, sent)
  {
    forall pl | pl in s.routed && pl.target in sent.known && pl.id < sent.level
      ensures Done(src, s, pl)
    {
      assert LevelSound(src, s, pl.target, s.agg.ackByTarget[pl.target]);
      BelowLevelIsDone(src, s, pl, s.agg.ackByTarget[pl.target]);
    }
  }

  /** The aggregator touches nothing a send is judged by. */
  lemma SendSafeKept(src: ShardId, s: State, s': State, sent: AA.Sent)
    requires SendSafe(src, s, sent)
    requires s'.routed == s.routed && s'.routing == s.routing && s'.queues == s.queues && s'.senders == s.senders
    ensures SendSafe(src, s', sent)
  {
    forall pl | pl in s.routed && pl.target in sent.known && pl.id < sent.level
      ensures Done(src, s', pl)
    {
      assert Done(src, s, pl);
    }
  }

  lemma AggregatorKeepsSafety(src: ShardId, s: State, ack: AA.Action)
    requires TargetsSound(src, s) && AllLocated(src, s) && LevelsSound(src, s) && AcksSafe(src, s)
    requires Enabled(src, s, Aggregator(ack)) && AA.Bounded(AA.Next(s.agg, ack).upstream)
    ensures AcksSafe(src, Next(src, s, Aggregator(ack)))
  {
    var s' := Next(src, s, Aggregator(ack));
    forall k | 0 <= k < |s'.agg.upstream| && !s'.agg.upstream[k].keepalive
      ensures SendSafe(src, s', s'.agg.upstream[k])
    {
      var sent := s'.agg.upstream[k];
      if k < |s.agg.upstream| {
        assert sent == s.agg.upstream[k] && SendSafe(src, s, sent);
      } else {
        SendUpIsSafe(src, s, sent);
      }
      SendSafeKept(src, s, s', sent);
    }
  }

  lemma AggregatorKeepsTargets(src: ShardId, s: State, ack: AA.Action)
    requires TargetsSound(src, s) && Enabled(src, s, Aggregator(ack))
    ensures TargetsSound(src, Next(src, s, Aggregator(ack)))
  {
  }

  lemma AggregatorKeepsRouting(src: ShardId, s: State, ack: AA.Action)
    requires RoutingSound(s) && AllLocated(src, s) && WaitingRouted(s) && Enabled(src, s, Aggregator(ack))
    ensures var s' := Next(src, s, Aggregator(ack)); RoutingSound(s') && AllLocated(src, s') && WaitingRouted(s')
  {
    PlacesKept(src, s, Next(src, s, Aggregator(ack)));
  }

  lemma AggregatorKeepsLines(src: ShardId, s: State, ack: AA.Action)
    requires Lines(src, s) && LevelsSound(src, s) && Enabled(src, s, Aggregator(ack))
    requires AA.Bounded(AA.Next(s.agg, ack).upstream)
    ensures Lines(src, Next(src, s, Aggregator(ack)))
  {
    AggregatorKeepsRouting(src, s, ack);
    AggregatorKeepsTargets(src, s, ack);
    AggregatorKeepsSafety(src, s, ack);
  }

  lemma StepKeepsLines(src: ShardId, s: State, a: Action)
    requires Lines(src, s) && SentBelowHigh(s) && LevelsSound(src, s)
    requires Enabled(src, s, a) && Orderly(src, s, a) && AA.Bounded(Next(src, s, a).agg.upstream)
    ensures Lines(src, Next(src, s, a))
  {
    match a
    case Receive(p, tasks, high) => ReceiveKeepsLines(src, s, p, tasks, high);
    case DeliverGroup(_) => QueueingKeepsLines(src, s, a);
    case PushWatermark(_, _) => QueueingKeepsLines(src, s, a);
    case Relay(t, h, at) => RelayKeepsLines(src, s, t, h, at);
    case Consume(t) => ConsumeKeepsLines(src, s, t);
    case SenderStep(t, step) => SenderStepKeepsLines(src, s, t, step);
    case Aggregator(ack) => AggregatorKeepsLines(src, s, ack);
  }

  lemma StepKeepsInv(src: ShardId, s: State, a: Action)
    requires Inv(src, s) && Enabled(src, s, a) && Orderly(src, s, a)
    ensures Inv(src, Next(src, s, a))
  {
    StepKeepsBase(src, s, a);
    BoundedByHigh(s);
    StepKeepsLines(src, s, a);
  }

  lemma InitialInv(src: ShardId, targets: set<ShardId>)
    ensures Inv(src, Initial(targets))
  {
  }

  /** Every relayed watermark among the first k actions was in line. */
  ghost predicate AllOrderly(src: ShardId, states: seq<State>, actions: seq<Action>, k: nat)
    requires Steps(src, states, actions) && k <= |actions|
  {
    forall i :: 0 <= i < k ==> Orderly(src, states[i], actions[i])
  }

  lemma {:induction false} StepsKeepInv(src: ShardId, states: seq<State>, actions: seq<Action>, k: nat)
    requires Steps(src, states, actions) && k < |states| && Inv(src, states[0])
    requires AllOrderly(src, states, actions, k)
    ensures Inv(src, states[k])
  {
    if k > 0 {
      StepsKeepInv(src, states, actions, k - 1);
      StepKeepsInv(src, states[k - 1], actions[k - 1]);
    }
  }

  lemma RunKeepsInv(src: ShardId, states: seq<State>, actions: seq<Action>, k: nat)
    requires IsRun(src, states, actions) && k < |states| && AllOrderly(src, states, actions, k)
    ensures Inv(src, states[k])
  {
    var targets :| states[0] == Initial(targets);
    InitialInv(src, targets);
    StepsKeepInv(src, states, actions, k);
  }

  // ---------- theorems ----------

  /**
   End-to-end ack safety: in every interleaving whose relayed watermarks are in line, whenever
   a computed level went upstream, every task of the source routed to a then known target
   with a smaller ID has been acknowledged by that target, in all its copies.
   */
  lemma AcksNeverOvertakeWork(src: ShardId, states: seq<State>, actions: seq<Action>, k: nat)
    requires IsRun(src, states, actions) && k < |states| && AllOrderly(src, states, actions, k)
    ensures AcksSafe(src, states[k])
  {
    RunKeepsInv(src, states, actions, k);
  }

  /** The queue order every sender relies on follows from the source's promise. */
  lemma SendersRecordInOrder(src: ShardId, states: seq<State>, actions: seq<Action>, k: nat, t: ShardId)
    requires IsRun(src, states, actions) && k < |states| && AllOrderly(src, states, actions, k)
    requires t in states[k].senders
    ensures SP.OrderedFor(states[k].senders[t].recorded, src)
    ensures SP.NoOvertaking(states[k].senders[t], src)
  {
    RunKeepsInv(src, states, actions, k);
    LineIsOrdered(src, states[k], t);
    SP.OrderPreventsOvertaking(states[k].senders[t], src);
  }

  // ---------- what the histories stand for ----------

  /** A task of some received message that hashes to t, with the given ID. */
  ghost predicate Received(actions: seq<Action>, k: nat, t: ShardId, id: int)
    requires k <= |actions|
  {
    exists i, j :: 0 <= i < k && actions[i].Receive? && 0 <= j < |actions[i].tasks|
                   && HashesTo(actions[i].p, actions[i].tasks[j], t) && actions[i].tasks[j].sourceTaskId == id
  }

  ghost predicate HashesTo(p: Placement, task: SourceTask, t: ShardId) {
    && task.raw.Some? && task.raw.value.namespaceId != "" && task.raw.value.workflowId != ""
    && t == ShardId(p.cluster, p.hash(task.raw.value.namespaceId, task.raw.value.workflowId))
  }

  /** The safety claims speak of every routable task ever received, and of no other. */
  lemma {:induction false} RoutedIsReceived(
    src: ShardId, states: seq<State>, actions: seq<Action>, k: nat, t: ShardId, id: int)
    requires IsRun(src, states, actions) && k <= |actions|
    ensures Placed(t, id) in states[k].routed <==> Received(actions, k, t, id)
  {
    if k > 0 {
      RoutedIsReceived(src, states, actions, k - 1, t, id);
      var a := actions[k - 1];
      assert states[k] == Next(src, states[k - 1], a);
      if a.Receive? {
        PlacedIsHashed(a.p, a.tasks, t, id);
      }
    }
  }

  lemma PlacedIsHashed(p: Placement, tasks: seq<SourceTask>, t: ShardId, id: int)
    ensures Placed(t, id) in PlacedTasks(p, tasks) <==>
            exists j :: 0 <= j < |tasks| && HashesTo(p, tasks[j], t) && tasks[j].sourceTaskId == id
  {
    if j :| 0 <= j < |tasks| && HashesTo(p, tasks[j], t) && tasks[j].sourceTaskId == id {
      assert Routable(tasks[j]) && TargetOf(p, tasks[j]) == t;
    }
    if Placed(t, id) in PlacedTasks(p, tasks) {
      var j :| 0 <= j < |tasks| && Routable(tasks[j])
               && Placed(t, id) == Placed(TargetOf(p, tasks[j]), tasks[j].sourceTaskId);
      assert HashesTo(p, tasks[j], t);
    }
  }

  /** The watermark of every empty message received can be pushed to any target at any later time. */
  lemma {:induction false} WatermarksAreRemembered(
    src: ShardId, states: seq<State>, actions: seq<Action>, k: nat, h: int)
    requires IsRun(src, states, actions) && k <= |actions|
    ensures h in states[k].watermarks <==>
            exists i :: 0 <= i < k && actions[i].Receive? && actions[i].tasks == [] && actions[i].high == h
  {
    if k > 0 {
      WatermarksAreRemembered(src, states, actions, k - 1, h);
      assert states[k] == Next(src, states[k - 1], actions[k - 1]);
    }
  }

  /** The step queues a batch with this watermark. */
  ghost predicate QueuesHigh(s: State, a: Action, h: int) {
    || (a.DeliverGroup? && a.target in s.routing && s.routing[a.target].high == h)
    || (a.PushWatermark? && a.high == h)
  }

  /** The watermark of every batch ever queued, task batches included, can be relayed at any later time. */
  lemma {:induction false} RelaysRememberAll(src: ShardId, states: seq<State>, actions: seq<Action>, k: nat, h: int)
    requires IsRun(src, states, actions) && k <= |actions|
    ensures h in states[k].relayed <==> exists i :: 0 <= i < k && QueuesHigh(states[i], actions[i], h)
  {
    if k > 0 {
      RelaysRememberAll(src, states, actions, k - 1, h);
      assert states[k] == Next(src, states[k - 1], actions[k - 1]);
      if QueuesHigh(states[k - 1], actions[k - 1], h) {
        assert h in states[k].relayed;
      }
    }
  }

  /** The step forwards this level for the source. */
  ghost predicate Returns(src: ShardId, s: State, a: Action, l: Level) {
    && a == SenderStep(l.target, SP.Forward(src)) && l.target in s.senders
    && s.senders[l.target].acking.Forwarding? && src in s.senders[l.target].acking.levels
    && s.senders[l.target].acking.levels[src] == l.level
  }

  /** Exactly the levels the senders forwarded for the source can be taken up, any number of times. */
  lemma {:induction false} ReturnedIsForwarded(
    src: ShardId, states: seq<State>, actions: seq<Action>, k: nat, l: Level)
    requires IsRun(src, states, actions) && k <= |actions|
    ensures l in states[k].returned <==> exists i :: 0 <= i < k && Returns(src, states[i], actions[i], l)
  {
    if k > 0 {
      ReturnedIsForwarded(src, states, actions, k - 1, l);
      var s, a := states[k - 1], actions[k - 1];
      assert states[k] == Next(src, s, a);
      assert l in states[k].returned <==> l in s.returned || Returns(src, s, a, l);
    }
  }

  /** The groups of the system are the messages the receiver's routing delivers. */
  lemma GroupsAreRouted(p: Placement, tasks: seq<SourceTask>, t: ShardId)
    ensures t in Groups(p, tasks) <==> Share(p, tasks, t) != []
    ensures t in Groups(p, tasks) ==> Carries(Groups(p, tasks)[t], Share(p, tasks, t))
  {
    SharedIffTarget(p, tasks, t);
    if t in Groups(p, tasks) {
      LastIsRoutable(p, tasks, t);
      BatchCarries(Share(p, tasks, t));
    }
  }

  /** The batch has the IDs of the tasks in order, and the watermark just above the last one's raw ID. */
  ghost predicate Carries(b: Batch, share: seq<SourceTask>) {
    && share != [] && share[|share| - 1].raw.Some? && b.high == share[|share| - 1].raw.value.taskId + 1
    && |b.ids| == |share| && forall i :: 0 <= i < |share| ==> b.ids[i] == share[i].sourceTaskId
  }

  lemma BatchCarries(share: seq<SourceTask>)
    requires share != [] && Routable(share[|share| - 1])
    ensures Carries(Batch(SourceIds(share), GroupHigh(share)), share)
  {
  }

  lemma SharedIffTarget(p: Placement, tasks: seq<SourceTask>, t: ShardId)
    ensures t in Targets(p, tasks) <==> Share(p, tasks, t) != []
  {
    var at := ShareSelects(p, tasks, t);
    if Share(p, tasks, t) != [] {
      assert at[0] in at;
      assert Routable(tasks[at[0]]) && TargetOf(p, tasks[at[0]]) == t;
    }
    if t in Targets(p, tasks) {
      var j :| 0 <= j < |tasks| && Routable(tasks[j]) && TargetOf(p, tasks[j]) == t;
      assert j in at;
    }
  }

  lemma {:induction false} RunKeepsBase(src: ShardId, states: seq<State>, actions: seq<Action>, k: nat)
    requires IsRun(src, states, actions) && k < |states|
    ensures Base(src, states[k])
  {
    if k == 0 {
      var targets :| states[0] == Initial(targets);
      InitialInv(src, targets);
    } else {
      RunKeepsBase(src, states, actions, k - 1);
      StepKeepsBase(src, states[k - 1], actions[k - 1]);
    }
  }

  /** Given only the source's promise, and even with late relays, upstream levels are monotone and bounded. */
  lemma UpstreamIsMonotone(src: ShardId, states: seq<State>, actions: seq<Action>, k: nat)
    requires IsRun(src, states, actions) && k < |states|
    ensures AA.Monotone(states[k].agg.upstream) && AA.Bounded(states[k].agg.upstream)
    ensures AA.KeepalivesRepeat(states[k].agg.upstream)
  {
    RunKeepsBase(src, states, actions, k);
  }
}

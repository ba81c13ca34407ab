/**
 proxyStreamSender: rewrites tasks into its own contiguous proxy ID space, remembers the
 original of every proxy ID in the ring, and turns target acknowledgements back into
 per-source acknowledgements. The class holds the fields guarded by the sender's mutex;
 each method is one critical section, specified by a function on the value `Core`.
 */
module StreamSender {
  import opened Shards
  import opened IdLog
  import opened Delivery
  import opened Options
  import IdRing

  /** A replication task: its ID, the ID inside its raw task info if it has one, and the rest. */
  datatype Task = Task(id: int, rawId: Option<int>, body: string)

  datatype Message = Message(tasks: seq<Task>, exclusiveHigh: int)

  /** The mutex-guarded state, as a value. */
  datatype Core = Core(next: int, log: Log, prevAck: map<ShardId, int>, lastSent: int)

  const FRESH := Core(0, Log(0, []), map[], 0)

  /** The next proxy ID continues the ring. */
  predicate Aligned(c: Core) {
    c.log.entries != [] ==> c.log.start + |c.log.entries| == c.next + 1
  }

  /** What a batch adds to the ring: its task IDs, or its watermark when it has no tasks. */
  function Recorded(ids: seq<int>, high: int): (v: seq<int>)
    ensures v != []
  {
    if ids == [] then [high] else ids
  }

  function Mappings(source: ShardId, values: seq<int>): (m: seq<Mapping>)
    ensures |m| == |values|
  {
    seq(|values|, i requires 0 <= i < |values| => Mapping(source, values[i]))
  }

  /** The effect of rewriting one routed batch. */
  function Record(c: Core, source: ShardId, ids: seq<int>, high: int): Core {
    var values := Recorded(ids, high);
    c.(next := c.next + |values|,
       log := Log(if c.log.entries == [] then c.next + 1 else c.log.start, c.log.entries + Mappings(source, values)))
  }

  function Ids(tasks: seq<Task>): (ids: seq<int>)
    ensures |ids| == |tasks|
  {
    seq(|tasks|, i requires 0 <= i < |tasks| => tasks[i].id)
  }

  function Renumber(t: Task, proxyId: int): Task {
    Task(proxyId, if t.rawId.Some? then Some(proxyId) else None, t.body)
  }

  /** Exclusive high watermark of a rewritten batch, in proxy ID space. */
  function ProxyHigh(next: int, tasks: nat): int {
    if tasks == 0 then next + 1 else next + tasks + 1
  }

  class Sender {
    var nextProxyTaskId: int
    var idRing: IdRing.Ring
    var prevAckBySource: map<ShardId, int>
    var lastSentWatermark: int

    ghost predicate Valid()
      reads this, idRing, idRing.entries
    {
      idRing.Valid() && Aligned(Value())
    }

    ghost function Value(): Core
      requires idRing.Valid()
      reads this, idRing, idRing.entries
    {
      Core(nextProxyTaskId, idRing.Value(), prevAckBySource, lastSentWatermark)
    }

    constructor ()
      ensures Valid() && Value() == FRESH && fresh(idRing) && fresh(idRing.entries)
    {
      idRing := new IdRing.Ring(1024);
      nextProxyTaskId := 0;
      prevAckBySource := map[];
      lastSentWatermark := 0;
    }

    /** Allocate the next proxy ID for an original value. */
    method Allocate(source: ShardId, original: int) returns (proxyId: int)
      requires Valid()
      modifies this`nextProxyTaskId, idRing, idRing.entries
      ensures Valid() && (idRing.entries == old(idRing.entries) || fresh(idRing.entries))
      ensures proxyId == old(nextProxyTaskId) + 1
      ensures Value() == Record(old(Value()), source, [original], 0)
    {
      nextProxyTaskId := nextProxyTaskId + 1;
      proxyId := nextProxyTaskId;
      idRing.Append(proxyId, source, original);
    }

    /**
     Rewrite a routed batch: tasks keep their order and contents, get consecutive proxy
     IDs, and the ring records every original.
     */
    method Rewrite(source: ShardId, batch: Message) returns (sent: Message)
      requires Valid()
      modifies this`nextProxyTaskId, idRing, idRing.entries
      ensures Valid() && (idRing.entries == old(idRing.entries) || fresh(idRing.entries))
      ensures Value() == Record(old(Value()), source, Ids(batch.tasks), batch.exclusiveHigh)
      ensures |sent.tasks| == |batch.tasks|
      ensures forall i :: 0 <= i < |batch.tasks| ==>
                sent.tasks[i] == Renumber(batch.tasks[i], old(nextProxyTaskId) + 1 + i)
      ensures sent.exclusiveHigh == ProxyHigh(old(nextProxyTaskId), |batch.tasks|)
      ensures forall i :: 0 <= i < |batch.tasks| ==>
                && sent.tasks[i].id == old(nextProxyTaskId) + 1 + i && sent.tasks[i].body == batch.tasks[i].body
                && (sent.tasks[i].rawId.Some? <==> batch.tasks[i].rawId.Some?)
                && (sent.tasks[i].rawId.Some? ==> sent.tasks[i].rawId.value == sent.tasks[i].id)
      ensures if batch.tasks == [] then sent.exclusiveHigh == nextProxyTaskId == old(nextProxyTaskId) + 1
              else sent.exclusiveHigh == sent.tasks[|sent.tasks| - 1].id + 1 == nextProxyTaskId + 1
    {
      if batch.tasks == [] {
        var proxyHigh := Allocate(source, batch.exclusiveHigh);
        return Message([], proxyHigh);
      }
      var tasks := RewriteTasks(source, batch.tasks);
      sent := Message(tasks, tasks[|tasks| - 1].id + 1);
    }

    /** The loop over the tasks of a batch that has some. */
    method RewriteTasks(source: ShardId, tasks: seq<Task>) returns (renumbered: seq<Task>)
      requires Valid() && tasks != []
      modifies this`nextProxyTaskId, idRing, idRing.entries
      ensures Valid() && (idRing.entries == old(idRing.entries) || fresh(idRing.entries))
      ensures Value() == Record(old(Value()), source, Ids(tasks), 0)
      ensures |renumbered| == |tasks|
      ensures forall i :: 0 <= i < |tasks| ==> renumbered[i] == Renumber(tasks[i], old(nextProxyTaskId) + 1 + i)
      ensures forall i :: 0 <= i < |tasks| ==>
                && renumbered[i].id == old(nextProxyTaskId) + 1 + i && renumbered[i].body == tasks[i].body
                && (renumbered[i].rawId.Some? <==> tasks[i].rawId.Some?)
                && (renumbered[i].rawId.Some? ==> renumbered[i].rawId.value == renumbered[i].id)
    {
      ghost var was, ids := Value(), Ids(tasks);
      renumbered := [];
      for i := 0 to |tasks|
        invariant Valid() && (idRing.entries == old(idRing.entries) || fresh(idRing.entries))
        invariant |renumbered| == i && nextProxyTaskId == was.next + i
        invariant Value() == RecordedSoFar(was, source, ids, i)
        invariant forall k :: 0 <= k < i ==> renumbered[k] == Renumber(tasks[k], was.next + 1 + k)
      {
        RecordOneMore(was, source, ids, i);
        var proxyId := Allocate(source, tasks[i].id);
        renumbered := renumbered + [Renumber(tasks[i], proxyId)];
      }
      assert ids[..|tasks|] == ids;
    }

    /** The first critical section of an acknowledgement. */
    method Aggregate(watermark: int) returns (acks: map<ShardId, int>, count: nat)
      requires Valid()
      ensures count == Covered(Value().log.start, |Value().log.entries|, watermark)
      ensures acks == AckMap(Value().log.entries[..count])
    {
      acks, count := idRing.AggregateUpTo(watermark);
    }

    method RecordAck(source: ShardId, level: int)
      requires Valid()
      modifies this`prevAckBySource
      ensures Valid() && Value() == old(Value()).(prevAck := old(Value()).prevAck[source := level])
    {
      prevAckBySource := prevAckBySource[source := level];
    }

    method Discard(count: nat)
      requires Valid()
      modifies idRing`head, idRing`size, idRing`start
      ensures Valid() && Value() == old(Value()).(log := DropFrom(old(Value()).log, count))
    {
      idRing.Discard(count);
    }

    /** After a successful send. */
    method NoteSent(watermark: int)
      requires Valid()
      modifies this`lastSentWatermark
      ensures Valid() && Value() == old(Value()).(lastSent := watermark)
    {
      lastSentWatermark := watermark;
    }

    /**
     The whole handling of one target acknowledgement when the send loop stays quiet:
     forward the aggregated levels (or, when there are none, the previous ones), and
     discard the covered entries only if every owner took its level before a shutdown.
     */
    method HandleAck(watermark: int, rounds: seq<set<ShardId>>)
      returns (levels: map<ShardId, int>, sent: seq<ShardId>, completed: bool)
      requires Valid()
      modifies this`prevAckBySource, idRing`head, idRing`size, idRing`start
      ensures Valid()
      ensures levels == Levels(old(Value()), watermark)
      ensures NoRepeats(sent)
      ensures forall s :: s in sent <==> s in levels && Accepted(rounds, s)
      ensures completed <==> forall s :: s in levels ==> Accepted(rounds, s)
      ensures Value() == AfterAck(old(Value()), watermark, Elements(sent), completed)
      ensures var log := old(Value()).log;
              var covered := log.entries[..Covered(log.start, |log.entries|, watermark)];
              if exists e :: e in covered && e.source != NO_SHARD then IsShardMaximum(covered, levels)
              else levels == old(prevAckBySource)
      ensures nextProxyTaskId == old(nextProxyTaskId) && lastSentWatermark == old(lastSentWatermark)
      ensures !completed ==> Value().log == old(Value()).log
      ensures completed ==>
                var n := Covered(old(idRing.start), old(idRing.size), watermark);
                Value().log.entries == old(Value()).log.entries[n..] && Value().log.start == old(idRing.start) + n
      ensures forall s :: s in prevAckBySource <==> s in old(prevAckBySource) || s in sent
      ensures forall s :: s in prevAckBySource ==>
                prevAckBySource[s] == if s in sent then levels[s] else old(prevAckBySource)[s]
    {
      ghost var was := Value();
      levels, sent, completed := ForwardAndDiscard(watermark, rounds);
      LevelsForward(was, watermark);
      AfterAckMeans(was, watermark, sent, completed);
    }

    /** The three critical sections of an acknowledgement in turn. */
    method ForwardAndDiscard(watermark: int, rounds: seq<set<ShardId>>)
      returns (levels: map<ShardId, int>, sent: seq<ShardId>, completed: bool)
      requires Valid()
      modifies this`prevAckBySource, idRing`head, idRing`size, idRing`start
      ensures Valid()
      ensures levels == Levels(old(Value()), watermark)
      ensures NoRepeats(sent)
      ensures forall s :: s in sent <==> s in levels && Accepted(rounds, s)
      ensures completed <==> forall s :: s in levels ==> Accepted(rounds, s)
      ensures Value() == AfterAck(old(Value()), watermark, Elements(sent), completed)
    {
      var acks, count := Aggregate(watermark);
      levels := if |acks| > 0 then acks else prevAckBySource;
      sent, completed := Forward(levels, |acks| > 0, rounds);
      if completed && count > 0 {
        Discard(count);
      }
    }

    /** Hand each level to its source shard's owner; fresh levels are remembered once taken. */
    method Forward(levels: map<ShardId, int>, isFresh: bool, rounds: seq<set<ShardId>>)
      returns (sent: seq<ShardId>, completed: bool)
      requires Valid() && (!isFresh ==> levels == prevAckBySource)
      modifies this`prevAckBySource
      ensures Valid()
      ensures NoRepeats(sent)
      ensures forall s :: s in sent <==> s in levels && Accepted(rounds, s)
      ensures completed <==> forall s :: s in levels ==> Accepted(rounds, s)
      ensures Value() == old(Value()).(prevAck := old(prevAckBySource) + Restrict(levels, Elements(sent)))
      ensures forall s :: s in prevAckBySource <==> s in old(prevAckBySource) || s in sent
      ensures forall s :: s in prevAckBySource ==>
                prevAckBySource[s] == if s in sent then levels[s] else old(prevAckBySource)[s]
    {
      sent, completed := DeliverAll(levels, rounds);
      if isFresh {
        Remember(Restrict(levels, Elements(sent)));
      } else {
        RestrictedIsKnown(prevAckBySource, Elements(sent));
      }
    }

    method Remember(levels: map<ShardId, int>)
      requires Valid()
      modifies this`prevAckBySource
      ensures Valid() && Value() == old(Value()).(prevAck := old(prevAckBySource) + levels)
    {
      prevAckBySource := prevAckBySource + levels;
    }
  }

  function Restrict(m: map<ShardId, int>, keys: set<ShardId>): map<ShardId, int> {
    map s | s in m && s in keys :: m[s]
  }

  /** The levels an acknowledgement forwards. */
  function Levels(c: Core, watermark: int): map<ShardId, int> {
    var acks := AckMap(c.log.entries[..Covered(c.log.start, |c.log.entries|, watermark)]);
    if |acks| > 0 then acks else c.prevAck
  }

  /** The state after forwarding to `sent`, and discarding if everything was forwarded. */
  function AfterAck(c: Core, watermark: int, sent: set<ShardId>, completed: bool): Core {
    var count := Covered(c.log.start, |c.log.entries|, watermark);
    var levels := Levels(c, watermark);
    c.(prevAck := c.prevAck + Restrict(levels, sent),
       log := if completed && count > 0 then DropFrom(c.log, count) else c.log)
  }

  /** What a batch leaves in the ring: every task's original ID in order, or its watermark if it has no tasks. */
  lemma RecordMeans(c: Core, source: ShardId, tasks: seq<Task>, high: int)
    requires Aligned(c)
    ensures var d := Record(c, source, Ids(tasks), high);
            var n := |c.log.entries|;
            && d.prevAck == c.prevAck && d.lastSent == c.lastSent && Aligned(d)
            && |d.log.entries| == n + d.next - c.next && d.log.entries[..n] == c.log.entries
            && (tasks == [] ==> d.next == c.next + 1 && d.log.entries[n] == Mapping(source, high))
            && (tasks != [] ==> d.next == c.next + |tasks|)
            && forall i :: 0 <= i < |tasks| ==> d.log.entries[n + i] == Mapping(source, tasks[i].id)
  {
  }

  /**
   What an acknowledgement has to forward: the largest covered task of every shard with one, or,
   when the watermark covers no real entry, the levels forwarded last.
   */
  lemma LevelsForward(c: Core, watermark: int)
    ensures var covered := c.log.entries[..Covered(c.log.start, |c.log.entries|, watermark)];
            if exists e :: e in covered && e.source != NO_SHARD then IsShardMaximum(covered, Levels(c, watermark))
            else Levels(c, watermark) == c.prevAck
  {
    var covered := c.log.entries[..Covered(c.log.start, |c.log.entries|, watermark)];
    AckMapIsShardMaximum(covered);
    var acks := AckMap(covered);
    if e :| e in covered && e.source != NO_SHARD {
      assert e.source in acks;
      assert |acks| > 0;
    }
  }

  /** The state after an acknowledgement, shard by shard and entry by entry. */
  lemma AfterAckMeans(c: Core, watermark: int, sent: seq<ShardId>, completed: bool)
    requires forall s :: s in sent ==> s in Levels(c, watermark)
    ensures var d := AfterAck(c, watermark, Elements(sent), completed);
            var n := Covered(c.log.start, |c.log.entries|, watermark);
            && d.next == c.next && d.lastSent == c.lastSent
            && (!completed ==> d.log == c.log)
            && (completed ==> d.log.entries == c.log.entries[n..] && d.log.start == c.log.start + n)
            && (forall s :: s in d.prevAck <==> s in c.prevAck || s in sent)
            && (forall s :: s in d.prevAck ==>
                  d.prevAck[s] == if s in sent then Levels(c, watermark)[s] else c.prevAck[s])
  {
  }

  lemma RestrictedIsKnown(m: map<ShardId, int>, keys: set<ShardId>)
    ensures m + Restrict(m, keys) == m
  {
  }

  /** The state after the first i values of a batch. */
  ghost function RecordedSoFar(was: Core, source: ShardId, ids: seq<int>, i: nat): Core
    requires i <= |ids|
  {
    if i == 0 then was else Record(was, source, ids[..i], 0)
  }

  lemma RecordOneMore(was: Core, source: ShardId, ids: seq<int>, i: nat)
    requires i < |ids|
    ensures Record(RecordedSoFar(was, source, ids, i), source, [ids[i]], 0) == RecordedSoFar(was, source, ids, i + 1)
  {
  }
}

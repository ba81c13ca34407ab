/**
 The plain-sequence meaning of the proxy ID ring: a log of (source shard, original task ID)
 mappings for consecutive proxy IDs, and the per-shard maximum used to turn a target
 acknowledgement back into source acknowledgements.
 */
module IdLog {
  import opened Shards

  datatype Mapping = Mapping(source: ShardId, task: int)

  const HOLE := Mapping(NO_SHARD, 0)

  /** `entries[i]` is the mapping of proxy ID `start + i`. */
  datatype Log = Log(start: int, entries: seq<Mapping>)

  function AppendTo(log: Log, proxyId: int, m: Mapping): Log {
    Log(if log.entries == [] then proxyId else log.start, log.entries + [m])
  }

  function DropFrom(log: Log, count: int): Log {
    var n := if count <= 0 then 0 else if count > |log.entries| then |log.entries| else count;
    Log(log.start + n, log.entries[n..])
  }

  /** How many entries a watermark covers, its own proxy ID included. */
  function Covered(start: int, size: nat, watermark: int): (n: nat)
    ensures n <= size
    ensures n > 0 ==> start + n - 1 <= watermark
    ensures n < size ==> watermark < start + n
  {
    if size == 0 || watermark < start then 0
    else if watermark - start + 1 > size then size
    else watermark - start + 1
  }

  /** One step of the per-shard maximum; holes are skipped. */
  function Bump(acks: map<ShardId, int>, m: Mapping): map<ShardId, int> {
    if m.source == NO_SHARD then acks
    else if m.source !in acks || m.task > acks[m.source] then acks[m.source := m.task]
    else acks
  }

  function AckMap(entries: seq<Mapping>): map<ShardId, int> {
    if entries == [] then map[]
    else Bump(AckMap(entries[..|entries| - 1]), entries[|entries| - 1])
  }

  /** `acks` maps exactly the real shards of `entries` to the largest task each has there. */
  ghost predicate IsShardMaximum(entries: seq<Mapping>, acks: map<ShardId, int>) {
    && NO_SHARD !in acks
    && (forall i :: 0 <= i < |entries| && entries[i].source != NO_SHARD ==>
          entries[i].source in acks && entries[i].task <= acks[entries[i].source])
    && (forall s :: s in acks ==> Mapping(s, acks[s]) in entries)
  }

  lemma {:induction false} AckMapIsShardMaximum(entries: seq<Mapping>)
    ensures IsShardMaximum(entries, AckMap(entries))
  {
    if entries != [] {
      var front, last := entries[..|entries| - 1], entries[|entries| - 1];
      AckMapIsShardMaximum(front);
      assert entries == front + [last];
    }
  }

  /** The maximum is the only map with that property. */
  lemma ShardMaximumIsUnique(entries: seq<Mapping>, acks: map<ShardId, int>)
    requires IsShardMaximum(entries, acks)
    ensures acks == AckMap(entries)
  {
    AckMapIsShardMaximum(entries);
    var best := AckMap(entries);
    forall s | s in acks
      ensures s in best && acks[s] <= best[s]
    {
      var i :| 0 <= i < |entries| && entries[i] == Mapping(s, acks[s]);
    }
    forall s | s in best
      ensures s in acks && best[s] <= acks[s]
    {
      var i :| 0 <= i < |entries| && entries[i] == Mapping(s, best[s]);
    }
    assert acks.Keys == best.Keys;
  }
}

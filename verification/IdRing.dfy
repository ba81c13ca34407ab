/**
 proxyIDRingBuffer: a growing ring of ID mappings, kept in an array that is doubled when
 full and read with wrap-around. Its abstract value is the plain log of module IdLog.
 */
module IdRing {
  import opened Shards
  import opened IdLog

  /** Array position of the i-th entry. */
  function Slot(head: nat, i: nat, capacity: nat): (p: nat)
    requires head < capacity && i <= capacity
    ensures p < capacity
    ensures p == if head + i < capacity then head + i else head + i - capacity
  {
    WrapOnce(head + i, capacity);
    (head + i) % capacity
  }

  lemma WrapOnce(x: nat, capacity: nat)
    requires 0 < capacity && x < 2 * capacity
    ensures x % capacity == if x < capacity then x else x - capacity
  {
  }

  function Holes(n: nat): (h: seq<Mapping>)
    ensures |h| == n
  {
    seq(n, _ => HOLE)
  }

  /** `n` is `capacity` doubled some number of times. */
  predicate IsDoubling(capacity: nat, n: nat)
    requires capacity >= 1
  {
    n == capacity || (n > capacity && n % 2 == 0 && IsDoubling(capacity, n / 2))
  }

  /** A doubling in the window (d/2, d] of another doubling d is d itself. */
  lemma {:induction false} DoublingsAreSparse(capacity: nat, d: nat, n: nat)
    requires capacity >= 1 && IsDoubling(capacity, d) && IsDoubling(capacity, n)
    requires n <= d && (d == capacity || d / 2 < n)
    ensures n == d
  {
    if n == capacity {
      DoublingAtLeast(capacity, d);
    } else if d != capacity {
      DoublingsAreSparse(capacity, d / 2, n / 2);
    }
  }

  lemma {:induction false} DoublingAtLeast(capacity: nat, d: nat)
    requires capacity >= 1 && IsDoubling(capacity, d)
    ensures d == capacity || d / 2 >= capacity
  {
  }

  /** The gap between the next contiguous proxy ID and the one being appended. */
  function Gap(start: int, size: nat, proxyId: int): (n: nat) {
    if size == 0 || proxyId <= start + size then 0 else proxyId - (start + size)
  }

  /** Capacity after the check at the top of Append. */
  function GrownOnce(capacity: nat, size: nat): (c: nat) {
    if size < capacity then capacity else 2 * capacity
  }

  /**
   Filling the gap leaves the array exactly full, so that the final write, which is not
   preceded by a capacity check, lands on the head.
   */
  predicate Overruns(capacity: nat, start: int, size: nat, proxyId: int)
    requires capacity >= 1
  {
    var gap := Gap(start, size, proxyId);
    gap > 0 && IsDoubling(GrownOnce(capacity, size), size + gap)
  }

  class Ring {
    var entries: array<Mapping>
    var head: nat
    var size: nat
    var maxSize: nat
    var start: int

    ghost predicate Valid()
      reads this, entries
    {
      head < entries.Length && size <= entries.Length && size <= maxSize
    }

    ghost function Contents(): (s: seq<Mapping>)
      requires Valid()
      reads this, entries
      ensures |s| == size
    {
      seq(size, i requires 0 <= i < size && Valid() reads this, entries => entries[Slot(head, i, entries.Length)])
    }

    ghost function Value(): Log
      requires Valid()
      reads this, entries
    {
      Log(start, Contents())
    }

    constructor (capacity: int)
      ensures Valid() && fresh(entries) && size == 0 && maxSize == 0 && start == 0
      ensures entries.Length == if capacity < 1 then 1 else capacity
      ensures Contents() == []
    {
      var c := if capacity < 1 then 1 else capacity;
      entries := new Mapping[c](_ => HOLE);
      head, size, maxSize, start := 0, 0, 0, 0;
    }

    method EnsureCapacity()
      requires Valid()
      modifies this`entries, this`head
      ensures Valid() && Contents() == old(Contents())
      ensures entries == old(entries) || fresh(entries)
      ensures entries.Length == GrownOnce(old(entries.Length), size)
      ensures size < entries.Length
    {
      if size < entries.Length {
        return;
      }
      ghost var was := Contents();
      var newCap := entries.Length * 2;
      var grown := new Mapping[newCap](_ => HOLE);
      for i := 0 to size
        modifies grown
        invariant forall k :: 0 <= k < i ==> grown[k] == was[k]
      {
        grown[i] := entries[Slot(head, i, entries.Length)];
      }
      entries := grown;
      head := 0;
      assert forall i :: 0 <= i < size ==> Slot(0, i, newCap) == i;
    }

    /**
     Write one mapping behind the last, without checking capacity: the write sites of
     Append. On a full array it lands on the head and the ring is no longer one.
     */
    method Push(m: Mapping)
      requires Valid()
      modifies this`size, this`maxSize, entries
      ensures size == old(size) + 1 && head < entries.Length
      ensures Valid() <==> old(size) < entries.Length
      ensures Valid() ==> Contents() == old(Contents()) + [m]
      ensures !Valid() ==> entries[head] == m
      ensures maxSize == if old(maxSize) > size then old(maxSize) else size
    {
      var pos := Slot(head, size, entries.Length);
      entries[pos] := m;
      size := size + 1;
      if size > maxSize {
        maxSize := size;
      }
      if size <= entries.Length {
        assert forall i :: 0 <= i < size - 1 ==> Slot(head, i, entries.Length) != pos;
      }
    }

    /** The hole-filling loop of Append. */
    method FillGap(proxyId: int)
      requires Valid() && 0 < size < entries.Length
      modifies this`entries, this`head, this`size, this`maxSize, entries
      ensures Valid() && (entries == old(entries) || fresh(entries))
      ensures size == old(size) + Gap(start, old(size), proxyId)
      ensures Contents() == old(Contents()) + Holes(Gap(start, old(size), proxyId))
      ensures maxSize == if old(maxSize) > size then old(maxSize) else size
      ensures size == entries.Length <==>
              Gap(start, old(size), proxyId) > 0 && IsDoubling(old(entries.Length), size)
    {
      ghost var gap, size0, cap0 := Gap(start, size, proxyId), size, entries.Length;
      var expected := start + size;
      while expected < proxyId
        invariant Valid() && (entries == old(entries) || fresh(entries))
        invariant expected == start + size && size0 <= size <= size0 + gap
        invariant Contents() == old(Contents()) + Holes(size - size0)
        invariant IsDoubling(cap0, entries.Length)
        invariant entries.Length == cap0 || entries.Length / 2 < size
        invariant size == size0 ==> entries.Length == cap0
        invariant maxSize == if old(maxSize) > size then old(maxSize) else size
        decreases proxyId - expected
      {
        EnsureCapacity();
        Push(HOLE);
        expected := expected + 1;
      }
      if IsDoubling(cap0, size) {
        DoublingsAreSparse(cap0, entries.Length, size);
      }
    }

    /**
     Append as the source writes it, for any proxy ID. A gap is filled with holes; the
     ring survives that exactly when it does not overrun.
     */
    method Append(proxyId: int, source: ShardId, task: int)
      requires Valid()
      modifies this, entries
      ensures entries == old(entries) || fresh(entries)
      ensures Valid() <==> !Overruns(old(entries.Length), old(start), old(size), proxyId)
      ensures start == if old(size) == 0 then proxyId else old(start)
      ensures size == old(size) + Gap(old(start), old(size), proxyId) + 1
      ensures maxSize == if old(maxSize) > size then old(maxSize) else size
      ensures Valid() ==>
                Contents() == old(Contents()) + Holes(Gap(old(start), old(size), proxyId)) + [Mapping(source, task)]
      ensures Valid() && old(size) > 0 && proxyId >= old(start) + old(size) ==>
                && size == proxyId - start + 1 && Contents()[..old(size)] == old(Contents())
                && Contents()[proxyId - start] == Mapping(source, task)
                && forall i :: old(size) <= i < proxyId - start ==> Contents()[i] == Mapping(NO_SHARD, 0)
      ensures !Valid() ==>
                head < entries.Length && size == entries.Length + 1 && entries[head] == Mapping(source, task)
    {
      EnsureCapacity();
      if size == 0 {
        start := proxyId;
      } else {
        FillGap(proxyId);
      }
      Push(Mapping(source, task));
    }

    /** Per-shard maximum of the entries a watermark covers, and how many it covers. */
    method AggregateUpTo(watermark: int) returns (acks: map<ShardId, int>, count: nat)
      requires Valid()
      ensures count == Covered(start, size, watermark)
      ensures acks == AckMap(Contents()[..count])
    {
      acks := map[];
      if size == 0 || watermark < start {
        return acks, 0;
      }
      count := watermark - start + 1;
      if count > size {
        count := size;
      }
      ghost var all := Contents();
      for i := 0 to count
        invariant acks == AckMap(all[..i])
      {
        var m := entries[Slot(head, i, entries.Length)];
        assert all[..i + 1][..i] == all[..i];
        if m.source.cluster == 0 && m.source.shard == 0 {
          continue;
        }
        if m.source !in acks || m.task > acks[m.source] {
          acks := acks[m.source := m.task];
        }
      }
    }

    method Discard(count: int)
      requires Valid()
      modifies this`head, this`size, this`start
      ensures Valid()
      ensures var n := if count <= 0 then 0 else if count > old(size) then old(size) else count;
              Contents() == old(Contents())[n..] && start == old(start) + n
    {
      if count <= 0 {
        return;
      }
      var n := if count > size then size else count;
      ghost var was, head0 := Contents(), head;
      head := Slot(head, n, entries.Length);
      size := size - n;
      start := start + n;
      assert forall i :: 0 <= i < size ==> Slot(head, i, entries.Length) == Slot(head0, n + i, entries.Length);
      assert forall i :: 0 <= i < size ==> Contents()[i] == was[n..][i];
    }
  }

  datatype Op =
    | Append(proxyId: int, source: ShardId, task: int)
    | Aggregate(watermark: int)
    | Discard(count: int)

  datatype Answer = Answer(acks: map<ShardId, int>, count: nat)

  /** An append continues the log it meets, as the source demands of its caller. */
  predicate Continues(log: Log, op: Op) {
    op.Append? ==> log.entries == [] || op.proxyId == log.start + |log.entries|
  }

  function After(log: Log, op: Op): Log {
    match op
    case Append(id, source, task) => AppendTo(log, id, Mapping(source, task))
    case Aggregate(_) => log
    case Discard(n) => DropFrom(log, n)
  }

  /** What a plain sequence answers; only an aggregation answers anything. */
  function AnswerTo(log: Log, op: Op): seq<Answer> {
    if op.Aggregate? then
      var n := Covered(log.start, |log.entries|, op.watermark);
      [Answer(AckMap(log.entries[..n]), n)]
    else []
  }

  ghost predicate Contiguous(log: Log, ops: seq<Op>)
    decreases |ops|
  {
    ops == [] || (Continues(log, ops[0]) && Contiguous(After(log, ops[0]), ops[1..]))
  }

  /** The answers of a run on a plain sequence. */
  ghost function Answers(log: Log, ops: seq<Op>): seq<Answer>
    decreases |ops|
  {
    if ops == [] then [] else AnswerTo(log, ops[0]) + Answers(After(log, ops[0]), ops[1..])
  }

  /** One contiguous operation on the array ring does what it does to the plain sequence. */
  method Do(ring: Ring, op: Op) returns (answer: seq<Answer>)
    requires ring.Valid() && Continues(ring.Value(), op)
    modifies ring, ring.entries
    ensures ring.Valid() && (ring.entries == old(ring.entries) || fresh(ring.entries))
    ensures ring.Value() == After(old(ring.Value()), op)
    ensures answer == AnswerTo(old(ring.Value()), op)
  {
    answer := [];
    match op
    case Append(id, source, task) =>
      ghost var was := ring.Contents();
      ring.Append(id, source, task);
      assert was + Holes(0) + [Mapping(source, task)] == was + [Mapping(source, task)];
    case Aggregate(w) =>
      var acks, n := ring.AggregateUpTo(w);
      answer := [Answer(acks, n)];
    case Discard(n) =>
      ring.Discard(n);
  }

  lemma Unfold(log: Log, ops: seq<Op>, i: nat)
    requires i < |ops|
    ensures Contiguous(log, ops[i..]) <==>
            Continues(log, ops[i]) && Contiguous(After(log, ops[i]), ops[i + 1..])
    ensures Answers(log, ops[i..]) == AnswerTo(log, ops[i]) + Answers(After(log, ops[i]), ops[i + 1..])
  {
    assert ops[i..][0] == ops[i] && ops[i..][1..] == ops[i + 1..];
  }

  lemma Regroup(all: seq<Answer>, before: seq<Answer>, answer: seq<Answer>, rest: seq<Answer>)
    requires all == before + (answer + rest)
    ensures all == (before + answer) + rest
  {
  }

  /** Any run of contiguous operations on the array ring answers like the plain sequence. */
  method RunRing(capacity: int, ops: seq<Op>) returns (answers: seq<Answer>)
    requires Contiguous(Log(0, []), ops)
    ensures answers == Answers(Log(0, []), ops)
  {
    var ring := new Ring(capacity);
    ghost var all := Answers(Log(0, []), ops);
    ghost var log := ring.Value();
    answers := [];
    assert ops[0..] == ops;
    for i := 0 to |ops|
      invariant ring.Valid() && fresh(ring) && fresh(ring.entries) && ring.Value() == log
      invariant Contiguous(log, ops[i..])
      invariant all == answers + Answers(log, ops[i..])
    {
      Unfold(log, ops, i);
      var answer := Do(ring, ops[i]);
      Regroup(all, answers, answer, Answers(After(log, ops[i]), ops[i + 1..]));
      answers, log := answers + answer, After(log, ops[i]);
    }
  }
}

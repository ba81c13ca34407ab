/**
 The retry loop that hands one item per shard to the shard's owner, used for routed
 batches and for forwarded acknowledgements. Whether an owner accepts is up to the
 outside world: `rounds[r]` is the set of shards that would accept in round r, and a
 shutdown is seen at the start of the round after the last one.
 */
module Delivery {
  import opened Shards

  /** Some round accepts the shard. */
  ghost predicate Accepted(rounds: seq<set<ShardId>>, shard: ShardId) {
    exists r :: 0 <= r < |rounds| && shard in rounds[r]
  }

  ghost predicate NoRepeats<T>(s: seq<T>) {
    forall i, j :: 0 <= i < j < |s| ==> s[i] != s[j]
  }

  /**
   One pass over the unsent shards, in whatever order the map is walked. Every shard that
   accepts is sent once and counted once.
   */
  method SendRound<V>(items: map<ShardId, V>, accepting: set<ShardId>, sent: seq<ShardId>, remaining: nat)
    returns (sent': seq<ShardId>, remaining': nat)
    requires NoRepeats(sent) && forall s :: s in sent ==> s in items
    requires remaining + |sent| == |items|
    ensures NoRepeats(sent') && sent <= sent'
    ensures forall s :: s in sent' <==> s in sent || (s in items && s in accepting)
    ensures remaining' + |sent'| == |items|
  {
    sent', remaining' := sent, remaining;
    var unvisited := items.Keys;
    while unvisited != {}
      invariant unvisited <= items.Keys
      invariant NoRepeats(sent') && sent <= sent'
      invariant forall s :: s in sent' <==> s in sent || (s in items && s in accepting && s !in unvisited)
      invariant remaining' + |sent'| == |items|
      decreases |unvisited|
    {
      var s :| s in unvisited;
      unvisited := unvisited - {s};
      if s !in sent' && s in accepting {
        UnsentLeavesRoom(items, sent', s);
        sent' := sent' + [s];
        remaining' := remaining' - 1;
      }
    }
  }

  function Elements<T>(s: seq<T>): set<T> {
    set x | x in s
  }

  lemma {:induction false} DistinctLength<T>(s: seq<T>)
    requires NoRepeats(s)
    ensures |Elements(s)| == |s|
  {
    if s != [] {
      var front, last := s[..|s| - 1], s[|s| - 1];
      DistinctLength(front);
      assert Elements(s) == Elements(front) + {last};
      assert last !in front;
    }
  }

  lemma UnsentLeavesRoom<V>(items: map<ShardId, V>, sent: seq<ShardId>, s: ShardId)
    requires NoRepeats(sent) && (forall t :: t in sent ==> t in items) && s in items && s !in sent
    ensures |sent| < |items|
  {
    DistinctLength(sent);
    SubsetSize(Elements(sent), items.Keys - {s});
  }

  lemma {:induction false} SubsetSize<T>(a: set<T>, b: set<T>)
    requires a <= b
    ensures |a| <= |b|
    ensures |a| == |b| ==> a == b
  {
    if x :| x in a {
      SubsetSize(a - {x}, b - {x});
      assert a == (a - {x}) + {x} && b == (b - {x}) + {x};
    }
  }

  /**
   Retry over the whole set until everything is sent or a shutdown is seen. The shards
   sent are exactly those some round accepted, each once; the loop completes exactly when
   that is all of them.
   */
  method DeliverAll<V>(items: map<ShardId, V>, rounds: seq<set<ShardId>>)
    returns (sent: seq<ShardId>, completed: bool)
    ensures NoRepeats(sent)
    ensures forall s :: s in sent <==> s in items && Accepted(rounds, s)
    ensures completed <==> forall s :: s in items ==> Accepted(rounds, s)
    ensures completed <==> |sent| == |items|
  {
    sent := [];
    var remaining := |items|;
    var round := 0;
    while remaining > 0 && round < |rounds|
      invariant 0 <= round <= |rounds|
      invariant NoRepeats(sent)
      invariant forall s :: s in sent <==> s in items && Accepted(rounds[..round], s)
      invariant remaining + |sent| == |items|
    {
      sent, remaining := SendRound(items, rounds[round], sent, remaining);
      assert rounds[..round + 1] == rounds[..round] + [rounds[round]];
      round := round + 1;
    }
    completed := remaining == 0;
    DistinctLength(sent);
    SubsetSize(Elements(sent), items.Keys);
    if completed {
      assert forall s :: s in items ==> s in Elements(sent);
    } else {
      assert rounds[..round] == rounds;
      assert Elements(sent) != items.Keys;
    }
  }
}

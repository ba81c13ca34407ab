/**
 intraProxyManager: the streams kept to every peer proxy, and the reconciler that opens
 the receivers the ownership view wants and prunes every stream it does not want. Closing
 a key drops both directions at once.
 */
module PeerStreams {
  import opened Shards

  datatype Key = Key(target: ShardId, source: ShardId)

  /** Stream handles are opaque; a receiver's `open` says whether its stream is established. */
  datatype Receiver = Receiver(handle: int, open: bool)

  /** peerState: its three maps. */
  datatype Streams = Streams(receivers: map<Key, Receiver>, shutdowns: map<Key, int>, senders: map<Key, int>)

  const NO_STREAMS := Streams(map[], map[], map[])

  /** A shutdown handle exists exactly for every receiver, and it is that receiver's own. */
  predicate Paired(p: Streams) {
    p.receivers.Keys == p.shutdowns.Keys && forall k :: k in p.receivers ==> p.shutdowns[k] == p.receivers[k].handle
  }

  // ---------- what the ownership view wants ----------

  datatype View = View(local: set<ShardId>, remote: map<string, set<ShardId>>)

  ghost predicate WantsReceiver(v: View, k: Key) {
    k.target.cluster != k.source.cluster && k.target in v.local && exists p :: p in v.remote && k.source in v.remote[p]
  }

  ghost predicate WantsSender(v: View, k: Key) {
    WantsReceiver(v, Key(k.source, k.target))
  }

  /** A local shard is nobody's remote shard. */
  ghost predicate Disjoint(v: View) {
    forall p :: p in v.remote ==> v.local !! v.remote[p]
  }

  /** With a consistent view, no key is wanted in both directions. */
  lemma DirectionsAreDisjoint(v: View, k: Key)
    requires Disjoint(v)
    ensures !(WantsReceiver(v, k) && WantsSender(v, k))
  {
  }

  /** The nested loops over local shards, peers and their shards, for either direction. */
  method BuildDesired(v: View, senders: bool) returns (desired: map<Key, string>)
    ensures forall k :: k in desired <==> if senders then WantsSender(v, k) else WantsReceiver(v, k)
    ensures forall k :: k in desired ==>
              desired[k] in v.remote && (if senders then k.target else k.source) in v.remote[desired[k]]
    ensures forall l, p, r :: l in v.local && p in v.remote && r in v.remote[p] && l.cluster != r.cluster ==>
              (if senders then Key(r, l) else Key(l, r)) in desired
    ensures forall k :: k in desired ==>
              && k.target.cluster != k.source.cluster && (if senders then k.source else k.target) in v.local
  {
    desired := map[];
    var ls := v.local;
    while ls != {}
      invariant ls <= v.local
      invariant forall k :: k in desired <==>
                  && (if senders then WantsSender(v, k) else WantsReceiver(v, k))
                  && (if senders then k.source else k.target) !in ls
      invariant forall k :: k in desired ==>
                  desired[k] in v.remote && (if senders then k.target else k.source) in v.remote[desired[k]]
      decreases |ls|
    {
      var l :| l in ls;
      ls := ls - {l};
      desired := AddLocal(v, senders, l, desired);
    }
  }

  ghost predicate Joins(v: View, senders: bool, l: ShardId, peers: set<string>, k: Key) {
    var mine, theirs := if senders then k.source else k.target, if senders then k.target else k.source;
    mine == l && l.cluster != theirs.cluster && exists p :: p in peers && p in v.remote && theirs in v.remote[p]
  }

  lemma JoinsOneMore(v: View, senders: bool, l: ShardId, left: set<string>, p: string)
    requires p in left && left <= v.remote.Keys
    ensures forall k :: Joins(v, senders, l, v.remote.Keys - (left - {p}), k) <==>
                        Joins(v, senders, l, v.remote.Keys - left, k) || Joins(v, senders, l, {p}, k)
  {
  }

  /** The keys joining one local shard to the shards of every peer. */
  method AddLocal(v: View, senders: bool, l: ShardId, before: map<Key, string>) returns (desired: map<Key, string>)
    requires forall k :: k in before ==>
               before[k] in v.remote && (if senders then k.target else k.source) in v.remote[before[k]]
    ensures forall k :: k in desired <==> k in before || Joins(v, senders, l, v.remote.Keys, k)
    ensures forall k :: k in desired ==>
              desired[k] in v.remote && (if senders then k.target else k.source) in v.remote[desired[k]]
  {
    desired := before;
    var peers := v.remote.Keys;
    while peers != {}
      invariant peers <= v.remote.Keys
      invariant forall k :: k in desired <==> k in before || Joins(v, senders, l, v.remote.Keys - peers, k)
      invariant forall k :: k in desired ==>
                  desired[k] in v.remote && (if senders then k.target else k.source) in v.remote[desired[k]]
      decreases |peers|
    {
      var p :| p in peers;
      var next := AddPeer(v, senders, l, p, desired);
      JoinsOneMore(v, senders, l, peers, p);
      desired := next;
      peers := peers - {p};
    }
  }

  method AddPeer(v: View, senders: bool, l: ShardId, p: string, before: map<Key, string>)
    returns (desired: map<Key, string>)
    requires p in v.remote
    requires forall k :: k in before ==>
               before[k] in v.remote && (if senders then k.target else k.source) in v.remote[before[k]]
    ensures forall k :: k in desired <==> k in before || Joins(v, senders, l, {p}, k)
    ensures forall k :: k in desired ==>
              desired[k] in v.remote && (if senders then k.target else k.source) in v.remote[desired[k]]
  {
    desired := before;
    var rs := v.remote[p];
    while rs != {}
      invariant rs <= v.remote[p]
      invariant forall k :: k in desired <==>
                  k in before || (Joins(v, senders, l, {p}, k) && (if senders then k.target else k.source) !in rs)
      invariant forall k :: k in desired ==>
                  desired[k] in v.remote && (if senders then k.target else k.source) in v.remote[desired[k]]
      decreases |rs|
    {
      var r :| r in rs;
      rs := rs - {r};
      if l.cluster != r.cluster {
        desired := desired[(if senders then Key(r, l) else Key(l, r)) := p];
      }
    }
  }

  // ---------- closing and pruning ----------

  function CloseKey(p: Streams, k: Key): Streams {
    Streams(p.receivers - {k}, p.shutdowns - {k}, p.senders - {k})
  }

  function CloseAll(p: Streams, ks: set<Key>): Streams {
    Streams(p.receivers - ks, p.shutdowns - ks, p.senders - ks)
  }

  /** The prune of one peer: undesired receivers first, then undesired senders. */
  function Pruned(p: Streams, wantedReceivers: set<Key>, wantedSenders: set<Key>): Streams {
    var q := CloseAll(p, p.receivers.Keys - wantedReceivers);
    CloseAll(q, q.senders.Keys - wantedSenders)
  }

  /** Exactly which streams survive, although closing a key drops both directions. */
  lemma PruneSurvivors(p: Streams, wantedReceivers: set<Key>, wantedSenders: set<Key>)
    ensures var q := Pruned(p, wantedReceivers, wantedSenders);
            && q.receivers.Keys == (p.receivers.Keys * wantedReceivers) - (p.senders.Keys - wantedSenders)
            && q.senders.Keys == (p.senders.Keys * wantedSenders) - (p.receivers.Keys - wantedReceivers)
            && (forall k :: k in q.receivers ==> q.receivers[k] == p.receivers[k])
            && (forall k :: k in q.senders ==> q.senders[k] == p.senders[k])
            && (Paired(p) ==> Paired(q))
  {
  }

  /** A wanted receiver is lost exactly when its key is also an unwanted sender, and the converse. */
  lemma WantedSurviveIff(p: Streams, wantedReceivers: set<Key>, wantedSenders: set<Key>, k: Key)
    ensures var q := Pruned(p, wantedReceivers, wantedSenders);
            && (k in p.receivers && k in wantedReceivers ==>
                  (k in q.receivers <==> k !in p.senders || k in wantedSenders))
            && (k in p.senders && k in wantedSenders ==>
                  (k in q.senders <==> k !in p.receivers || k in wantedReceivers))
  {
  }

  // ---------- the manager ----------

  /** The keys whose receivers the reconciler opens at peer `p`. */
  ghost function Opening(self: string, desired: map<Key, string>, dialable: set<string>, p: string): set<Key> {
    set k | k in desired && desired[k] == p && p in dialable && p != self
  }

  function StreamsAt(peers: map<string, Streams>, p: string): Streams {
    if p in peers then peers[p] else NO_STREAMS
  }

  predicate Established(peers: map<string, Streams>, p: string, k: Key) {
    p in peers && k in peers[p].receivers && peers[p].receivers[k].open
  }

  predicate Registered(peers: map<string, Streams>, p: string, k: Key, handle: int) {
    p in peers && k in peers[p].receivers && peers[p].receivers[k].handle == handle
  }

  function Installed(peers: map<string, Streams>, p: string, k: Key, handle: int): map<string, Streams> {
    var was := StreamsAt(peers, p);
    peers[p := was.(receivers := was.receivers[k := Receiver(handle, false)], shutdowns := was.shutdowns[k := handle])]
  }

  /** From `was`, the receivers in `opening` have been added, except those still left to do. */
  ghost predicate Ensured(was: Streams, now: Streams, opening: set<Key>, left: set<Key>) {
    now.senders == was.senders && now.receivers.Keys == was.receivers.Keys + (opening - left)
  }

  ghost predicate AllEnsured(
    self: string, was: map<string, Streams>, now: map<string, Streams>,
    desired: map<Key, string>, dialable: set<string>, left: set<Key>)
  {
    forall p :: Ensured(StreamsAt(was, p), StreamsAt(now, p), Opening(self, desired, dialable, p), left)
  }

  lemma OneMoreEnsured(
    self: string, was: map<string, Streams>, now: map<string, Streams>,
    desired: map<Key, string>, dialable: set<string>, left: set<Key>, k: Key, handle: int)
    requires AllEnsured(self, was, now, desired, dialable, left) && k in left && k in desired
    ensures var p := desired[k];
            var skip := p == self || p !in dialable || Established(now, p, k);
            var next := if skip then now else Installed(now, p, k, handle);
            AllEnsured(self, was, next, desired, dialable, left - {k})
  {
    var p := desired[k];
    var skip := p == self || p !in dialable || Established(now, p, k);
    var next := if skip then now else Installed(now, p, k, handle);
    forall q
      ensures Ensured(StreamsAt(was, q), StreamsAt(next, q), Opening(self, desired, dialable, q), left - {k})
    {
      var opening := Opening(self, desired, dialable, q);
      assert Ensured(StreamsAt(was, q), StreamsAt(now, q), opening, left);
      if k in opening {
        assert opening - (left - {k}) == (opening - left) + {k};
      } else {
        assert opening - (left - {k}) == opening - left;
      }
    }
  }

  /** Closing one more key. */
  lemma CloseOneMore(p: Streams, ks: set<Key>, k: Key)
    ensures CloseKey(CloseAll(p, ks), k) == CloseAll(p, ks + {k})
    ensures CloseAll(p, {}) == p
  {
  }

  /**
   The streams left at one peer by a reconciliation that opened `opening` there: exactly the
   wanted ones among the old and the opened, less those whose key was also an unwanted stream
   of the other direction.
   */
  ghost predicate Survived(v: View, opening: set<Key>, was: Streams, now: Streams) {
    && (forall k :: k in now.receivers <==>
          (k in was.receivers || k in opening) && WantsReceiver(v, k) && (k in was.senders ==> WantsSender(v, k)))
    && (forall k :: k in now.senders <==>
          k in was.senders && WantsSender(v, k) && (k in was.receivers ==> WantsReceiver(v, k)))
  }

  /** A peer chosen for every wanted receiver, among those that have its source shard. */
  ghost predicate IsChoice(v: View, desired: map<Key, string>) {
    && (forall k :: k in desired <==> WantsReceiver(v, k))
    && (forall k :: k in desired ==> desired[k] in v.remote && k.source in v.remote[desired[k]])
  }

  lemma PrunedSurvive(v: View, opening: set<Key>, was: Streams, mid: Streams, receivers: set<Key>, senders: set<Key>)
    requires Ensured(was, mid, opening, {}) && forall k :: k in opening ==> WantsReceiver(v, k)
    requires forall k :: (k in receivers <==> WantsReceiver(v, k)) && (k in senders <==> WantsSender(v, k))
    ensures Survived(v, opening, was, Pruned(mid, receivers, senders))
  {
    PruneSurvivors(mid, receivers, senders);
  }

  class PeerManager {
    const self: string
    var peers: map<string, Streams>
    var nextHandle: int

    ghost predicate Valid()
      reads this
    {
      forall p :: p in peers ==> Paired(peers[p])
    }

    constructor (self: string)
      ensures Valid() && peers == map[] && nextHandle == 0 && this.self == self
    {
      this.self := self;
      peers, nextHandle := map[], 0;
    }

    /** RegisterSender: cross-cluster streams only. */
    method RegisterSender(p: string, k: Key, handle: int)
      requires Valid()
      modifies this`peers
      ensures Valid()
      ensures peers == if k.target.cluster == k.source.cluster then old(peers)
                       else var was := StreamsAt(old(peers), p);
                            old(peers)[p := was.(senders := was.senders[k := handle])]
    {
      if k.target.cluster == k.source.cluster {
        return;
      }
      var was := StreamsAt(peers, p);
      peers := peers[p := was.(senders := was.senders[k := handle])];
    }

    method UnregisterSender(p: string, k: Key)
      requires Valid()
      modifies this`peers
      ensures Valid()
      ensures peers == if p !in old(peers) then old(peers)
                       else var was := old(peers)[p]; old(peers)[p := was.(senders := was.senders - {k})]
    {
      if p in peers {
        peers := peers[p := peers[p].(senders := peers[p].senders - {k})];
      }
    }

    /** ensureStream: keep an established receiver, else install a new one with its shutdown handle. */
    method EnsureStream(p: string, k: Key, dialable: bool)
      requires Valid()
      modifies this`peers, this`nextHandle
      ensures Valid()
      ensures if Established(old(peers), p, k) || !dialable
              then peers == old(peers) && nextHandle == old(nextHandle)
              else peers == Installed(old(peers), p, k, old(nextHandle)) && nextHandle == old(nextHandle) + 1
    {
      if p in peers && k in peers[p].receivers && peers[p].receivers[k].open {
        return;
      }
      if !dialable {
        return;
      }
      peers := Installed(peers, p, k, nextHandle);
      nextHandle := nextHandle + 1;
    }

    /** A receiver's goroutine has opened its stream; a receiver no longer registered only changes itself. */
    method ReceiverOpened(p: string, k: Key, handle: int)
      requires Valid()
      modifies this`peers
      ensures Valid()
      ensures peers == if !Registered(old(peers), p, k, handle) then old(peers)
                       else var was := old(peers)[p];
                            old(peers)[p := was.(receivers := was.receivers[k := Receiver(handle, true)])]
    {
      if p in peers && k in peers[p].receivers && peers[p].receivers[k].handle == handle {
        peers := peers[p := peers[p].(receivers := peers[p].receivers[k := Receiver(handle, true)])];
      }
    }

    /** A receiver's goroutine has ended: it takes itself out. */
    method ReceiverEnded(p: string, k: Key)
      requires Valid()
      modifies this`peers
      ensures Valid()
      ensures peers == if p !in old(peers) then old(peers)
                       else var was := old(peers)[p];
                            old(peers)[p := was.(receivers := was.receivers - {k}, shutdowns := was.shutdowns - {k})]
    {
      if p in peers {
        peers := peers[p := peers[p].(receivers := peers[p].receivers - {k}, shutdowns := peers[p].shutdowns - {k})];
      }
    }

    /** closePeerShardLocked. */
    method CloseShard(p: string, k: Key)
      requires Valid() && p in peers
      modifies this`peers
      ensures Valid() && peers == old(peers)[p := CloseKey(old(peers)[p], k)]
    {
      var ps := peers[p];
      if k in ps.shutdowns {
        ps := ps.(shutdowns := ps.shutdowns - {k});
      }
      if k in ps.receivers {
        ps := ps.(receivers := ps.receivers - {k});
      }
      assert ps.shutdowns == old(peers)[p].shutdowns - {k} && ps.receivers == old(peers)[p].receivers - {k};
      peers := peers[p := ps.(senders := ps.senders - {k})];
    }

    method CloseEach(p: string, keys: set<Key>)
      requires Valid() && p in peers
      modifies this`peers
      ensures Valid() && peers == old(peers)[p := CloseAll(old(peers)[p], keys)]
    {
      var left := keys;
      CloseOneMore(peers[p], {}, Key(NO_SHARD, NO_SHARD));
      assert keys - left == {};
      while left != {}
        invariant Valid() && left <= keys && p in peers
        invariant peers == old(peers)[p := CloseAll(old(peers)[p], keys - left)]
        decreases |left|
      {
        var k :| k in left;
        CloseOneMore(old(peers)[p], keys - left, k);
        CloseShard(p, k);
        assert keys - (left - {k}) == (keys - left) + {k};
        left := left - {k};
      }
      assert keys - left == keys;
    }

    /** The check of one peer. */
    method Check(p: string, desiredReceivers: map<Key, string>, desiredSenders: map<Key, string>)
      requires Valid() && p in peers
      modifies this`peers
      ensures Valid() && peers == old(peers)[p := Pruned(old(peers)[p], desiredReceivers.Keys, desiredSenders.Keys)]
    {
      CloseEach(p, peers[p].receivers.Keys - desiredReceivers.Keys);
      CloseEach(p, peers[p].senders.Keys - desiredSenders.Keys);
    }

    method PruneAll(desiredReceivers: map<Key, string>, desiredSenders: map<Key, string>)
      requires Valid()
      modifies this`peers
      ensures Valid() && peers.Keys == old(peers.Keys)
      ensures forall p :: p in peers ==> peers[p] == Pruned(old(peers)[p], desiredReceivers.Keys, desiredSenders.Keys)
    {
      var left := peers.Keys;
      while left != {}
        invariant Valid() && peers.Keys == old(peers.Keys) && left <= peers.Keys
        invariant forall p :: p in left ==> peers[p] == old(peers)[p]
        invariant forall p :: p in peers && p !in left ==>
                    peers[p] == Pruned(old(peers)[p], desiredReceivers.Keys, desiredSenders.Keys)
        decreases |left|
      {
        var p :| p in left;
        Check(p, desiredReceivers, desiredSenders);
        left := left - {p};
      }
    }

    /** EnsureReceiverForPeerShard for every wanted receiver; a peer may be impossible to dial. */
    method EnsureAll(v: View, desired: map<Key, string>, dialable: set<string>)
      requires Valid()
      requires forall k :: k in desired ==> WantsReceiver(v, k)
      modifies this`peers, this`nextHandle
      ensures Valid() && AllEnsured(self, old(peers), peers, desired, dialable, {})
    {
      var left := desired.Keys;
      while left != {}
        invariant Valid() && left <= desired.Keys
        invariant AllEnsured(self, old(peers), peers, desired, dialable, left)
        decreases |left|
      {
        var k :| k in left;
        var p := desired[k];
        assert WantsReceiver(v, k);
        OneMoreEnsured(self, old(peers), peers, desired, dialable, left, k, nextHandle);
        if k.target.cluster != k.source.cluster && p != self && (k.target in v.local || k.source in v.local) {
          EnsureStream(p, k, p in dialable);
        }
        left := left - {k};
      }
    }

    /**
     One reconciliation over all peers. `desired` is the peer it chose for each wanted receiver;
     what is left at every peer is then determined.
     */
    method Reconcile(v: View, dialable: set<string>) returns (ghost desired: map<Key, string>)
      requires Valid()
      modifies this`peers, this`nextHandle
      ensures Valid() && IsChoice(v, desired)
      ensures forall p ::
                Survived(v, Opening(self, desired, dialable, p), StreamsAt(old(peers), p), StreamsAt(peers, p))
    {
      var desiredReceivers := BuildDesired(v, false);
      var desiredSenders := BuildDesired(v, true);
      desired := desiredReceivers;
      EnsureAll(v, desiredReceivers, dialable);
      ghost var mid := peers;
      PruneAll(desiredReceivers, desiredSenders);
      forall p
        ensures Survived(v, Opening(self, desired, dialable, p), StreamsAt(old(peers), p), StreamsAt(peers, p))
      {
        assert Ensured(StreamsAt(old(peers), p), StreamsAt(mid, p), Opening(self, desired, dialable, p), {});
        PrunedSurvive(v, Opening(self, desired, dialable, p), StreamsAt(old(peers), p), StreamsAt(mid, p),
                      desiredReceivers.Keys, desiredSenders.Keys);
        assert StreamsAt(peers, p) == Pruned(StreamsAt(mid, p), desiredReceivers.Keys, desiredSenders.Keys);
      }
    }

    /** Reconciliation for one named peer, with the view of that peer only: the others keep their streams. */
    method ReconcilePeer(v: View, name: string, dialable: set<string>) returns (ghost desired: map<Key, string>)
      requires Valid() && v.remote.Keys <= {name}
      modifies this`peers, this`nextHandle
      ensures Valid() && IsChoice(v, desired)
      ensures Survived(v, Opening(self, desired, dialable, name), StreamsAt(old(peers), name), StreamsAt(peers, name))
      ensures forall q :: q != name ==>
                && StreamsAt(peers, q).receivers.Keys == StreamsAt(old(peers), q).receivers.Keys
                && StreamsAt(peers, q).senders == StreamsAt(old(peers), q).senders
    {
      var desiredReceivers := BuildDesired(v, false);
      var desiredSenders := BuildDesired(v, true);
      desired := desiredReceivers;
      EnsureAll(v, desiredReceivers, dialable);
      ghost var mid := peers;
      if name in peers {
        Check(name, desiredReceivers, desiredSenders);
      }
      assert Ensured(StreamsAt(old(peers), name), StreamsAt(mid, name), Opening(self, desired, dialable, name), {});
      PrunedSurvive(v, Opening(self, desired, dialable, name), StreamsAt(old(peers), name), StreamsAt(mid, name),
                    desiredReceivers.Keys, desiredSenders.Keys);
      forall q | q != name
        ensures StreamsAt(peers, q).receivers.Keys == StreamsAt(old(peers), q).receivers.Keys
        ensures StreamsAt(peers, q).senders == StreamsAt(old(peers), q).senders
      {
        assert Ensured(StreamsAt(old(peers), q), StreamsAt(mid, q), Opening(self, desired, dialable, q), {});
        assert Opening(self, desired, dialable, q) == {};
      }
    }
  }
}

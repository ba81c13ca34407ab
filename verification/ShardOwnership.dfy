/**
 Shard ownership across proxy nodes. A node registers a shard with a timestamp and then
 broadcasts the registration with a later one; a node that hears of a registration newer
 than its own gives the shard up. Every critical section is one step, messages are
 delivered in any order, and a give-up deletes twice, the second time unconditionally.
 */
module ShardOwnership {
  import opened Shards

  type Node = int

  // ---------- one node ----------

  type Registry = map<ShardId, int>

  /** Delete a registration if it is still the expected one. */
  function DropIf(m: Registry, shard: ShardId, created: int): Registry {
    if shard in m && m[shard] == created then m - {shard} else m
  }

  class ShardManager {
    var localShards: Registry

    constructor ()
      ensures localShards == map[]
    {
      localShards := map[];
    }

    /** addLocalShard; the clock reading comes in as `now`. */
    method AddLocalShard(shard: ShardId, now: int) returns (registeredAt: int)
      modifies this
      ensures registeredAt == now && localShards == old(localShards)[shard := now]
    {
      localShards := localShards[shard := now];
      registeredAt := now;
    }

    /** The first critical section of UnregisterShard; the rest runs only if it deleted. */
    method UnregisterFirst(shard: ShardId, expected: int) returns (deleted: bool)
      modifies this
      ensures deleted <==> shard in old(localShards) && old(localShards)[shard] == expected
      ensures localShards == DropIf(old(localShards), shard, expected)
      ensures deleted ==> localShards == old(localShards) - {shard}
      ensures !deleted ==> localShards == old(localShards)
    {
      deleted := shard in localShards && localShards[shard] == expected;
      if deleted {
        localShards := localShards - {shard};
      }
    }

    /** The second, unconditional delete. */
    method RemoveLocalShard(shard: ShardId)
      modifies this
      ensures localShards == old(localShards) - {shard}
    {
      localShards := localShards - {shard};
    }

    /** What NotifyMsg decides on a register message: the registration to give up, if any. */
    method NotifyRegister(shard: ShardId, stamp: int) returns (evict: bool, created: int)
      ensures evict <==> shard in localShards && localShards[shard] < stamp
      ensures evict ==> created == localShards[shard]
    {
      evict, created := false, 0;
      if shard in localShards && localShards[shard] < stamp {
        evict, created := true, localShards[shard];
      }
    }
  }

  // ---------- the cluster ----------

  datatype Registration = Registration(node: Node, shard: ShardId, created: int)

  /** A register message; `from` is the number of the registration it announces. */
  datatype Message = Message(to: Node, shard: ShardId, stamp: int, from: nat)

  datatype Held = Held(node: Node, shard: ShardId)

  datatype State = State(
    local: map<Node, Registry>,
    made: seq<Registration>,      // every registration, in the order they were made
    latest: map<Held, nat>,       // number of a node's latest registration of a shard
    unannounced: set<nat>,        // numbers of registrations not broadcast yet
    network: set<Message>,        // register messages on their way
    evicting: set<Registration>,  // read as older than a message, not yet unregistered
    removing: multiset<Held>)     // first delete done, second one pending

  datatype Action =
    | Register(node: Node, shard: ShardId, now: int)
    | Broadcast(number: nat, now: int)
    | Deliver(message: Message)
    | Unregister(from: Registration)
    | SecondDelete(held: Held)

  predicate Enabled(s: State, a: Action) {
    match a
    case Register(n, _, _) => n in s.local
    case Broadcast(i, _) => i in s.unannounced && i < |s.made|
    case Deliver(m) => m in s.network && m.to in s.local
    case Unregister(r) => r.node in s.local
    case SecondDelete(h) => h in s.removing && h.node in s.local
  }

  function Announce(s: State, i: nat, now: int): set<Message>
    requires i < |s.made|
  {
    set n | n in s.local && n != s.made[i].node :: Message(n, s.made[i].shard, now, i)
  }

  /** NotifyMsg's read: the local registration, if it is older than the message. */
  function ReadAsOlder(s: State, m: Message): set<Registration>
    requires m.to in s.local
  {
    if m.shard in s.local[m.to] && s.local[m.to][m.shard] < m.stamp
    then {Registration(m.to, m.shard, s.local[m.to][m.shard])} else {}
  }

  function Next(s: State, a: Action): State
    requires Enabled(s, a)
  {
    match a
    case Register(n, shard, now) =>
      s.(local := s.local[n := s.local[n][shard := now]], made := s.made + [Registration(n, shard, now)],
         latest := s.latest[Held(n, shard) := |s.made|], unannounced := s.unannounced + {|s.made|})
    case Broadcast(i, now) =>
      s.(unannounced := s.unannounced - {i}, network := s.network + Announce(s, i, now))
    case Deliver(m) =>
      s.(network := s.network - {m}, evicting := s.evicting + ReadAsOlder(s, m))
    case Unregister(r) =>
      var m := s.local[r.node];
      s.(local := s.local[r.node := DropIf(m, r.shard, r.created)],
         evicting := s.evicting - {r},
         removing := if DropIf(m, r.shard, r.created) != m then s.removing + multiset{Held(r.node, r.shard)}
                     else s.removing)
    case SecondDelete(h) =>
      s.(local := s.local[h.node := s.local[h.node] - {h.shard}], removing := s.removing - multiset{h})
  }

  function Initial(nodes: set<Node>): State {
    State(map n | n in nodes :: map[], [], map[], {}, {}, {}, multiset{})
  }

  /** A stretch of a run, from any state. */
  ghost predicate Steps(states: seq<State>, actions: seq<Action>) {
    && |states| == |actions| + 1
    && forall i :: 0 <= i < |actions| ==> Enabled(states[i], actions[i]) && states[i + 1] == Next(states[i], actions[i])
  }

  ghost predicate IsRun(states: seq<State>, actions: seq<Action>) {
    Steps(states, actions) && exists nodes :: states[0] == Initial(nodes)
  }

  ghost predicate Owns(s: State, n: Node, shard: ShardId) {
    n in s.local && shard in s.local[n]
  }

  /** Every broadcast has been made, delivered and acted on. */
  predicate Quiescent(s: State) {
    s.unannounced == {} && s.network == {} && s.evicting == {}
  }

  // ---------- invariant ----------

  /** A registry entry is the node's latest registration of the shard. */
  ghost predicate Numbered(s: State) {
    && (forall n, shard :: Owns(s, n, shard) ==> Held(n, shard) in s.latest)
    && (forall h :: h in s.latest ==>
          s.latest[h] < |s.made| && s.made[s.latest[h]].node == h.node && s.made[s.latest[h]].shard == h.shard)
    && (forall n, shard :: Owns(s, n, shard) ==> s.made[s.latest[Held(n, shard)]].created == s.local[n][shard])
  }

  /** Node n holds the shard of registration i by an earlier registration than that one. */
  ghost predicate Outdated(s: State, n: Node, i: nat)
    requires i < |s.made|
  {
    var shard := s.made[i].shard;
    n != s.made[i].node && Owns(s, n, shard) && Held(n, shard) in s.latest && s.latest[Held(n, shard)] < i
  }

  /** Something in flight will still make `n` give up its registration of `shard`. */
  ghost predicate Doomed(s: State, n: Node, shard: ShardId, created: int, rival: nat) {
    || rival in s.unannounced
    || (exists m :: m in s.network && m.to == n && m.shard == shard && created < m.stamp)
    || Registration(n, shard, created) in s.evicting
  }

  /** A registration older than one another node made is doomed. */
  ghost predicate OldOnesDoomed(s: State) {
    forall n, i :: 0 <= i < |s.made| && Outdated(s, n, i) ==>
      Doomed(s, n, s.made[i].shard, s.local[n][s.made[i].shard], i)
  }

  ghost predicate Inv(s: State) {
    Numbered(s) && OldOnesDoomed(s)
  }

  /**
   What a broadcast's time stamp must exceed: the creation time of every earlier registration by
   which another node still holds the shard. Nothing is asked of other shards, of registration
   times, or of broadcasts among themselves.
   */
  ghost predicate Ahead(s: State, a: Action)
    requires Enabled(s, a)
  {
    a.Broadcast? ==> forall n :: Outdated(s, n, a.number) ==> s.local[n][s.made[a.number].shard] < a.now
  }

  ghost predicate AllAhead(states: seq<State>, actions: seq<Action>, k: nat)
    requires Steps(states, actions) && k <= |actions|
  {
    forall i :: 0 <= i < k ==> Ahead(states[i], actions[i])
  }

  lemma NumberedKept(s: State, a: Action)
    requires Numbered(s) && Enabled(s, a)
    ensures Numbered(Next(s, a))
  {
  }

  /** A holder that is outdated after a step held the same registration before it. */
  lemma OutdatedBefore(s: State, a: Action, n: Node, i: nat)
    requires Numbered(s) && Enabled(s, a) && i < |Next(s, a).made| && Outdated(Next(s, a), n, i)
    ensures var shard := Next(s, a).made[i].shard;
            && Owns(s, n, shard) && Next(s, a).local[n][shard] == s.local[n][shard]
            && (i < |s.made| ==> Outdated(s, n, i))
  {
    if a.Register? {
      assert i < |s.made| ==> Next(s, a).made[i] == s.made[i];
    }
  }

  lemma DoomedKept(s: State, a: Action, n: Node, i: nat)
    requires Inv(s) && Enabled(s, a) && Ahead(s, a) && i < |Next(s, a).made| && Outdated(Next(s, a), n, i)
    ensures var t := Next(s, a); Doomed(t, n, t.made[i].shard, t.local[n][t.made[i].shard], i)
  {
    var t := Next(s, a);
    OutdatedBefore(s, a, n, i);
    if i < |s.made| {
      var shard := s.made[i].shard;
      assert t.made[i] == s.made[i] && Doomed(s, n, shard, s.local[n][shard], i);
      if a.Broadcast? && a.number == i {
        assert Message(n, shard, a.now, i) in Announce(s, i, a.now);
      }
    }
  }

  lemma StepKeepsInv(s: State, a: Action)
    requires Inv(s) && Enabled(s, a) && Ahead(s, a)
    ensures Inv(Next(s, a))
  {
    var t := Next(s, a);
    NumberedKept(s, a);
    forall n, i | 0 <= i < |t.made| && Outdated(t, n, i)
      ensures Doomed(t, n, t.made[i].shard, t.local[n][t.made[i].shard], i)
    {
      DoomedKept(s, a, n, i);
    }
  }

  lemma {:induction false} StepsKeepInv(states: seq<State>, actions: seq<Action>, k: nat)
    requires Steps(states, actions) && k < |states| && Inv(states[0]) && AllAhead(states, actions, k)
    ensures Inv(states[k])
  {
    if k > 0 {
      StepsKeepInv(states, actions, k - 1);
      StepKeepsInv(states[k - 1], actions[k - 1]);
    }
  }

  lemma RunKeepsInv(states: seq<State>, actions: seq<Action>, k: nat)
    requires IsRun(states, actions) && k < |states| && AllAhead(states, actions, k)
    ensures Inv(states[k])
  {
    StepsKeepInv(states, actions, k);
  }

  /** At quiescence an owner's registration was made after every other node's. */
  lemma OwnerIsNewest(s: State, n: Node, shard: ShardId, i: nat)
    requires Inv(s) && Quiescent(s) && Owns(s, n, shard)
    requires i < |s.made| && s.made[i].shard == shard && s.made[i].node != n
    ensures i < s.latest[Held(n, shard)]
  {
    assert !Doomed(s, n, shard, s.local[n][shard], i);
    assert !Outdated(s, n, i);
  }

  lemma QuiescentHasOneOwner(s: State, n: Node, m: Node, shard: ShardId)
    requires Inv(s) && Quiescent(s) && Owns(s, n, shard) && Owns(s, m, shard)
    ensures n == m
  {
    if n != m {
      OwnerIsNewest(s, n, shard, s.latest[Held(m, shard)]);
      OwnerIsNewest(s, m, shard, s.latest[Held(n, shard)]);
      assert false;
    }
  }

  /** Whatever the interleaving, no two nodes hold a shard once all broadcasts are dealt with. */
  lemma AtMostOneOwner(states: seq<State>, actions: seq<Action>, k: nat, n: Node, m: Node, shard: ShardId)
    requires IsRun(states, actions) && k < |states| && AllAhead(states, actions, k)
    requires Quiescent(states[k]) && Owns(states[k], n, shard) && Owns(states[k], m, shard)
    ensures n == m
  {
    RunKeepsInv(states, actions, k);
    QuiescentHasOneOwner(states[k], n, m, shard);
  }

  // ---------- how a registration is lost ----------

  /**
   A node loses a shard by exactly two steps: an unregister that names the very registration it
   holds, or a pending second delete; and only registering it again changes its creation time.
   */
  lemma LostIff(s: State, a: Action, n: Node, shard: ShardId)
    requires Enabled(s, a) && Owns(s, n, shard)
    ensures !Owns(Next(s, a), n, shard) <==>
            a == Unregister(Registration(n, shard, s.local[n][shard])) || a == SecondDelete(Held(n, shard))
    ensures Owns(Next(s, a), n, shard) && Next(s, a).local[n][shard] != s.local[n][shard] ==>
              a.Register? && a.node == n && a.shard == shard && Next(s, a).local[n][shard] == a.now
  {
  }

  /** The step is an unregister that deletes what the node holds. */
  ghost predicate FirstDelete(s: State, a: Action, h: Held) {
    && a.Unregister? && a.from.node == h.node && a.from.shard == h.shard
    && Owns(s, h.node, h.shard) && s.local[h.node][h.shard] == a.from.created
  }

  ghost function FirstDeletes(states: seq<State>, actions: seq<Action>, k: nat, h: Held): nat
    requires |states| == |actions| + 1 && k <= |actions|
  {
    if k == 0 then 0
    else FirstDeletes(states, actions, k - 1, h) + if FirstDelete(states[k - 1], actions[k - 1], h) then 1 else 0
  }

  function SecondDeletes(actions: seq<Action>, k: nat, h: Held): nat
    requires k <= |actions|
  {
    if k == 0 then 0 else SecondDeletes(actions, k - 1, h) + if actions[k - 1] == SecondDelete(h) then 1 else 0
  }

  /** In every run each first delete owes exactly one second delete. */
  lemma {:induction false} SecondDeletesAreOwed(states: seq<State>, actions: seq<Action>, k: nat, h: Held)
    requires IsRun(states, actions) && k <= |actions|
    ensures SecondDeletes(actions, k, h) + states[k].removing[h] == FirstDeletes(states, actions, k, h)
  {
    if k > 0 {
      SecondDeletesAreOwed(states, actions, k - 1, h);
      assert states[k] == Next(states[k - 1], actions[k - 1]);
    }
  }

  lemma {:induction false} FirstDeleteExists(states: seq<State>, actions: seq<Action>, k: nat, h: Held) returns (j: nat)
    requires IsRun(states, actions) && k <= |actions| && FirstDeletes(states, actions, k, h) > 0
    ensures j < k && FirstDelete(states[j], actions[j], h)
  {
    if FirstDelete(states[k - 1], actions[k - 1], h) {
      j := k - 1;
    } else {
      j := FirstDeleteExists(states, actions, k - 1, h);
    }
  }

  lemma {:induction false} MadeGrows(states: seq<State>, actions: seq<Action>, j: nat, k: nat)
    requires IsRun(states, actions) && j <= k < |states|
    ensures |states[j].made| <= |states[k].made|
  {
    if j < k {
      MadeGrows(states, actions, j, k - 1);
      assert states[k] == Next(states[k - 1], actions[k - 1]);
    }
  }

  lemma DeletedBefore(states: seq<State>, actions: seq<Action>, k: nat, h: Held) returns (j: nat)
    requires IsRun(states, actions) && k <= |actions| && h in states[k].removing
    ensures j < k && FirstDelete(states[j], actions[j], h) && |states[j].made| <= |states[k].made|
  {
    SecondDeletesAreOwed(states, actions, k, h);
    j := FirstDeleteExists(states, actions, k, h);
    MadeGrows(states, actions, j, k);
  }

  lemma PendingBefore(s: State, a: Action, h: Held)
    requires Enabled(s, a) && h in Next(s, a).removing && Owns(Next(s, a), h.node, h.shard)
    requires !(a.Register? && a.node == h.node && a.shard == h.shard)
    ensures h in s.removing && Owns(s, h.node, h.shard)
    ensures h in s.latest ==> h in Next(s, a).latest && Next(s, a).latest[h] == s.latest[h]
  {
  }

  /**
   What a pending second delete can remove: in every run, a registration it would hit was made
   after a first delete of that shard at that node, so it is always a newer one that is lost.
   */
  lemma {:induction false} SecondDeleteHitsNewer(states: seq<State>, actions: seq<Action>, k: nat, h: Held)
    returns (j: nat)
    requires IsRun(states, actions) && k <= |actions|
    requires h in states[k].removing && Owns(states[k], h.node, h.shard)
    ensures j < k && FirstDelete(states[j], actions[j], h)
    ensures h in states[k].latest && |states[j].made| <= states[k].latest[h]
  {
    var s, a := states[k - 1], actions[k - 1];
    assert states[k] == Next(s, a);
    if a.Register? && a.node == h.node && a.shard == h.shard {
      j := DeletedBefore(states, actions, k - 1, h);
    } else {
      PendingBefore(s, a, h);
      j := SecondDeleteHitsNewer(states, actions, k - 1, h);
    }
  }

  /** And it does happen: from every state, registering again between the two deletes loses the new registration. */
  lemma ReRegisteredIsLost(s: State, n: Node, shard: ShardId, created: int)
    requires Owns(s, n, shard)
    ensures var deleted := Next(s, Unregister(Registration(n, shard, s.local[n][shard])));
            var again := Next(deleted, Register(n, shard, created));
            && Held(n, shard) in again.removing && Owns(again, n, shard) && again.local[n][shard] == created
            && !Owns(Next(again, SecondDelete(Held(n, shard))), n, shard)
  {
  }

  // ---------- clocks that meet the condition ----------

  predicate Stamped(a: Action) {
    a.Register? || a.Broadcast?
  }

  /** All stamps of the run come from one shared, strictly increasing clock. */
  ghost predicate OneClock(actions: seq<Action>) {
    forall i, j :: 0 <= i < j < |actions| && Stamped(actions[i]) && Stamped(actions[j]) ==>
      actions[i].now < actions[j].now
  }

  /** Creation times are the stamps of earlier register actions. */
  lemma {:induction false} CreatedWhenRegistered(states: seq<State>, actions: seq<Action>, k: nat, i: nat)
    returns (j: nat)
    requires IsRun(states, actions) && k < |states| && i < |states[k].made|
    ensures j < k && actions[j].Register? && actions[j].now == states[k].made[i].created
  {
    assert states[k] == Next(states[k - 1], actions[k - 1]);
    if i < |states[k - 1].made| {
      j := CreatedWhenRegistered(states, actions, k - 1, i);
    } else {
      j := k - 1;
    }
  }

  lemma SharedClockIsAhead(states: seq<State>, actions: seq<Action>, k: nat)
    requires IsRun(states, actions) && OneClock(actions) && k < |actions|
    requires Numbered(states[k])
    ensures Ahead(states[k], actions[k])
  {
    var s := states[k];
    if actions[k].Broadcast? {
      forall n | Outdated(s, n, actions[k].number)
        ensures s.local[n][s.made[actions[k].number].shard] < actions[k].now
      {
        var mine := s.latest[Held(n, s.made[actions[k].number].shard)];
        var j := CreatedWhenRegistered(states, actions, k, mine);
      }
    }
  }

  /** One shared clock is enough, though far from necessary. */
  lemma {:induction false} SharedClockSuffices(states: seq<State>, actions: seq<Action>, k: nat)
    requires IsRun(states, actions) && OneClock(actions) && k <= |actions|
    ensures AllAhead(states, actions, k) && Inv(states[k])
  {
    if k > 0 {
      SharedClockSuffices(states, actions, k - 1);
      SharedClockIsAhead(states, actions, k - 1);
    }
    RunKeepsInv(states, actions, k);
  }

  // ---------- the condition is exact ----------

  /** Only deliveries and the evictions they cause. */
  ghost predicate Finishing(s: State, a: Action) {
    a.Deliver? || (a.Unregister? && a.from in s.evicting)
  }

  ghost predicate Path(s: State, s': State, states: seq<State>, actions: seq<Action>) {
    && Steps(states, actions) && states[0] == s && states[|actions|] == s'
    && forall i :: 0 <= i < |actions| ==> Finishing(states[i], actions[i])
  }

  /** The broadcasts of s are dealt with, and nothing else happens. */
  ghost predicate Settles(s: State, s': State) {
    Quiescent(s') && exists states, actions :: Path(s, s', states, actions)
  }

  /** Delivering it evicts nothing. */
  predicate Harmless(s: State, m: Message) {
    m.to in s.local && (m.shard in s.local[m.to] ==> m.stamp <= s.local[m.to][m.shard])
  }

  lemma {:induction false} DeliverHarmless(s: State)
    requires s.unannounced == {} && s.evicting == {} && forall m :: m in s.network ==> Harmless(s, m)
    ensures Settles(s, s.(network := {}))
    decreases |s.network|
  {
    var end := s.(network := {});
    if s.network == {} {
      assert Path(s, end, [s], []);
    } else {
      var m :| m in s.network;
      var t := Next(s, Deliver(m));
      DeliverHarmless(t);
      var states, actions :| Path(t, end, states, actions);
      var longer, more := [s] + states, [Deliver(m)] + actions;
      forall i | 0 <= i < |more|
        ensures Enabled(longer[i], more[i]) && longer[i + 1] == Next(longer[i], more[i])
        ensures Finishing(longer[i], more[i])
      {
        if i > 0 {
          assert more[i] == actions[i - 1] && longer[i] == states[i - 1] && longer[i + 1] == states[i];
        }
      }
      assert Path(s, end, longer, more);
    }
  }

  /** A newcomer registers the shard and announces it. */
  function TakenOver(s: State, m: Node, shard: ShardId, created: int, stamp: int): State
    requires m in s.local
  {
    Next(Next(s, Register(m, shard, created)), Broadcast(|s.made|, stamp))
  }

  lemma LateStampKeepsBoth(s: State, n: Node, m: Node, shard: ShardId, created: int, stamp: int)
    requires Inv(s) && Quiescent(s) && Owns(s, n, shard) && m in s.local && m != n
    requires stamp <= s.local[n][shard]
    ensures exists s' :: Settles(TakenOver(s, m, shard, created, stamp), s') && Owns(s', n, shard) && Owns(s', m, shard)
  {
    var t := TakenOver(s, m, shard, created, stamp);
    forall msg | msg in t.network
      ensures Harmless(t, msg)
    {
      if Owns(s, msg.to, shard) {
        QuiescentHasOneOwner(s, n, msg.to, shard);
      }
    }
    DeliverHarmless(t);
    assert Owns(t.(network := {}), n, shard) && Owns(t.(network := {}), m, shard);
  }

  lemma {:induction false} FinishingKeepsInv(states: seq<State>, actions: seq<Action>, k: nat)
    requires Steps(states, actions) && k < |states| && Inv(states[0])
    requires forall i :: 0 <= i < |actions| ==> Finishing(states[i], actions[i])
    ensures Inv(states[k])
  {
    StepsKeepInv(states, actions, k);
  }

  lemma EarlyStampLeavesOne(s: State, s': State, n: Node, m: Node, shard: ShardId, created: int, stamp: int)
    requires Inv(s) && Quiescent(s) && Owns(s, n, shard) && m in s.local && m != n
    requires s.local[n][shard] < stamp && Settles(TakenOver(s, m, shard, created, stamp), s')
    ensures !(Owns(s', n, shard) && Owns(s', m, shard))
  {
    var s1 := Next(s, Register(m, shard, created));
    StepKeepsInv(s, Register(m, shard, created));
    forall u | Outdated(s1, u, |s.made|)
      ensures s1.local[u][shard] < stamp
    {
      QuiescentHasOneOwner(s, n, u, shard);
    }
    StepKeepsInv(s1, Broadcast(|s.made|, stamp));
    var states, actions :| Path(TakenOver(s, m, shard, created, stamp), s', states, actions);
    FinishingKeepsInv(states, actions, |actions|);
    if Owns(s', n, shard) && Owns(s', m, shard) {
      QuiescentHasOneOwner(s', n, m, shard);
      assert false;
    }
  }

  /**
   From every settled state of a cluster of any size: a newcomer's takeover can settle with two
   owners if and only if its broadcast is stamped no later than the owner's creation time.
   */
  lemma TwoOwnersIffStampedLate(s: State, n: Node, m: Node, shard: ShardId, created: int, stamp: int)
    requires Inv(s) && Quiescent(s) && Owns(s, n, shard) && m in s.local && m != n
    ensures stamp <= s.local[n][shard] <==>
            exists s' :: Settles(TakenOver(s, m, shard, created, stamp), s') && Owns(s', n, shard) && Owns(s', m, shard)
  {
    if stamp <= s.local[n][shard] {
      LateStampKeepsBoth(s, n, m, shard, created, stamp);
    } else {
      forall s' | Settles(TakenOver(s, m, shard, created, stamp), s')
        ensures !(Owns(s', n, shard) && Owns(s', m, shard))
      {
        EarlyStampLeavesOne(s, s', n, m, shard, created, stamp);
      }
    }
  }

  /** Such states exist: any node of any cluster can be the settled owner, with any stamps. */
  lemma FirstOwnerSettles(nodes: set<Node>, n: Node, shard: ShardId, created: int, stamp: int) returns (s: State)
    requires n in nodes
    ensures Settles(TakenOver(Initial(nodes), n, shard, created, stamp), s) && Inv(s)
    ensures s.local.Keys == nodes && Owns(s, n, shard) && s.local[n][shard] == created
  {
    var s0 := Initial(nodes);
    var t := TakenOver(s0, n, shard, created, stamp);
    DeliverHarmless(t);
    s := t.(network := {});
    assert Numbered(s) && forall u :: !Outdated(s, u, 0);
  }

  /** Two owners, for every cluster, every pair of nodes and all stamps with the second one late. */
  lemma SkewedClocksKeepTwoOwners(
    nodes: set<Node>, n: Node, m: Node, shard: ShardId, c1: int, b1: int, c2: int, b2: int)
    returns (settled: State, end: State)
    requires n in nodes && m in nodes && n != m && b2 <= c1
    ensures Settles(TakenOver(Initial(nodes), n, shard, c1, b1), settled) && m in settled.local
    ensures Settles(TakenOver(settled, m, shard, c2, b2), end) && Owns(end, n, shard) && Owns(end, m, shard)
  {
    settled := FirstOwnerSettles(nodes, n, shard, c1, b1);
    TwoOwnersIffStampedLate(settled, n, m, shard, c2, b2);
    end :| Settles(TakenOver(settled, m, shard, c2, b2), end) && Owns(end, n, shard) && Owns(end, m, shard);
  }

  // ---------- the objects ----------

  /** One manager object per node, each in the state of its node. */
  ghost predicate Mirrors(managers: map<Node, ShardManager>, local: map<Node, Registry>)
    reads managers.Values
  {
    && managers.Keys == local.Keys
    && (forall n, m :: n in managers && m in managers && n != m ==> managers[n] != managers[m])
    && forall n :: n in managers ==> managers[n].localShards == local[n]
  }

  method StartAll(nodes: seq<Node>) returns (managers: map<Node, ShardManager>)
    ensures Mirrors(managers, Initial(set n | n in nodes).local)
    ensures forall n :: n in managers ==> fresh(managers[n])
  {
    managers := map[];
    for i := 0 to |nodes|
      invariant managers.Keys == set n | n in nodes[..i]
      invariant forall n, m :: n in managers && m in managers && n != m ==> managers[n] != managers[m]
      invariant forall n :: n in managers ==> fresh(managers[n]) && managers[n].localShards == map[]
    {
      var manager := new ShardManager();
      managers := managers[nodes[i] := manager];
    }
  }

  /** One step of the protocol on the objects. */
  method Do(managers: map<Node, ShardManager>, a: Action, evicting: set<Registration>, ghost s: State)
    returns (evicting': set<Registration>)
    requires Enabled(s, a) && Mirrors(managers, s.local) && evicting == s.evicting
    modifies managers.Values
    ensures Mirrors(managers, Next(s, a).local) && evicting' == Next(s, a).evicting
  {
    evicting' := evicting;
    match a
    case Register(n, shard, now) =>
      var at := managers[n].AddLocalShard(shard, now);
    case Broadcast(_, _) =>
    case Deliver(m) =>
      var evict, created := managers[m.to].NotifyRegister(m.shard, m.stamp);
      if evict {
        evicting' := evicting + {Registration(m.to, m.shard, created)};
      }
    case Unregister(r) =>
      var deleted := managers[r.node].UnregisterFirst(r.shard, r.created);
      evicting' := evicting - {r};
    case SecondDelete(h) =>
      managers[h.node].RemoveLocalShard(h.shard);
  }

  /** The manager objects take every run of the protocol step by step. */
  method Replay(nodes: seq<Node>, actions: seq<Action>, ghost states: seq<State>)
    returns (registries: map<Node, Registry>)
    requires IsRun(states, actions) && states[0] == Initial(set n | n in nodes)
    ensures registries.Keys == states[|actions|].local.Keys
    ensures forall n :: n in registries ==> registries[n] == states[|actions|].local[n]
  {
    var managers := StartAll(nodes);
    var evicting: set<Registration> := {};
    for i := 0 to |actions|
      invariant forall n :: n in managers ==> fresh(managers[n])
      invariant Mirrors(managers, states[i].local) && evicting == states[i].evicting
    {
      evicting := Do(managers, actions[i], evicting, states[i]);
    }
    registries := map n | n in managers :: managers[n].localShards;
  }
}

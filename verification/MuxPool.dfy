/**
 The mux connection pool: a connect loop that holds one semaphore permit per attempt and
 per registered mux, the session table, and the client's dial table that is rebuilt from
 it on every change. Sessions close on their own, and each runs its close callback once.
 */
module MuxPool {
  type Session = int

  /** MultiClientConn's table of connections, rebuilt by its listener. */
  class DialTable {
    var connMap: map<nat, Session>

    constructor ()
      ensures connMap == map[]
    {
      connMap := map[];
    }

    /** OnConnectionListUpdate. */
    method Update(muxes: map<nat, Session>)
      modifies this
      ensures connMap == muxes
    {
      if |muxes| == 0 {
        connMap := map[];
        return;
      }
      var built: map<nat, Session> := map[];
      var left := muxes.Keys;
      while left != {}
        invariant left <= muxes.Keys
        invariant built.Keys == muxes.Keys - left
        invariant forall id :: id in built ==> built[id] == muxes[id]
        decreases |left|
      {
        var id :| id in left;
        built := built[id := muxes[id]];
        left := left - {id};
      }
      connMap := built;
    }

    /** The map dialer: a key dials exactly the session registered under it. */
    method Dial(id: nat) returns (found: bool, session: Session)
      ensures found <==> id in connMap
      ensures found ==> session == connMap[id]
    {
      found, session := id in connMap, 0;
      if found {
        session := connMap[id];
      }
    }
  }

  class MuxManager {
    var muxes: map<nat, Session>
    var nextId: nat
    var table: DialTable

    /** The client can dial exactly the registered sessions, and no ID has been used twice. */
    ghost predicate Valid()
      reads this, table
    {
      table.connMap == muxes && forall id :: id in muxes ==> id < nextId
    }

    constructor ()
      ensures Valid() && muxes == map[] && nextId == 0 && fresh(table)
    {
      muxes, nextId := map[], 0;
      table := new DialTable();
    }

    /** AddConnection; `live` is the lifetime check made under the lock. */
    method AddConnection(session: Session, live: bool) returns (id: nat)
      requires Valid()
      modifies this`muxes, this`nextId, table
      ensures Valid() && id == old(nextId)
      ensures live ==> id !in old(muxes) && muxes == old(muxes)[id := session] && nextId == id + 1
      ensures !live ==> muxes == old(muxes) && nextId == old(nextId)
    {
      id := nextId;
      if !live {
        return;
      }
      nextId := nextId + 1;
      muxes := muxes[id := session];
      table.Update(muxes);
    }

    /** The client's dialer: an address reaches a session exactly when it is registered, and its own. */
    method DialRegistered(id: nat) returns (found: bool, session: Session)
      requires Valid()
      ensures found <==> id in muxes
      ensures found ==> session == muxes[id]
    {
      found, session := table.Dial(id);
    }

    /** unregisterMux, which dereferences the session it finds. */
    method Unregister(id: nat)
      requires Valid() && id in muxes
      modifies this`muxes, table
      ensures Valid() && muxes == old(muxes) - {id}
    {
      muxes := muxes - {id};
      table.Update(muxes);
    }
  }

  // ---------- the pool over whole runs ----------

  datatype Loop = Acquiring | Attempting | Ended

  datatype State = State(
    capacity: nat,
    live: bool,
    held: int,                // semaphore permits taken
    loop: Loop,
    nextId: nat,
    muxes: map<nat, Session>,
    dial: map<nat, Session>,
    open: set<nat>,           // sessions whose close callback has not run yet
    closing: set<nat>,        // unregistered, permit not released yet
    drained: nat,
    probing: nat,
    kept: nat,                // permits never given back on the way out after the lifetime ended
    issued: seq<nat>)         // every ID ever given out

  datatype Action =
    | Acquire | AcquireCancelled
    | AttemptFailed | AttemptSucceeded(session: Session)
    | CallbackUnregister(id: nat) | CallbackRelease(id: nat)
    | Drain(amount: nat)
    | ProbeTake | ProbeGive
    | EndLifetime

  predicate Enabled(s: State, a: Action) {
    match a
    case Acquire => s.loop.Acquiring? && s.live && s.held + 1 <= s.capacity
    case AcquireCancelled => s.loop.Acquiring? && !s.live
    case AttemptFailed => s.loop.Attempting?
    case AttemptSucceeded(_) => s.loop.Attempting?
    case CallbackUnregister(id) => id in s.open
    case CallbackRelease(id) => id in s.closing
    case Drain(n) => s.held + n <= s.capacity
    case ProbeTake => s.held + 1 <= s.capacity
    case ProbeGive => s.probing > 0
    case EndLifetime => true
  }

  /** How many permits the step gives back. */
  function Released(s: State, a: Action): nat {
    match a
    case AttemptFailed => if s.live then 1 else 0
    case CallbackRelease(_) => 1
    case ProbeGive => 1
    case _ => 0
  }

  function Next(s: State, a: Action): State
    requires Enabled(s, a)
  {
    var t := s.(held := s.held - Released(s, a));
    match a
    case Acquire => t.(held := s.held + 1, loop := Attempting)
    case AcquireCancelled => t.(loop := Ended)
    case AttemptFailed => if s.live then t.(loop := Acquiring) else t.(loop := Ended, kept := s.kept + 1)
    case AttemptSucceeded(session) =>
      if s.live then
        var muxes := s.muxes[s.nextId := session];
        t.(loop := Acquiring, nextId := s.nextId + 1, muxes := muxes, dial := muxes,
           open := s.open + {s.nextId}, issued := s.issued + [s.nextId])
      else t.(loop := Acquiring, kept := s.kept + 1)
    case CallbackUnregister(id) =>
      t.(muxes := s.muxes - {id}, dial := s.muxes - {id}, open := s.open - {id}, closing := s.closing + {id})
    case CallbackRelease(id) => t.(closing := s.closing - {id})
    case Drain(n) => t.(held := s.held + n, drained := s.drained + n)
    case ProbeTake => t.(held := s.held + 1, probing := s.probing + 1)
    case ProbeGive => t.(probing := s.probing - 1)
    case EndLifetime => t.(live := false)
  }

  function Initial(capacity: nat): State {
    State(capacity, true, 0, Acquiring, 0, map[], map[], {}, {}, 0, 0, 0, [])
  }

  ghost predicate IsRun(states: seq<State>, actions: seq<Action>) {
    && |states| == |actions| + 1
    && (exists capacity :: states[0] == Initial(capacity))
    && forall i :: 0 <= i < |actions| ==> Enabled(states[i], actions[i]) && states[i + 1] == Next(states[i], actions[i])
  }

  /** Every permit taken is accounted for. */
  ghost predicate PermitsBalance(s: State) {
    && s.held == |s.muxes| + |s.closing| + (if s.loop.Attempting? then 1 else 0) + s.drained + s.probing + s.kept
    && s.held <= s.capacity
    && (s.live ==> s.kept == 0)
  }

  ghost predicate TablesAgree(s: State) {
    s.dial == s.muxes && s.open == s.muxes.Keys
  }

  ghost predicate IdsSound(s: State) {
    && (forall id :: id in s.muxes ==> id < s.nextId && id !in s.closing)
    && (forall id :: id in s.closing ==> id < s.nextId)
    && |s.issued| == s.nextId && forall i :: 0 <= i < s.nextId ==> s.issued[i] == i
  }

  ghost predicate Inv(s: State) {
    PermitsBalance(s) && TablesAgree(s) && IdsSound(s)
  }

  lemma IdsKept(s: State, a: Action)
    requires TablesAgree(s) && IdsSound(s) && Enabled(s, a)
    ensures TablesAgree(Next(s, a)) && IdsSound(Next(s, a))
  {
  }

  lemma BalanceKept(s: State, a: Action)
    requires PermitsBalance(s) && TablesAgree(s) && IdsSound(s) && Enabled(s, a)
    ensures PermitsBalance(Next(s, a))
  {
  }

  lemma StepKeepsInv(s: State, a: Action)
    requires Inv(s) && Enabled(s, a)
    ensures Inv(Next(s, a))
  {
    IdsKept(s, a);
    BalanceKept(s, a);
  }

  lemma {:induction false} RunKeepsInv(states: seq<State>, actions: seq<Action>, k: nat)
    requires IsRun(states, actions) && k < |states|
    ensures Inv(states[k])
  {
    if k > 0 {
      RunKeepsInv(states, actions, k - 1);
      StepKeepsInv(states[k - 1], actions[k - 1]);
    }
  }

  /**
   In every run: permits balance, so the muxes together with everything else holding a
   permit never exceed the capacity; no release exceeds what is held; and a close callback
   always finds its mux.
   */
  lemma PermitsAreConserved(states: seq<State>, actions: seq<Action>, k: nat)
    requires IsRun(states, actions) && k < |actions|
    ensures PermitsBalance(states[k])
    ensures |states[k].muxes| + states[k].drained <= states[k].capacity == states[0].capacity
    ensures Released(states[k], actions[k]) <= states[k].held
    ensures actions[k].CallbackUnregister? ==> actions[k].id in states[k].muxes
  {
    RunKeepsInv(states, actions, k);
    CapacityIsFixed(states, actions, k);
    if actions[k].CallbackRelease? {
      assert states[k].closing != {};
    }
  }

  /** Permits taken by the first k steps: one per attempt or probe, and what was drained. */
  function TakenSoFar(actions: seq<Action>, k: nat): nat
    requires k <= |actions|
  {
    if k == 0 then 0
    else TakenSoFar(actions, k - 1) + match actions[k - 1]
                                      case Acquire => 1
                                      case ProbeTake => 1
                                      case Drain(n) => n
                                      case _ => 0
  }

  /** Permits given back: by an attempt that failed while live, by a close callback, by a probe. */
  function GivenSoFar(states: seq<State>, actions: seq<Action>, k: nat): nat
    requires |states| == |actions| + 1 && k <= |actions|
  {
    if k == 0 then 0
    else GivenSoFar(states, actions, k - 1) + match actions[k - 1]
                                              case AttemptFailed => if states[k - 1].live then 1 else 0
                                              case CallbackRelease(_) => 1
                                              case ProbeGive => 1
                                              case _ => 0
  }

  /** In every run the semaphore holds what was taken and not given back. */
  lemma {:induction false} HeldIsTakenLessGiven(states: seq<State>, actions: seq<Action>, k: nat)
    requires IsRun(states, actions) && k <= |actions|
    ensures states[k].held == TakenSoFar(actions, k) - GivenSoFar(states, actions, k)
  {
    if k > 0 {
      HeldIsTakenLessGiven(states, actions, k - 1);
      assert states[k] == Next(states[k - 1], actions[k - 1]);
    }
  }

  /** The connect loop runs for as long as the lifetime lasts. */
  lemma {:induction false} LoopLastsAsLongAsLifetime(states: seq<State>, actions: seq<Action>, k: nat)
    requires IsRun(states, actions) && k <= |actions|
    ensures states[k].live ==> !states[k].loop.Ended?
    ensures states[k].live <==> forall i :: 0 <= i < k ==> actions[i] != EndLifetime
  {
    if k > 0 {
      LoopLastsAsLongAsLifetime(states, actions, k - 1);
      assert states[k] == Next(states[k - 1], actions[k - 1]);
    }
  }

  lemma AppendStep(states: seq<State>, actions: seq<Action>, a: Action)
    requires IsRun(states, actions) && Enabled(states[|actions|], a)
    ensures IsRun(states + [Next(states[|actions|], a)], actions + [a])
  {
    var longer, more := states + [Next(states[|actions|], a)], actions + [a];
    forall i | 0 <= i < |more|
      ensures Enabled(longer[i], more[i]) && longer[i + 1] == Next(longer[i], more[i])
    {
      if i < |actions| {
        assert longer[i] == states[i] && longer[i + 1] == states[i + 1] && more[i] == actions[i];
      }
    }
    assert longer[0] == states[0];
  }

  /** The bound is tight: a pool can be filled to any number of muxes up to its capacity. */
  lemma {:induction false} PoolCanFill(capacity: nat, n: nat) returns (states: seq<State>, actions: seq<Action>)
    requires n <= capacity
    ensures IsRun(states, actions) && states[0] == Initial(capacity)
    ensures var s := states[|actions|];
            |s.muxes| == n && s.held == n && s.live && s.loop.Acquiring? && s.capacity == capacity
  {
    if n == 0 {
      states, actions := [Initial(capacity)], [];
    } else {
      states, actions := PoolCanFill(capacity, n - 1);
      var s := states[|actions|];
      RunKeepsInv(states, actions, |actions|);
      AppendStep(states, actions, Acquire);
      var s' := Next(s, Acquire);
      AppendStep(states + [s'], actions + [Acquire], AttemptSucceeded(0));
      states, actions := states + [s'] + [Next(s', AttemptSucceeded(0))], actions + [Acquire] + [AttemptSucceeded(0)];
      assert s.muxes[s.nextId := 0].Keys == s.muxes.Keys + {s.nextId} && s.nextId !in s.muxes;
    }
  }

  lemma {:induction false} CapacityIsFixed(states: seq<State>, actions: seq<Action>, k: nat)
    requires IsRun(states, actions) && k < |states|
    ensures states[k].capacity == states[0].capacity
  {
    if k > 0 {
      CapacityIsFixed(states, actions, k - 1);
    }
  }

  /** The dial table always has exactly the registered muxes, and IDs are never reused. */
  lemma DialTableAgrees(states: seq<State>, actions: seq<Action>, k: nat)
    requires IsRun(states, actions) && k < |states|
    ensures states[k].dial == states[k].muxes
    ensures forall i, j :: 0 <= i < j < |states[k].issued| ==> states[k].issued[i] != states[k].issued[j]
    ensures forall id :: id in states[k].muxes ==> id in states[k].issued
  {
    RunKeepsInv(states, actions, k);
    var s := states[k];
    forall id | id in s.muxes
      ensures id in s.issued
    {
      assert s.issued[id] == id;
    }
  }

  /** The session was registered and its close callback has not run, in the first k steps. */
  ghost predicate StillOpen(states: seq<State>, actions: seq<Action>, k: nat, id: nat)
    requires |states| == |actions| + 1 && k <= |actions|
  {
    id in states[k].issued && forall i :: 0 <= i < k ==> actions[i] != CallbackUnregister(id)
  }

  predicate Issues(s: State, a: Action, id: nat) {
    s.live && a.AttemptSucceeded? && id == s.nextId
  }

  lemma DialStep(s: State, a: Action, id: nat)
    requires TablesAgree(s) && Enabled(s, a)
    ensures id in Next(s, a).dial <==> (id in s.dial && a != CallbackUnregister(id)) || Issues(s, a, id)
    ensures id in Next(s, a).issued <==> id in s.issued || Issues(s, a, id)
  {
  }

  /** Over every run, exactly the sessions issued and not yet closed can be dialled. */
  lemma {:induction false} DialableIffStillOpen(states: seq<State>, actions: seq<Action>, k: nat, id: nat)
    requires IsRun(states, actions) && k <= |actions|
    ensures id in states[k].dial <==> StillOpen(states, actions, k, id)
  {
    if k > 0 {
      DialableIffStillOpen(states, actions, k - 1, id);
      var s, a := states[k - 1], actions[k - 1];
      assert TablesAgree(s) by { RunKeepsInv(states, actions, k - 1); }
      assert states[k] == Next(s, a);
      DialStep(s, a, id);
      if Issues(s, a, id) {
        NeverClosedBefore(states, actions, k - 1, id);
      }
    }
  }

  /** No close callback has run for an ID that was never issued. */
  lemma {:induction false} NeverClosedBefore(states: seq<State>, actions: seq<Action>, k: nat, id: nat)
    requires IsRun(states, actions) && k <= |actions| && states[k].nextId <= id
    ensures forall i :: 0 <= i < k ==> actions[i] != CallbackUnregister(id)
  {
    if k > 0 {
      RunKeepsInv(states, actions, k - 1);
      NeverClosedBefore(states, actions, k - 1, id);
    }
  }

  /** The classes, driven through any run, end with the tables the run says. */
  method Replay(actions: seq<Action>, ghost states: seq<State>)
    returns (muxes: map<nat, Session>, dial: map<nat, Session>)
    requires IsRun(states, actions)
    ensures muxes == states[|actions|].muxes && dial == states[|actions|].dial
  {
    var manager := new MuxManager();
    var live := true;
    for i := 0 to |actions|
      invariant fresh(manager) && fresh(manager.table) && manager.Valid()
      invariant manager.muxes == states[i].muxes && manager.nextId == states[i].nextId && live == states[i].live
      invariant states[i].dial == states[i].muxes
    {
      RunKeepsInv(states, actions, i);
      assert states[i + 1] == Next(states[i], actions[i]);
      match actions[i] {
        case AttemptSucceeded(session) =>
          var id := manager.AddConnection(session, live);
        case CallbackUnregister(id) =>
          manager.Unregister(id);
        case EndLifetime =>
          live := false;
        case _ =>
      }
    }
    muxes, dial := manager.muxes, manager.table.connMap;
  }
}

/**
 createRegistry: open every key the encryption config names, in order, and undo all of it
 when any step fails. The key service is outside: `works(uri, handle)` says whether the
 call that would yield `handle` succeeds.
 */
module KeyRegistry {
  import opened Options

  /** A key policy: its wrapping key, then the keys accepted for unwrapping only. */
  datatype KeyPolicy = KeyPolicy(uri: string, decryptUris: seq<string>)

  datatype Config = Config(standard: KeyPolicy, replication: Option<KeyPolicy>, overrides: map<string, KeyPolicy>)

  const REPLICATION_NAMESPACE := "$replication"

  /** One call of nsOptions: a namespace, or none for the default key, and its policy. */
  datatype Policy = Policy(ns: Option<string>, uri: string, decryptUris: seq<string>)

  datatype KeyOption = DefaultKey(key: int) | NamespaceKey(ns: string, key: int) | DecryptOnly(key: int)

  /** The key service: handles are numbered in the order of opening. */
  class KeyService {
    var next: int
    var live: set<int>

    constructor ()
      ensures next == 0 && live == {}
    {
      next, live := 0, {};
    }

    method Create(uri: string, works: (string, int) -> bool) returns (ok: bool, key: int)
      modifies this
      ensures ok == works(uri, old(next)) && key == old(next)
      ensures next == old(next) + (if ok then 1 else 0)
      ensures live == if ok then old(live) + {key} else old(live)
    {
      ok, key := works(uri, next), next;
      if ok {
        live, next := live + {key}, next + 1;
      }
    }

    method Close(key: int)
      modifies this`live
      ensures live == old(live) - {key}
    {
      live := live - {key};
    }
  }

  function Uris(p: Policy): seq<string> {
    [p.uri] + p.decryptUris
  }

  function HowMany(plan: seq<Policy>): nat {
    if plan == [] then 0 else HowMany(plan[..|plan| - 1]) + |Uris(plan[|plan| - 1])|
  }

  /** The options of one policy whose keys are numbered from `first`. */
  function PolicyOptions(p: Policy, first: int): (o: seq<KeyOption>)
    ensures |o| == |Uris(p)|
  {
    [if p.ns.None? then DefaultKey(first) else NamespaceKey(p.ns.value, first)]
    + seq(|p.decryptUris|, i => DecryptOnly(first + 1 + i))
  }

  function PlanOptions(plan: seq<Policy>, first: int): (o: seq<KeyOption>)
    ensures |o| == HowMany(plan)
  {
    if plan == [] then []
    else PlanOptions(plan[..|plan| - 1], first) + PolicyOptions(plan[|plan| - 1], first + HowMany(plan[..|plan| - 1]))
  }

  /** `order` lists the overridden namespaces, each once; the source takes them sorted. */
  ghost predicate Lists(order: seq<string>, overrides: map<string, KeyPolicy>) {
    && (forall ns :: ns in overrides <==> ns in order)
    && forall i, j :: 0 <= i < j < |order| ==> order[i] != order[j]
  }

  ghost function FixedPolicies(c: Config): seq<Policy> {
    [Policy(None, c.standard.uri, c.standard.decryptUris)]
    + if c.replication.None? then [] else [ForNamespace(REPLICATION_NAMESPACE, c.replication.value)]
  }

  ghost function Overridden(c: Config, order: seq<string>): seq<Policy>
    requires Lists(order, c.overrides)
  {
    seq(|order|, i requires 0 <= i < |order| => ForNamespace(order[i], c.overrides[order[i]]))
  }

  /** The policies in the order they are opened: default, replication, overrides. */
  ghost function Plan(c: Config, order: seq<string>): seq<Policy>
    requires Lists(order, c.overrides)
  {
    FixedPolicies(c) + Overridden(c, order)
  }

  function ForNamespace(ns: string, p: KeyPolicy): Policy {
    Policy(Some(ns), p.uri, p.decryptUris)
  }

  /** `n` handles numbered from `first`. */
  function Handles(first: int, n: nat): seq<int> {
    seq(n, i => first + i)
  }

  function Elements(keys: seq<int>): set<int> {
    set k | k in keys
  }

  /** Every key of the plan opens, keys being numbered from `first`. */
  ghost predicate AllOpen(uris: seq<string>, first: int, works: (string, int) -> bool) {
    forall i :: 0 <= i < |uris| ==> works(uris[i], first + i)
  }

  function AllUris(plan: seq<Policy>): (u: seq<string>)
    ensures |u| == HowMany(plan)
  {
    if plan == [] then [] else AllUris(plan[..|plan| - 1]) + Uris(plan[|plan| - 1])
  }

  class Builder {
    const service: KeyService
    var created: seq<int>

    /** What was opened since `first` is exactly what the builder remembers. */
    ghost predicate Owns(before: set<int>, first: int)
      reads this, service
    {
      && first <= service.next
      && created == Handles(first, service.next - first)
      && service.live == before + Elements(created)
    }

    constructor (service: KeyService)
      ensures this.service == service && created == []
    {
      this.service, created := service, [];
    }

    /** createKEKs: the policy's own key first, then its decrypt-only keys. */
    method CreateKEKs(p: Policy, works: (string, int) -> bool, ghost before: set<int>, ghost first: int)
      returns (ok: bool, keys: seq<int>)
      requires Owns(before, first)
      modifies this`created, service
      ensures Owns(before, first)
      ensures ok <==> AllOpen(Uris(p), old(service.next), works)
      ensures ok ==> service.next == old(service.next) + |Uris(p)| && keys == Handles(old(service.next), |Uris(p)|)
    {
      keys := [];
      var uris := Uris(p);
      ghost var start := service.next;
      for i := 0 to |uris|
        invariant Owns(before, first) && service.next == start + i
        invariant keys == Handles(start, i)
        invariant AllOpen(uris[..i], start, works)
      {
        var key;
        ok, key := service.Create(uris[i], works);
        if !ok {
          return false, keys;
        }
        keys := keys + [key];
        created := created + [key];
      }
      ok := true;
    }

    method NsOptions(p: Policy, works: (string, int) -> bool, ghost before: set<int>, ghost first: int)
      returns (ok: bool, options: seq<KeyOption>)
      requires Owns(before, first)
      modifies this`created, service
      ensures Owns(before, first)
      ensures ok <==> AllOpen(Uris(p), old(service.next), works)
      ensures ok ==> service.next == old(service.next) + |Uris(p)| && options == PolicyOptions(p, old(service.next))
    {
      options := [];
      var keys;
      ok, keys := CreateKEKs(p, works, before, first);
      if !ok {
        return;
      }
      options := [if p.ns.None? then DefaultKey(keys[0]) else NamespaceKey(p.ns.value, keys[0])];
      for i := 1 to |keys|
        invariant options == PolicyOptions(p, keys[0])[..i]
      {
        options := options + [DecryptOnly(keys[i])];
      }
    }

    /** After the policies `done`: their options are built and all their keys opened. */
    ghost predicate Built(
      done: seq<Policy>, options: seq<KeyOption>, before: set<int>, first: int, works: (string, int) -> bool)
      reads this, service
    {
      && Owns(before, first) && service.next == first + HowMany(done)
      && options == PlanOptions(done, first)
      && AllOpen(AllUris(done), first, works)
    }

    /** The policy at `k` of the plan. */
    method AddPolicy(p: Policy, options: seq<KeyOption>, works: (string, int) -> bool,
                     ghost k: nat, ghost plan: seq<Policy>, ghost before: set<int>, ghost first: int)
      returns (ok: bool, more: seq<KeyOption>)
      requires k < |plan| && p == plan[k]
      requires Built(plan[..k], options, before, first, works)
      modifies this`created, service
      ensures Owns(before, first)
      ensures ok ==> Built(plan[..k + 1], more, before, first, works)
      ensures !ok ==> !AllOpen(AllUris(plan), first, works)
    {
      OpenPrefix(plan, k, first, works);
      OneMorePolicy(plan, k, first);
      ok, more := NsOptions(p, works, before, first);
      more := options + more;
    }

    /** The default key's policy and, if configured, the replication policy. */
    method AddFixed(c: Config, works: (string, int) -> bool,
                    ghost plan: seq<Policy>, ghost before: set<int>, ghost first: int)
      returns (ok: bool, options: seq<KeyOption>)
      requires FixedPolicies(c) <= plan
      requires Owns(before, first) && service.next == first
      modifies this`created, service
      ensures Owns(before, first)
      ensures ok ==> Built(plan[..|FixedPolicies(c)|], options, before, first, works)
      ensures !ok ==> !AllOpen(AllUris(plan), first, works)
    {
      assert plan[..0] == [];
      ok, options := AddPolicy(Policy(None, c.standard.uri, c.standard.decryptUris), [], works, 0, plan, before, first);
      if ok && c.replication.Some? {
        var p := ForNamespace(REPLICATION_NAMESPACE, c.replication.value);
        ok, options := AddPolicy(p, options, works, 1, plan, before, first);
      }
    }

    /** The overrides, which come last in the plan. */
    method AddOverrides(c: Config, order: seq<string>, options: seq<KeyOption>, works: (string, int) -> bool,
                        ghost head: nat, ghost plan: seq<Policy>, ghost before: set<int>, ghost first: int)
      returns (ok: bool, more: seq<KeyOption>)
      requires Lists(order, c.overrides)
      requires head <= |plan| && plan[head..] == Overridden(c, order)
      requires Built(plan[..head], options, before, first, works)
      modifies this`created, service
      ensures Owns(before, first)
      ensures ok <==> AllOpen(AllUris(plan), first, works)
      ensures ok ==> Built(plan, more, before, first, works)
    {
      more := options;
      for i := 0 to |order|
        invariant Built(plan[..head + i], more, before, first, works)
      {
        var p := ForNamespace(order[i], c.overrides[order[i]]);
        assert plan[head + i] == plan[head..][i];
        ok, more := AddPolicy(p, more, works, head + i, plan, before, first);
        if !ok {
          return;
        }
      }
      assert plan[..head + |order|] == plan;
      ok := true;
    }

    method ToOptions(c: Config, order: seq<string>, works: (string, int) -> bool,
                     ghost before: set<int>, ghost first: int)
      returns (ok: bool, options: seq<KeyOption>)
      requires Lists(order, c.overrides)
      requires Owns(before, first) && service.next == first
      modifies this`created, service
      ensures Owns(before, first)
      ensures ok <==> AllOpen(AllUris(Plan(c, order)), first, works)
      ensures ok ==> Built(Plan(c, order), options, before, first, works)
    {
      ok, options := AddFixed(c, works, Plan(c, order), before, first);
      if ok {
        ok, options := AddOverrides(c, order, options, works, |FixedPolicies(c)|, Plan(c, order), before, first);
      }
    }

    method CloseOpened(ghost before: set<int>)
      requires service.live == before + Elements(created)
      modifies service`live
      ensures service.live == before - Elements(created)
    {
      for i := 0 to |created|
        invariant service.live == (before + Elements(created)) - Elements(created[..i])
      {
        service.Close(created[i]);
        assert Elements(created[..i + 1]) == Elements(created[..i]) + {created[i]};
      }
      assert created[..|created|] == created;
    }
  }

  /** Opening the plan needs its first policies, and exactly its keys one policy at a time. */
  lemma {:induction false} OpenPrefix(plan: seq<Policy>, i: nat, first: int, works: (string, int) -> bool)
    requires i < |plan|
    ensures AllOpen(AllUris(plan[..i + 1]), first, works) <==>
            AllOpen(AllUris(plan[..i]), first, works) && AllOpen(Uris(plan[i]), first + HowMany(plan[..i]), works)
    ensures AllOpen(AllUris(plan), first, works) ==> AllOpen(AllUris(plan[..i + 1]), first, works)
    decreases |plan| - i
  {
    assert plan[..i + 1][..i] == plan[..i];
    SplitOpen(AllUris(plan[..i]), Uris(plan[i]), first, works);
    if i + 1 < |plan| {
      OpenPrefix(plan, i + 1, first, works);
    } else {
      assert plan[..i + 1] == plan;
    }
  }

  lemma OneMorePolicy(plan: seq<Policy>, k: nat, first: int)
    requires k < |plan|
    ensures HowMany(plan[..k + 1]) == HowMany(plan[..k]) + |Uris(plan[k])|
    ensures PlanOptions(plan[..k + 1], first) ==
            PlanOptions(plan[..k], first) + PolicyOptions(plan[k], first + HowMany(plan[..k]))
  {
    assert plan[..k + 1][..k] == plan[..k];
  }

  lemma SplitOpen(a: seq<string>, b: seq<string>, first: int, works: (string, int) -> bool)
    ensures AllOpen(a + b, first, works) <==> AllOpen(a, first, works) && AllOpen(b, first + |a|, works)
  {
    if AllOpen(a + b, first, works) {
      assert forall i :: 0 <= i < |a| ==> (a + b)[i] == a[i];
      forall i | 0 <= i < |b|
        ensures works(b[i], first + |a| + i)
      {
        assert (a + b)[|a| + i] == b[i];
      }
    }
  }

  /** Each opened key appears in exactly one option, in the order of opening. */
  lemma {:induction false} KeysAppearInOrder(plan: seq<Policy>, first: int)
    ensures forall i :: 0 <= i < HowMany(plan) ==> PlanOptions(plan, first)[i].key == first + i
  {
    if plan != [] {
      KeysAppearInOrder(plan[..|plan| - 1], first);
    }
  }

  /** The key a policy wraps with is its own URI's: the first of its keys. */
  lemma {:induction false} PolicyWrapsWithItsOwnKey(plan: seq<Policy>, j: nat, first: int)
    requires j < |plan|
    ensures HowMany(plan[..j]) < HowMany(plan)
    ensures AllUris(plan)[HowMany(plan[..j])] == plan[j].uri
    ensures var key := first + HowMany(plan[..j]);
            PlanOptions(plan, first)[HowMany(plan[..j])] ==
            if plan[j].ns.None? then DefaultKey(key) else NamespaceKey(plan[j].ns.value, key)
  {
    var rest := plan[..|plan| - 1];
    if j < |rest| {
      PolicyWrapsWithItsOwnKey(rest, j, first);
      assert rest[..j] == plan[..j];
    }
  }

  lemma Behind<T>(front: seq<T>, back: seq<T>, i: nat)
    requires i < |back|
    ensures (front + back)[|front| + i] == back[i]
  {
  }

  lemma OwnDecryptKeys(p: Policy, i: nat, first: int)
    requires i < |p.decryptUris|
    ensures Uris(p)[1 + i] == p.decryptUris[i] && PolicyOptions(p, first)[1 + i] == DecryptOnly(first + 1 + i)
  {
  }

  /** The last policy's keys come behind the others'. */
  lemma LastPolicy(plan: seq<Policy>, i: nat, first: int)
    requires plan != [] && i < |Uris(plan[|plan| - 1])|
    ensures var rest, last := plan[..|plan| - 1], plan[|plan| - 1];
            var n := HowMany(rest) + i;
            && n < HowMany(plan) && AllUris(plan)[n] == Uris(last)[i]
            && PlanOptions(plan, first)[n] == PolicyOptions(last, first + HowMany(rest))[i]
  {
    var rest, last := plan[..|plan| - 1], plan[|plan| - 1];
    Behind(AllUris(rest), Uris(last), i);
    Behind(PlanOptions(rest, first), PolicyOptions(last, first + HowMany(rest)), i);
  }

  lemma EarlierPolicies(plan: seq<Policy>, n: nat, first: int)
    requires plan != [] && n < HowMany(plan[..|plan| - 1])
    ensures var rest := plan[..|plan| - 1];
            && n < HowMany(plan) && AllUris(plan)[n] == AllUris(rest)[n]
            && PlanOptions(plan, first)[n] == PlanOptions(rest, first)[n]
  {
  }

  lemma LastDecryptKeys(plan: seq<Policy>, i: nat, first: int)
    requires plan != [] && i < |plan[|plan| - 1].decryptUris|
    ensures var n := HowMany(plan[..|plan| - 1]) + 1 + i;
            && n < HowMany(plan) && AllUris(plan)[n] == plan[|plan| - 1].decryptUris[i]
            && PlanOptions(plan, first)[n] == DecryptOnly(first + n)
  {
    OwnDecryptKeys(plan[|plan| - 1], i, first + HowMany(plan[..|plan| - 1]));
    LastPolicy(plan, 1 + i, first);
  }

  /** Later policies leave the keys of the earlier ones where they are. */
  lemma {:induction false} PrefixKept(plan: seq<Policy>, m: nat, n: nat, first: int)
    requires m <= |plan| && n < HowMany(plan[..m])
    ensures n < HowMany(plan) && AllUris(plan)[n] == AllUris(plan[..m])[n]
    ensures PlanOptions(plan, first)[n] == PlanOptions(plan[..m], first)[n]
  {
    if m == |plan| {
      assert plan[..m] == plan;
    } else {
      assert plan[..|plan| - 1][..m] == plan[..m];
      PrefixKept(plan[..|plan| - 1], m, n, first);
      EarlierPolicies(plan, n, first);
    }
  }

  /** A policy's other keys follow it in order and can only decrypt. */
  lemma DecryptKeysFollow(plan: seq<Policy>, j: nat, i: nat, first: int)
    requires j < |plan| && i < |plan[j].decryptUris|
    ensures var n := HowMany(plan[..j]) + 1 + i;
            && n < HowMany(plan) && AllUris(plan)[n] == plan[j].decryptUris[i]
            && PlanOptions(plan, first)[n] == DecryptOnly(first + n)
  {
    assert plan[..j + 1][..j] == plan[..j];
    LastDecryptKeys(plan[..j + 1], i, first);
    PrefixKept(plan, j + 1, HowMany(plan[..j]) + 1 + i, first);
  }

  /** A key that wraps belongs to a policy of the plan. */
  lemma {:induction false} WrappingKeysArePolicies(plan: seq<Policy>, n: nat, first: int) returns (j: nat)
    requires n < HowMany(plan) && !PlanOptions(plan, first)[n].DecryptOnly?
    ensures j < |plan| && n == HowMany(plan[..j])
  {
    var last := |plan| - 1;
    if n < HowMany(plan[..last]) {
      EarlierPolicies(plan, n, first);
      j := WrappingKeysArePolicies(plan[..last], n, first);
      assert plan[..last][..j] == plan[..j];
    } else {
      j := last;
    }
  }

  /** A wrapping key and the URI it was opened for. */
  ghost predicate WrapsFor(plan: seq<Policy>, first: int, n: nat, ns: Option<string>, uri: string) {
    && n < HowMany(plan) && AllUris(plan)[n] == uri
    && PlanOptions(plan, first)[n] == if ns.None? then DefaultKey(first + n) else NamespaceKey(ns.value, first + n)
  }

  lemma PolicyWraps(plan: seq<Policy>, j: nat, first: int)
    requires j < |plan|
    ensures WrapsFor(plan, first, HowMany(plan[..j]), plan[j].ns, plan[j].uri)
  {
    PolicyWrapsWithItsOwnKey(plan, j, first);
  }

  lemma OverrideWraps(c: Config, order: seq<string>, first: int, ns: string)
    requires Lists(order, c.overrides) && ns in c.overrides
    ensures exists n :: WrapsFor(Plan(c, order), first, n, Some(ns), c.overrides[ns].uri)
  {
    var i :| 0 <= i < |order| && order[i] == ns;
    PolicyWraps(Plan(c, order), |FixedPolicies(c)| + i, first);
  }

  lemma ReplicationWraps(c: Config, order: seq<string>, first: int)
    requires Lists(order, c.overrides) && c.replication.Some?
    ensures exists n :: WrapsFor(Plan(c, order), first, n, Some("$replication"), c.replication.value.uri)
  {
    PolicyWraps(Plan(c, order), 1, first);
  }

  /** The configured keys have their roles: the default, replication's if configured, and each override's. */
  lemma ConfiguredKeysWrap(c: Config, order: seq<string>, first: int)
    requires Lists(order, c.overrides)
    ensures WrapsFor(Plan(c, order), first, 0, None, c.standard.uri)
    ensures c.replication.Some? ==>
              exists n :: WrapsFor(Plan(c, order), first, n, Some("$replication"), c.replication.value.uri)
    ensures forall ns :: ns in c.overrides ==>
              exists n :: WrapsFor(Plan(c, order), first, n, Some(ns), c.overrides[ns].uri)
  {
    PolicyWraps(Plan(c, order), 0, first);
    if c.replication.Some? {
      ReplicationWraps(c, order, first);
    }
    forall ns | ns in c.overrides
      ensures exists n :: WrapsFor(Plan(c, order), first, n, Some(ns), c.overrides[ns].uri)
    {
      OverrideWraps(c, order, first, ns);
    }
  }

  /** And no other namespace gets a key. */
  lemma OnlyConfiguredKeysWrap(c: Config, order: seq<string>, first: int, n: nat)
    requires Lists(order, c.overrides) && n < HowMany(Plan(c, order))
    ensures match PlanOptions(Plan(c, order), first)[n]
            case DefaultKey(_) => n == 0
            case NamespaceKey(ns, _) => ns in c.overrides || (ns == "$replication" && c.replication.Some?)
            case DecryptOnly(_) => true
  {
    var plan := Plan(c, order);
    if !PlanOptions(plan, first)[n].DecryptOnly? {
      var j := WrappingKeysArePolicies(plan, n, first);
      PolicyWrapsWithItsOwnKey(plan, j, first);
      if j >= |FixedPolicies(c)| {
        assert order[j - |FixedPolicies(c)|] in order;
      }
    }
  }

  /**
   createRegistry. It succeeds exactly when every key opens and the registry accepts the
   options; then exactly the plan's keys are newly open, in the options' roles. On any
   failure nothing it opened stays open.
   */
  method CreateRegistry(
    service: KeyService, c: Config, order: seq<string>, works: (string, int) -> bool, accepted: bool)
    returns (ok: bool, options: seq<KeyOption>)
    requires Lists(order, c.overrides)
    requires forall h :: h in service.live ==> h < service.next
    modifies service
    ensures ok <==> AllOpen(AllUris(Plan(c, order)), old(service.next), works) && accepted
    ensures ok ==> options == PlanOptions(Plan(c, order), old(service.next))
    ensures ok ==> service.live == old(service.live) + Elements(Handles(old(service.next), |options|))
    ensures !ok ==> service.live == old(service.live)
  {
    var b := new Builder(service);
    ghost var before, first := service.live, service.next;
    ok, options := b.ToOptions(c, order, works, before, first);
    if !ok || !accepted {
      b.CloseOpened(before);
      ok := false;
    }
  }
}

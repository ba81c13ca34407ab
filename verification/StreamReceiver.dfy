/**
 proxyStreamReceiver, task side: regroup one source message by target shard and deliver
 every group to its owner. The workflow hash is foreign and comes in as a function.
 */
module StreamReceiver {
  import opened Shards
  import opened Delivery
  import opened Options

  datatype RawTask = RawTask(namespaceId: string, workflowId: string, taskId: int)

  datatype SourceTask = SourceTask(sourceTaskId: int, raw: Option<RawTask>)

  /** Where a workflow lives in the target cluster. */
  datatype Placement = Placement(cluster: int, hash: (string, string) -> int)

  /** Tasks without raw info, or without both names, are not routed at all. */
  predicate Routable(t: SourceTask) {
    t.raw.Some? && t.raw.value.namespaceId != "" && t.raw.value.workflowId != ""
  }

  function TargetOf(p: Placement, t: SourceTask): ShardId
    requires Routable(t)
  {
    ShardId(p.cluster, p.hash(t.raw.value.namespaceId, t.raw.value.workflowId))
  }

  predicate RoutedTo(p: Placement, t: SourceTask, target: ShardId) {
    Routable(t) && TargetOf(p, t) == target
  }

  /** The tasks of one target, in source order. */
  function Share(p: Placement, tasks: seq<SourceTask>, target: ShardId): seq<SourceTask> {
    if tasks == [] then []
    else
      var rest, last := tasks[..|tasks| - 1], tasks[|tasks| - 1];
      Share(p, rest, target) + if RoutedTo(p, last, target) then [last] else []
  }

  /** The positions a share is taken from. */
  function Positions(p: Placement, tasks: seq<SourceTask>, target: ShardId): seq<nat> {
    if tasks == [] then []
    else
      var n := |tasks| - 1;
      Positions(p, tasks[..n], target) + if RoutedTo(p, tasks[n], target) then [n] else []
  }

  ghost predicate Rising(at: seq<nat>, n: nat) {
    && (forall k :: 0 <= k < |at| ==> at[k] < n)
    && (forall k, l :: 0 <= k < l < |at| ==> at[k] < at[l])
  }

  lemma {:induction false} PositionsRise(p: Placement, tasks: seq<SourceTask>, target: ShardId)
    ensures Rising(Positions(p, tasks, target), |tasks|)
  {
    if tasks != [] {
      PositionsRise(p, tasks[..|tasks| - 1], target);
    }
  }

  lemma {:induction false} PositionsAreRouted(p: Placement, tasks: seq<SourceTask>, target: ShardId, i: nat)
    requires i < |tasks|
    ensures i in Positions(p, tasks, target) <==>
            && tasks[i].raw.Some? && tasks[i].raw.value.namespaceId != "" && tasks[i].raw.value.workflowId != ""
            && target == ShardId(p.cluster, p.hash(tasks[i].raw.value.namespaceId, tasks[i].raw.value.workflowId))
  {
    var n := |tasks| - 1;
    PositionsRise(p, tasks[..n], target);
    if i < n {
      PositionsAreRouted(p, tasks[..n], target, i);
      assert tasks[..n][i] == tasks[i];
    }
  }

  lemma {:induction false} ShareAt(p: Placement, tasks: seq<SourceTask>, target: ShardId, k: nat)
    requires k < |Positions(p, tasks, target)|
    ensures |Share(p, tasks, target)| == |Positions(p, tasks, target)|
    ensures Positions(p, tasks, target)[k] < |tasks|
    ensures Share(p, tasks, target)[k] == tasks[Positions(p, tasks, target)[k]]
  {
    var n := |tasks| - 1;
    PositionsRise(p, tasks, target);
    ShareLength(p, tasks[..n], target);
    if k < |Positions(p, tasks[..n], target)| {
      ShareAt(p, tasks[..n], target, k);
    }
  }

  lemma {:induction false} ShareLength(p: Placement, tasks: seq<SourceTask>, target: ShardId)
    ensures |Share(p, tasks, target)| == |Positions(p, tasks, target)|
  {
    if tasks != [] {
      ShareLength(p, tasks[..|tasks| - 1], target);
    }
  }

  /** A share is an order-preserving selection of exactly the tasks routed to the target. */
  lemma ShareSelects(p: Placement, tasks: seq<SourceTask>, target: ShardId) returns (at: seq<nat>)
    ensures |at| == |Share(p, tasks, target)|
    ensures forall k :: 0 <= k < |at| ==> at[k] < |tasks| && Share(p, tasks, target)[k] == tasks[at[k]]
    ensures forall k, l :: 0 <= k < l < |at| ==> at[k] < at[l]
    ensures forall i :: 0 <= i < |tasks| ==>
              (i in at <==>
               && tasks[i].raw.Some? && tasks[i].raw.value.namespaceId != "" && tasks[i].raw.value.workflowId != ""
               && target == ShardId(p.cluster, p.hash(tasks[i].raw.value.namespaceId, tasks[i].raw.value.workflowId)))
  {
    at := Positions(p, tasks, target);
    PositionsRise(p, tasks, target);
    ShareLength(p, tasks, target);
    forall k | 0 <= k < |at|
      ensures Share(p, tasks, target)[k] == tasks[at[k]]
    {
      ShareAt(p, tasks, target, k);
    }
    forall i | 0 <= i < |tasks|
      ensures i in at <==>
              && tasks[i].raw.Some? && tasks[i].raw.value.namespaceId != "" && tasks[i].raw.value.workflowId != ""
              && target == ShardId(p.cluster, p.hash(tasks[i].raw.value.namespaceId, tasks[i].raw.value.workflowId))
    {
      PositionsAreRouted(p, tasks, target, i);
    }
  }

  /** A task with both names is in the share of the shard its workflow hashes to. */
  lemma NamedTaskIsShared(
    p: Placement, tasks: seq<SourceTask>, i: nat, namespaceId: string, workflowId: string, id: int)
    requires i < |tasks| && tasks[i].raw == Some(RawTask(namespaceId, workflowId, id))
    requires namespaceId != "" && workflowId != ""
    ensures tasks[i] in Share(p, tasks, ShardId(p.cluster, p.hash(namespaceId, workflowId)))
  {
    var at := ShareSelects(p, tasks, ShardId(p.cluster, p.hash(namespaceId, workflowId)));
    assert i in at;
    var k :| 0 <= k < |at| && at[k] == i;
  }

  /** A shared task comes from the message, has both names, and its workflow hashes to the shard. */
  lemma SharedTaskIsNamed(p: Placement, tasks: seq<SourceTask>, target: ShardId, task: SourceTask)
    requires task in Share(p, tasks, target)
    ensures task in tasks && task.raw.Some?
    ensures task.raw.value.namespaceId != "" && task.raw.value.workflowId != ""
    ensures target == ShardId(p.cluster, p.hash(task.raw.value.namespaceId, task.raw.value.workflowId))
  {
    var at := ShareSelects(p, tasks, target);
    var k :| 0 <= k < |at| && Share(p, tasks, target)[k] == task;
    assert at[k] in at;
  }

  /**
   Regroup a message's tasks by target shard: every task with both names is in the group of the
   shard its workflow hashes to, and nothing else is in any group.
   */
  method GroupByTarget(p: Placement, tasks: seq<SourceTask>) returns (groups: map<ShardId, seq<SourceTask>>)
    ensures forall t :: t in groups <==> Share(p, tasks, t) != []
    ensures forall t :: t in groups ==> groups[t] == Share(p, tasks, t)
    ensures forall i, ns, wf, id ::
              0 <= i < |tasks| && ns != "" && wf != "" && tasks[i].raw == Some(RawTask(ns, wf, id)) ==>
                var t := ShardId(p.cluster, p.hash(ns, wf)); t in groups && tasks[i] in groups[t]
    ensures forall t, x :: t in groups && x in groups[t] ==>
              && x in tasks && x.raw.Some? && x.raw.value.namespaceId != "" && x.raw.value.workflowId != ""
              && t == ShardId(p.cluster, p.hash(x.raw.value.namespaceId, x.raw.value.workflowId))
  {
    groups := map[];
    for i := 0 to |tasks|
      invariant forall t :: t in groups <==> Share(p, tasks[..i], t) != []
      invariant forall t :: t in groups ==> groups[t] == Share(p, tasks[..i], t)
    {
      assert tasks[..i + 1][..i] == tasks[..i];
      if Routable(tasks[i]) {
        var target := TargetOf(p, tasks[i]);
        groups := groups[target := (if target in groups then groups[target] else []) + [tasks[i]]];
      }
    }
    assert tasks[..|tasks|] == tasks;
    forall i, ns, wf, id | 0 <= i < |tasks| && ns != "" && wf != "" && tasks[i].raw == Some(RawTask(ns, wf, id))
      ensures tasks[i] in Share(p, tasks, ShardId(p.cluster, p.hash(ns, wf)))
    {
      NamedTaskIsShared(p, tasks, i, ns, wf, id);
    }
    forall t, x | t in groups && x in groups[t]
      ensures x in tasks && x.raw.Some? && x.raw.value.namespaceId != "" && x.raw.value.workflowId != ""
      ensures t == ShardId(p.cluster, p.hash(x.raw.value.namespaceId, x.raw.value.workflowId))
    {
      SharedTaskIsNamed(p, tasks, t, x);
    }
  }

  /** A batch as it is put in the channel of its target's owner. */
  datatype Routed = Routed(target: ShardId, tasks: seq<SourceTask>, exclusiveHigh: int)

  /** The whole share of one target, under the watermark of its last task. */
  ghost predicate IsGroup(p: Placement, tasks: seq<SourceTask>, d: Routed) {
    && d.tasks == Share(p, tasks, d.target) != []
    && Routable(d.tasks[|d.tasks| - 1])
    && d.exclusiveHigh == d.tasks[|d.tasks| - 1].raw.value.taskId + 1
  }

  function TargetsOf(delivered: seq<Routed>): (ts: seq<ShardId>)
    ensures |ts| == |delivered|
  {
    seq(|delivered|, i requires 0 <= i < |delivered| => delivered[i].target)
  }

  /**
   Route one message: group its tasks and retry over the groups until all are delivered or
   a shutdown is seen. Every routable task is in exactly one group, and each group is
   delivered at most once, exactly once when the loop completes.
   */
  method Route(p: Placement, tasks: seq<SourceTask>, rounds: seq<set<ShardId>>)
    returns (delivered: seq<Routed>, completed: bool)
    ensures forall i :: 0 <= i < |delivered| ==> IsGroup(p, tasks, delivered[i])
    ensures NoRepeats(TargetsOf(delivered))
    ensures forall t :: t in TargetsOf(delivered) <==> Share(p, tasks, t) != [] && Accepted(rounds, t)
    ensures completed <==> forall t :: Share(p, tasks, t) != [] ==> Accepted(rounds, t)
    ensures forall d, x :: d in delivered && x in d.tasks ==>
              && x in tasks && x.raw.Some? && x.raw.value.namespaceId != "" && x.raw.value.workflowId != ""
              && d.target == ShardId(p.cluster, p.hash(x.raw.value.namespaceId, x.raw.value.workflowId))
    ensures forall d :: d in delivered ==>
              && d.tasks == Share(p, tasks, d.target) != [] && d.tasks[|d.tasks| - 1].raw.Some?
              && d.exclusiveHigh == d.tasks[|d.tasks| - 1].raw.value.taskId + 1
    ensures completed ==> forall i, ns, wf, id ::
                            0 <= i < |tasks| && ns != "" && wf != "" && tasks[i].raw == Some(RawTask(ns, wf, id)) ==>
                              exists d :: d in delivered && tasks[i] in d.tasks
  {
    var groups := GroupByTarget(p, tasks);
    var sent;
    sent, completed := DeliverAll(groups, rounds);
    delivered := Pack(p, tasks, groups, sent);
    forall i, ns, wf, id | completed && 0 <= i < |tasks| && ns != "" && wf != ""
                           && tasks[i].raw == Some(RawTask(ns, wf, id))
      ensures exists d :: d in delivered && tasks[i] in d.tasks
    {
      var t := ShardId(p.cluster, p.hash(ns, wf));
      assert t in groups && tasks[i] in groups[t] && t in TargetsOf(delivered);
      var k :| 0 <= k < |delivered| && delivered[k].target == t;
      assert IsGroup(p, tasks, delivered[k]);
    }
  }

  /** The messages handed over for the shards that took one. */
  method Pack(p: Placement, ghost tasks: seq<SourceTask>, groups: map<ShardId, seq<SourceTask>>, sent: seq<ShardId>)
    returns (delivered: seq<Routed>)
    requires forall t :: t in sent ==> t in groups && groups[t] == Share(p, tasks, t) != []
    ensures TargetsOf(delivered) == sent
    ensures forall i :: 0 <= i < |delivered| ==> IsGroup(p, tasks, delivered[i])
  {
    delivered := [];
    for i := 0 to |sent|
      invariant TargetsOf(delivered) == sent[..i]
      invariant forall k :: 0 <= k < |delivered| ==> IsGroup(p, tasks, delivered[k])
    {
      assert sent[i] in sent;
      var group := groups[sent[i]];
      LastIsRoutable(p, tasks, sent[i]);
      delivered := delivered + [Routed(sent[i], group, group[|group| - 1].raw.value.taskId + 1)];
    }
  }

  lemma {:induction false} LastIsRoutable(p: Placement, tasks: seq<SourceTask>, target: ShardId)
    requires Share(p, tasks, target) != []
    ensures var share := Share(p, tasks, target); Routable(share[|share| - 1])
  {
    var at := ShareSelects(p, tasks, target);
    assert at[|at| - 1] in at;
  }
}

/** Identifiers shared by every component of the proxy. */
module Shards {
  /** A history shard of one Temporal cluster (history.ClusterShardID). */
  datatype ShardId = ShardId(cluster: int, shard: int)

  /** The zero value, which the ID ring treats as "no source shard". */
  const NO_SHARD := ShardId(0, 0)
}

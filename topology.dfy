/** Cluster-type classification: from the lengths of the provisioned
    address lists and the number of availability zones, pick the cluster
    type, the node classes that get a pagepool entry, and whether
    synchronous replication is configured. Combined is the fall-through. */
module Topology {
  import opened Cluster

  datatype Classification = Classification(
    clusterType: ClusterType,
    nodeClasses: seq<NodeClass>,  // passed to the scale config record
    replicaConfig: bool)          // scale_sync_replication_config

  function Classify(computeCount: nat, storageCount: nat, descCount: nat, azCount: nat): (c: Classification)
    ensures c.clusterType == Compute <==> storageCount == 0 && computeCount > 0
    ensures c.clusterType == Storage <==>
              computeCount == 0 && storageCount > 0 && (azCount == 1 || (azCount > 1 && descCount > 0))
    ensures c.replicaConfig <==> c.clusterType != Compute && azCount > 1
    ensures Distinct(c.nodeClasses) && |c.nodeClasses| >= 1
    ensures ComputeNodeGrp in c.nodeClasses <==> c.clusterType != Storage
    ensures StorageNodeGrp in c.nodeClasses <==> c.clusterType != Compute
    ensures ComputeDescNodeGrp in c.nodeClasses <==> c.clusterType != Compute && azCount != 1
    ensures c.nodeClasses[0] == (if c.clusterType == Compute then ComputeNodeGrp else StorageNodeGrp)
    ensures ComputeDescNodeGrp in c.nodeClasses ==> c.nodeClasses[|c.nodeClasses| - 1] == ComputeDescNodeGrp
  {
    if storageCount == 0 && computeCount > 0 then
      Classification(Compute, [ComputeNodeGrp], false)
    else if computeCount == 0 && storageCount > 0 && azCount == 1 then
      Classification(Storage, [StorageNodeGrp], azCount > 1)
    else if computeCount == 0 && storageCount > 0 && azCount > 1 && descCount > 0 then
      Classification(Storage, [StorageNodeGrp, ComputeDescNodeGrp], azCount > 1)
    else if azCount == 1 then
      Classification(Combined, [StorageNodeGrp, ComputeNodeGrp], azCount > 1)
    else
      Classification(Combined, [StorageNodeGrp, ComputeNodeGrp, ComputeDescNodeGrp], azCount > 1)
  }

  /** The two inputs that reach the combined branch without being a mix of
      compute and storage nodes: no nodes at all, and a multi-zone
      storage-only cluster that has no descriptor node. */
  lemma CombinedFallThrough(storageCount: nat, descCount: nat, azCount: nat)
    ensures Classify(0, 0, descCount, azCount).clusterType == Combined
    ensures azCount > 1 && storageCount > 0 ==>
              Classify(0, storageCount, 0, azCount).clusterType == Combined
  {
  }
}

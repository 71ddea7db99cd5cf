/** Quorum and manager sizing, and the pagepool (memory pool) size.
    All of it is integer arithmetic over the node counts and the instance
    memory, lifted out of the script's main block. */
module Sizing {
  import opened Cluster

  /** `manager_count`: two manager-eligible nodes per list, whatever the
      cluster size. */
  const ManagerCount: nat := 2

  /** The node count the quorum table is applied to. Descriptor
      (tie-breaker) nodes only exist to break ties between zones, so they
      count only when the cluster spans more than one availability zone. */
  function TotalNodeCount(azCount: nat, computeCount: nat, storageCount: nat, descCount: nat): (total: nat)
    ensures computeCount + storageCount <= total <= computeCount + storageCount + descCount
    ensures total == computeCount + storageCount <==> azCount <= 1 || descCount == 0
    ensures azCount > 1 ==> total == computeCount + storageCount + descCount
  {
    if azCount > 1 then computeCount + descCount + storageCount
    else computeCount + storageCount
  }

  /** The quorum size for a cluster of `total` nodes: every node while there
      are fewer than four, then an odd quorum of 3, 5 or 7. */
  function QuorumCount(total: nat): (q: nat)
    ensures q <= total
    ensures q == total <==> total < 4
    ensures total >= 3 ==> 3 <= q <= 7 && q % 2 == 1
  {
    if total < 4 then total
    else if total < 10 then 3
    else if total < 19 then 5
    else 7
  }

  /** The quorum table, band by band. */
  lemma QuorumBands(total: nat)
    ensures total <= 3 ==> QuorumCount(total) == total
    ensures 4 <= total <= 9 ==> QuorumCount(total) == 3
    ensures 10 <= total <= 18 ==> QuorumCount(total) == 5
    ensures 19 <= total ==> QuorumCount(total) == 7
  {
  }

  /** A bigger cluster never gets a smaller quorum. */
  lemma QuorumMonotone(smaller: nat, larger: nat)
    requires smaller <= larger
    ensures QuorumCount(smaller) <= QuorumCount(larger)
  {
  }

  /** Python's `int()` applied to a quotient: truncation toward zero. */
  function TruncDiv(a: int, b: nat): (q: int)
    requires b > 0
    ensures a >= 0 ==> q * b <= a < q * b + b
    ensures a < 0 ==> q * b - b < a <= q * b
  {
    if a >= 0 then a / b else -((-a) / b)
  }

  /** The pagepool before the cap: memory in MiB turned into MB
      (x 1.048576), then into whole GB (x 0.001), then a quarter of it
      (x 25 x 0.01), each step truncated, and at least 1. */
  function PagepoolCandidate(memorySize: int): (gb: int)
    ensures gb >= 1
  {
    var sizeMb := TruncDiv(memorySize * 1048576, 1000000);
    var sizeGb := TruncDiv(sizeMb, 1000);
    Max(TruncDiv(sizeGb * 25, 100), 1)
  }

  /** `calculate_pagepool`, as a number of GB (the script appends "G"). */
  function CalculatePagepool(memorySize: int, maxPagepoolGb: int): (pagepool: int)
    ensures pagepool <= maxPagepoolGb && pagepool <= PagepoolCandidate(memorySize)
    ensures pagepool == maxPagepoolGb || pagepool == PagepoolCandidate(memorySize)
    ensures maxPagepoolGb >= 1 ==> pagepool >= 1
  {
    var candidate := PagepoolCandidate(memorySize);
    if candidate > maxPagepoolGb then maxPagepoolGb else candidate
  }

  /** The cap is hit exactly when the computed quarter reaches it. */
  lemma PagepoolCapped(memorySize: int, maxPagepoolGb: int)
    ensures CalculatePagepool(memorySize, maxPagepoolGb) == maxPagepoolGb
            <==> PagepoolCandidate(memorySize) >= maxPagepoolGb
  {
  }

  /** The three truncations compose to a single one: the pagepool is a
      quarter of the memory in decimal GB, rounded down, and at least 1;
      a negative memory size gives the minimum. */
  lemma PagepoolIsQuarterOfMemory(memorySize: int)
    ensures memorySize >= 0 ==> PagepoolCandidate(memorySize) == Max(memorySize * 1048576 / 4000000000, 1)
    ensures memorySize < 0 ==> PagepoolCandidate(memorySize) == 1
  {
    if memorySize >= 0 {
      var scaled := memorySize * 1048576;
      assert scaled / 1000000 / 1000 == scaled / 1000000000;
      assert scaled / 1000000000 * 25 / 100 == scaled / 1000000000 / 4;
      assert scaled / 1000000000 / 4 == scaled / 4000000000;
    }
  }

  /** Two worked values: 16 GiB of memory with a 100 GB ceiling gives 4 GB;
      1 GiB with a 1 GB ceiling gives the 1 GB minimum. */
  lemma PagepoolExamples()
    ensures CalculatePagepool(16384, 100) == 4
    ensures CalculatePagepool(1024, 1) == 1
  {
  }
}

/** Shared vocabulary of the inventory generator: the cluster type chosen from
    the provisioning output, the node classes written to the inventory, and a
    few sequence helpers used by the role and disk models. */
module Cluster {

  datatype Option<T> = None | Some(value: T)

  /** The `cls_type` string: "compute", "storage" or "combined". Whether a
      storage cluster spans one or several availability zones is decided by
      the zone count that travels beside it. */
  datatype ClusterType = Compute | Storage | Combined

  /** The `scale_nodeclass` values: "computenodegrp", "storagenodegrp" and
      "computedescnodegrp". */
  datatype NodeClass = ComputeNodeGrp | StorageNodeGrp | ComputeDescNodeGrp

  predicate Distinct<T(==)>(s: seq<T>)
  {
    forall i, j :: 0 <= i < j < |s| ==> s[i] != s[j]
  }

  function Min(a: int, b: int): int { if a <= b then a else b }

  function Max(a: int, b: int): int { if a >= b then a else b }

  /** Number of `true` entries of `s`. */
  function CountTrue(s: seq<bool>): (n: nat)
    ensures n <= |s|
  {
    if s == [] then 0
    else CountTrue(s[..|s| - 1]) + (if s[|s| - 1] then 1 else 0)
  }

  /** A flag sequence that is set exactly on its first `k` positions counts
      `min(k, |s|)` (and none when `k` is not positive). */
  lemma {:induction false} CountTruePrefix(s: seq<bool>, k: int)
    requires forall j :: 0 <= j < |s| ==> (s[j] <==> j < k)
    ensures CountTrue(s) == Max(Min(k, |s|), 0)
  {
    if s != [] {
      var init := s[..|s| - 1];
      assert forall j :: 0 <= j < |init| ==> init[j] == s[j];
      CountTruePrefix(init, k);
    }
  }

  /** A flag sequence that is set only below position `k` counts at most `k`. */
  lemma {:induction false} CountTrueBelow(s: seq<bool>, k: nat)
    requires forall j :: 0 <= j < |s| && s[j] ==> j < k
    ensures CountTrue(s) <= k
  {
    if s != [] {
      var init := s[..|s| - 1];
      assert forall j :: 0 <= j < |init| ==> init[j] == s[j];
      if |s| - 1 < k {
        assert CountTrue(init) <= |init|;
      } else {
        CountTrueBelow(init, k);
      }
    }
  }

  lemma {:induction false} CountTrueAppend(a: seq<bool>, b: seq<bool>)
    ensures CountTrue(a + b) == CountTrue(a) + CountTrue(b)
    decreases |b|
  {
    if b == [] {
      assert a + b == a;
    } else {
      var b' := b[..|b| - 1];
      assert (a + b)[..|a + b| - 1] == a + b';
      CountTrueAppend(a, b');
    }
  }
}

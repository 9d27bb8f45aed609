// Small concrete clusters, for the inputs at which an intended property fails.
module Examples {
  import opened Tools
  import opened Types
  import opened Api
  import opened PodControl

  const TEMPLATE := ClaimTemplate([], "", "", "1Gi")

  function SomeSpec(size: Size, template: Option<ClaimTemplate>): Spec {
    Spec(size, NoPolicy, false, "data", template, [])
  }

  function RunningPodSlot(i: nat): PodSlot
    requires i <= 0x7fff_ffff
  {
    PodSlot(Dashed("db", i), Running, i, "")
  }

  function BoundClaimSlot(i: nat): ClaimSlot
    requires i <= 0x7fff_ffff
  {
    ClaimSlot(i, Dashed("data-db", i), Bound, "1Gi", [], "", "")
  }

  /** A parent "db" with n Running slots. */
  function SomeParent(n: nat, size: Size, template: Option<ClaimTemplate>): (p: Parent)
    requires n <= 3
    ensures WellFormed(p) && |p.pods| == |p.claims| == n
    ensures forall i :: 0 <= i < n ==> p.pods[i] == RunningPodSlot(i) && p.claims[i] == BoundClaimSlot(i)
  {
    assert "data" + "-" + "db" == "data-db";
    Parent("db", 1, false, [GROUP_VERSION], None, SomeSpec(size, template),
      seq(n, i requires 0 <= i < n => RunningPodSlot(i)), seq(n, i requires 0 <= i < n => BoundClaimSlot(i)))
  }

  function SomeWorld(p: Parent, pods: map<string, Pod>, claims: map<string, Claim>): World {
    World(pods, claims, map[], map[], {}, Some(p), 0, 60, 60, {}, [])
  }

  /** A ready pod and a pending one, of slot i. */
  function UpPod(p: Parent, i: nat): Pod {
    TemplatePod(0, p, i).(phase := Running, conditions := [PodCondition(true, true)])
  }

  function DownPod(p: Parent, i: nat): Pod {
    TemplatePod(0, p, i)
  }
}

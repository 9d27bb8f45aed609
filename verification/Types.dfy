// The objects the controller reads and writes, as values: api/v1/statefulpod_types.go and the
// fields of core/v1 objects that the controller looks at.
module Types {
  import opened Tools

  datatype Option<+T> = None | Some(value: T)

  type Int32 = x: int | -0x8000_0000 <= x < 0x8000_0000

  // Spec.Size: an int32 with the validation marker Minimum=1.
  type Size = x: int | 1 <= x < 0x8000_0000 witness 1

  // corev1.PodPhase, with the three phases the controller adds for its slots.
  datatype PodPhase =
    | PodPending | Running | Succeeded | Failed | Unknown
    | Preparing | Deleting | CreateTimeOut

  // corev1.PersistentVolumeClaimPhase; NoPhase is "" and ClaimDeleting is the controller's own.
  datatype ClaimPhase = NoPhase | ClaimPending | Bound | Lost | ClaimDeleting

  datatype VolumePhase = VolumePending | Available | VolumeBound | Released | VolumeFailed

  datatype ReclaimPolicy = NoPolicy | Retain | Recycle | Delete

  type Annotations = map<string, string>

  const GROUP_VERSION := "iapetos.foundary-cloud.io/v1"
  const PARENT_NAME := "parentName"
  const INDEX := "index"
  const COCKROACH_DB := "cockrochDB"
  const NODE_UNHEALTHY := "nodeUnhealthy"
  const REDIS_SLAVE := "redis-slave"
  const PROVISION_ON_NODE := "kubevirt.io/provisionOnNode"

  datatype PodCondition = PodCondition(isReadyType: bool, isTrue: bool)

  datatype Pod = Pod(
    name: string,
    version: nat,
    annotations: Annotations,
    terminating: bool,
    phase: PodPhase,
    conditions: seq<PodCondition>,
    nodeName: string,
    created: int,
    mountedClaim: string)

  datatype Claim = Claim(
    name: string,
    annotations: Annotations,
    terminating: bool,
    phase: ClaimPhase,
    request: string,
    storageClass: string,
    volumeName: string)

  datatype Volume = Volume(
    annotations: Annotations,
    policy: ReclaimPolicy,
    storageClass: string,
    finalizers: seq<string>,
    claimRef: Option<string>,
    phase: VolumePhase)

  // A node through the last element of its (non-empty) condition list.
  datatype Node = Node(lastIsTrue: bool, lastTransition: int)

  datatype PodSlot = PodSlot(podName: string, status: PodPhase, index: Int32, nodeName: string)

  datatype ClaimSlot = ClaimSlot(
    index: Int32,
    claimName: string,
    status: ClaimPhase,
    capacity: string,
    accessModes: seq<string>,
    storageClass: string,
    volumeName: string)

  datatype ClaimTemplate = ClaimTemplate(
    accessModes: seq<string>, storageClass: string, volumeName: string, request: string)

  // claimName is PodTemplate.Volumes[0].PersistentVolumeClaim.ClaimName.
  datatype Spec = Spec(
    size: Size,
    policy: ReclaimPolicy,
    hasService: bool,
    claimName: string,
    claimTemplate: Option<ClaimTemplate>,
    volumeNames: seq<string>)

  // A StatefulPod object: the stored one, or a reconciler's copy of it.
  datatype Parent = Parent(
    name: string,
    version: nat,
    deletionMarked: bool,
    finalizers: seq<string>,
    annotations: Option<Annotations>,
    spec: Spec,
    pods: seq<PodSlot>,
    claims: seq<ClaimSlot>)

  function AnnotationOr(m: Annotations, key: string): string {
    if key in m then m[key] else ""
  }

  // ----- names: services/pod/pod.go, services/resource.go -----

  function PodName(p: Parent, i: nat): string {
    Dashed(p.name, i)
  }

  /** The claim-name prefix SetPVCName uses: the template's, or "data" when that is empty. */
  function ClaimBase(p: Parent): string {
    if p.spec.claimName == "" then "data" else p.spec.claimName
  }

  function ClaimName(p: Parent, i: nat): string {
    Dashed(ClaimBase(p) + "-" + p.name, i)
  }

  /** The side effect of SetPVCName: the template's claim name is defaulted in place. */
  function Defaulted(p: Parent): Parent {
    p.(spec := p.spec.(claimName := ClaimBase(p)))
  }

  function ServiceName(p: Parent): string {
    p.name + "-service"
  }

  // ----- the shape every writer of the two slot lists must keep -----

  ghost predicate SlotsInLine(name: string, pods: seq<PodSlot>) {
    forall i :: 0 <= i < |pods| ==> pods[i].index == i && pods[i].podName == Dashed(name, i)
  }

  ghost predicate ClaimsInLine(prefix: string, claims: seq<ClaimSlot>) {
    forall i :: 0 <= i < |claims| ==>
      claims[i].index == i && claims[i].claimName in {Dashed(prefix, i), "none"}
  }

  ghost predicate WellFormed(p: Parent) {
    && |p.pods| == |p.claims| <= 0x7fff_ffff
    && SlotsInLine(p.name, p.pods)
    && ClaimsInLine(ClaimBase(p) + "-" + p.name, p.claims)
  }

  lemma PodNamesDistinct(p: Parent)
    ensures forall i: nat, j: nat :: PodName(p, i) == PodName(p, j) ==> i == j
  {
    forall i: nat, j: nat | PodName(p, i) == PodName(p, j) ensures i == j {
      DashedInjective(p.name, i, p.name, j);
    }
  }

  lemma ClaimNamesDistinct(p: Parent)
    ensures forall i: nat, j: nat :: ClaimName(p, i) == ClaimName(p, j) ==> i == j
  {
    forall i: nat, j: nat | ClaimName(p, i) == ClaimName(p, j) ensures i == j {
      var prefix := ClaimBase(p) + "-" + p.name;
      DashedInjective(prefix, i, prefix, j);
    }
  }
}

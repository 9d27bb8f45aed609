// The API server as the controller sees it. Reads are reliable; each write to a child object is a
// numbered call, and `faults` holds the numbers of the calls that fail.
module Api {
  import opened Tools
  import opened Types

  datatype Verb =
    | CreatePod | DeletePod | ForceDeletePod | AnnotatePod
    | CreateClaim | DeleteClaim | ForceDeleteClaim
    | UpdateVolume | CreateService

  datatype Call = Call(verb: Verb, name: string, ok: bool)

  datatype World = World(
    pods: map<string, Pod>,
    claims: map<string, Claim>,
    volumes: map<string, Volume>,
    nodes: map<string, Node>,
    services: set<string>,
    stored: Option<Parent>,
    now: int,
    podTimeout: int,
    nodeTimeout: int,
    faults: set<nat>,
    log: seq<Call>)

  // The world together with a reconciler's own copy of the parent.
  datatype Ctx = Ctx(w: World, p: Parent)

  // ctrl.Result: nothing more to do, Requeue: true, or RequeueAfter: WaitTime.
  datatype Outcome = Done | Requeue | RequeueAfterWait

  // ----- writes -----

  predicate Succeeds(w: World) {
    |w.log| !in w.faults
  }

  function Logged(w: World, verb: Verb, name: string, ok: bool): World {
    w.(log := w.log + [Call(verb, name, ok)])
  }

  function CreatePodIn(w: World, pod: Pod): (World, bool) {
    var ok := Succeeds(w) && pod.name !in w.pods;
    var w1 := Logged(w, CreatePod, pod.name, ok);
    (if ok then w1.(pods := w.pods[pod.name := pod]) else w1, ok)
  }

  /** A pod with its deletion mark: the first delete sets it, as a new version; a later one changes nothing. */
  function Terminated(pod: Pod): Pod {
    if pod.terminating then pod else pod.(terminating := true, version := pod.version + 1)
  }

  /** A graceful delete: the object gets its deletion mark, and an object that is gone is no error. */
  function DeletePodIn(w: World, name: string): (World, bool) {
    var ok := Succeeds(w);
    var w1 := Logged(w, DeletePod, name, ok);
    (if ok && name in w.pods
     then w1.(pods := w.pods[name := Terminated(w.pods[name])]) else w1, ok)
  }

  /** A delete with grace period 0: the pod is gone at once, and an absent pod is an error. */
  function ForceDeletePodIn(w: World, name: string): (World, bool) {
    var ok := Succeeds(w) && name in w.pods;
    var w1 := Logged(w, ForceDeletePod, name, ok);
    (if ok then w1.(pods := w.pods - {name}) else w1, ok)
  }

  /** What the server stores of an update: a new version, and its own deletion mark. */
  function Updated(was: Pod, pod: Pod): Pod {
    pod.(version := pod.version + 1, terminating := was.terminating)
  }

  /** PodService.Update: only a copy at the stored version is sent. */
  function UpdatePodIn(w: World, pod: Pod): (World, bool) {
    if pod.name in w.pods && w.pods[pod.name].version == pod.version then
      var ok := Succeeds(w);
      var w1 := Logged(w, AnnotatePod, pod.name, ok);
      (if ok then w1.(pods := w.pods[pod.name := Updated(w.pods[pod.name], pod)]) else w1, ok)
    else (w, false)
  }

  function CreateClaimIn(w: World, claim: Claim): (World, bool) {
    var ok := Succeeds(w) && claim.name !in w.claims;
    var w1 := Logged(w, CreateClaim, claim.name, ok);
    (if ok then w1.(claims := w.claims[claim.name := claim]) else w1, ok)
  }

  function DeleteClaimIn(w: World, name: string): (World, bool) {
    var ok := Succeeds(w);
    var w1 := Logged(w, DeleteClaim, name, ok);
    (if ok && name in w.claims
     then w1.(claims := w.claims[name := w.claims[name].(terminating := true)]) else w1, ok)
  }

  /** Grace period 0 does not lift a claim's protection finalizer: it is marked, and goes later. */
  function ForceDeleteClaimIn(w: World, name: string): (World, bool) {
    var ok := Succeeds(w) && name in w.claims;
    var w1 := Logged(w, ForceDeleteClaim, name, ok);
    (if ok then w1.(claims := w.claims[name := w.claims[name].(terminating := true)]) else w1, ok)
  }

  function UpdateVolumeIn(w: World, name: string, volume: Volume): (World, bool) {
    var ok := Succeeds(w) && name in w.volumes;
    var w1 := Logged(w, UpdateVolume, name, ok);
    (if ok then w1.(volumes := w.volumes[name := volume]) else w1, ok)
  }

  function CreateServiceIn(w: World, name: string): (World, bool) {
    var ok := Succeeds(w) && name !in w.services;
    var w1 := Logged(w, CreateService, name, ok);
    (if ok then w1.(services := w.services + {name}) else w1, ok)
  }

  /** StatefulPodService.Update once its retries have ended: the copy replaces the stored object
      whole. The server owns the version and the deletion mark, drops a marked object that has no
      finalizer left, and answers with what it stored; an object that is gone stays gone. */
  function Put(c: Ctx): Ctx {
    if c.w.stored.None? then c
    else
      var was := c.w.stored.value;
      var q := c.p.(version := was.version + 1, deletionMarked := was.deletionMarked);
      Ctx(c.w.(stored := if q.deletionMarked && q.finalizers == [] then None else Some(q)), q)
  }

  // ----- the same, as objects that are updated in place -----

  class ApiServer {
    var pods: map<string, Pod>
    var claims: map<string, Claim>
    var volumes: map<string, Volume>
    var nodes: map<string, Node>
    var services: set<string>
    var stored: Option<Parent>
    var now: int
    const podTimeout: int
    const nodeTimeout: int
    const faults: set<nat>
    var log: seq<Call>

    ghost function View(): World
      reads this
    {
      World(pods, claims, volumes, nodes, services, stored, now, podTimeout, nodeTimeout, faults, log)
    }

    constructor (w: World)
      ensures View() == w
    {
      pods, claims, volumes, nodes, services := w.pods, w.claims, w.volumes, w.nodes, w.services;
      stored, now, podTimeout, nodeTimeout := w.stored, w.now, w.podTimeout, w.nodeTimeout;
      faults, log := w.faults, w.log;
    }

    method Record(verb: Verb, name: string, ok: bool)
      modifies `log
      ensures View() == Logged(old(View()), verb, name, ok)
    {
      log := log + [Call(verb, name, ok)];
    }

    method CreatePod(pod: Pod) returns (ok: bool)
      modifies this
      ensures (View(), ok) == CreatePodIn(old(View()), pod)
    {
      ok := |log| !in faults && pod.name !in pods;
      Record(Verb.CreatePod, pod.name, ok);
      if ok { pods := pods[pod.name := pod]; }
    }

    method DeletePod(name: string) returns (ok: bool)
      modifies this
      ensures (View(), ok) == DeletePodIn(old(View()), name)
    {
      ok := |log| !in faults;
      Record(Verb.DeletePod, name, ok);
      if ok && name in pods { pods := pods[name := Terminated(pods[name])]; }
    }

    method ForceDeletePod(name: string) returns (ok: bool)
      modifies this
      ensures (View(), ok) == ForceDeletePodIn(old(View()), name)
    {
      ok := |log| !in faults && name in pods;
      Record(Verb.ForceDeletePod, name, ok);
      if ok { pods := pods - {name}; }
    }

    method UpdatePod(pod: Pod) returns (ok: bool)
      modifies this
      ensures (View(), ok) == UpdatePodIn(old(View()), pod)
    {
      if pod.name in pods && pods[pod.name].version == pod.version {
        ok := |log| !in faults;
        Record(Verb.AnnotatePod, pod.name, ok);
        if ok { pods := pods[pod.name := Updated(pods[pod.name], pod)]; }
      } else {
        ok := false;
      }
    }

    method CreateClaim(claim: Claim) returns (ok: bool)
      modifies this
      ensures (View(), ok) == CreateClaimIn(old(View()), claim)
    {
      ok := |log| !in faults && claim.name !in claims;
      Record(Verb.CreateClaim, claim.name, ok);
      if ok { claims := claims[claim.name := claim]; }
    }

    method DeleteClaim(name: string) returns (ok: bool)
      modifies this
      ensures (View(), ok) == DeleteClaimIn(old(View()), name)
    {
      ok := |log| !in faults;
      Record(Verb.DeleteClaim, name, ok);
      if ok && name in claims { claims := claims[name := claims[name].(terminating := true)]; }
    }

    method ForceDeleteClaim(name: string) returns (ok: bool)
      modifies this
      ensures (View(), ok) == ForceDeleteClaimIn(old(View()), name)
    {
      ok := |log| !in faults && name in claims;
      Record(Verb.ForceDeleteClaim, name, ok);
      if ok { claims := claims[name := claims[name].(terminating := true)]; }
    }

    method UpdateVolume(name: string, volume: Volume) returns (ok: bool)
      modifies this
      ensures (View(), ok) == UpdateVolumeIn(old(View()), name, volume)
    {
      ok := |log| !in faults && name in volumes;
      Record(Verb.UpdateVolume, name, ok);
      if ok { volumes := volumes[name := volume]; }
    }

    method CreateService(name: string) returns (ok: bool)
      modifies this
      ensures (View(), ok) == CreateServiceIn(old(View()), name)
    {
      ok := |log| !in faults && name !in services;
      Record(Verb.CreateService, name, ok);
      if ok { services := services + {name}; }
    }
  }

  // A reconciler's *StatefulPod: the copy whose lists, finalizers and templates it edits.
  class StatefulPod {
    const name: string
    var resourceVersion: nat
    var deletionMarked: bool
    var finalizers: seq<string>
    var annotations: Option<Annotations>
    var spec: Spec
    var podStatusMes: seq<PodSlot>
    var pvcStatusMes: seq<ClaimSlot>

    ghost function View(): Parent
      reads this
    {
      Parent(name, resourceVersion, deletionMarked, finalizers, annotations, spec, podStatusMes, pvcStatusMes)
    }

    /** Client.Get into a fresh object. */
    constructor (p: Parent)
      ensures View() == p
    {
      name, resourceVersion, deletionMarked, finalizers := p.name, p.version, p.deletionMarked, p.finalizers;
      annotations, spec, podStatusMes, pvcStatusMes := p.annotations, p.spec, p.pods, p.claims;
    }

    method Snapshot() returns (p: Parent)
      ensures p == View()
    {
      p := Parent(name, resourceVersion, deletionMarked, finalizers, annotations, spec, podStatusMes, pvcStatusMes);
    }

    /** SetPVCName, with the default it writes back into the pod template. */
    method SetPVCName(index: nat) returns (claim: string)
      modifies `spec
      ensures View() == Defaulted(old(View()))
      ensures claim == ClaimName(View(), index) == ClaimName(old(View()), index)
    {
      if spec.claimName == "" {
        spec := spec.(claimName := "data");
      }
      claim := Dashed(spec.claimName + "-" + name, index);
    }
  }

  ghost function Both(api: ApiServer, sfp: StatefulPod): Ctx
    reads api, sfp
  {
    Ctx(api.View(), sfp.View())
  }
}

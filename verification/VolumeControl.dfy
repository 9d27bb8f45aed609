// controllers/statefulpod/child_resource_controller/pv_controller/pv.go.
module VolumeControl {
  import opened Types
  import opened Api

  predicate Redis(volume: Volume) {
    REDIS_SLAVE in volume.annotations
  }

  predicate RetainCounts(w: World, name: string) {
    name in w.volumes ==> Redis(w.volumes[name]) || w.volumes[name].policy == Retain
  }

  predicate AvailableCounts(w: World, name: string) {
    name in w.volumes ==> !Redis(w.volumes[name]) && w.volumes[name].phase == Available
  }

  function Retained(volume: Volume): Volume {
    volume.(policy := Retain, storageClass := "")
  }

  function Freed(volume: Volume): Volume {
    volume.(finalizers := [], claimRef := None, phase := Available)
  }

  /** The SetPVRetain loop from slot k on; None when an update failed and the loop returned. */
  function RetainFrom(w: World, slots: seq<ClaimSlot>, k: nat, sum: nat): (World, Option<nat>)
    requires k <= |slots|
    decreases |slots| - k
  {
    if k == |slots| then (w, Some(sum))
    else
      var name := slots[k].volumeName;
      if RetainCounts(w, name) then RetainFrom(w, slots, k + 1, sum + 1)
      else
        var (w1, ok) := UpdateVolumeIn(w, name, Retained(w.volumes[name]));
        if ok then RetainFrom(w1, slots, k + 1, sum) else (w1, None)
  }

  function SetPVRetainEffect(w: World, p: Parent): (World, bool) {
    if p.spec.policy != Retain then (w, true)
    else
      var (w1, sum) := RetainFrom(w, p.claims, 0, 0);
      (w1, sum == Some(|p.claims|))
  }

  /** The SetPVAvailable loop from slot k on: a redis-slave volume ends it with the sum so far. */
  function FreeFrom(w: World, slots: seq<ClaimSlot>, k: nat, sum: nat): (World, Option<nat>)
    requires k <= |slots|
    decreases |slots| - k
  {
    if k == |slots| then (w, Some(sum))
    else
      var name := slots[k].volumeName;
      if AvailableCounts(w, name) then FreeFrom(w, slots, k + 1, sum + 1)
      else if Redis(w.volumes[name]) then (w, Some(sum))
      else
        var (w1, ok) := UpdateVolumeIn(w, name, Freed(w.volumes[name]));
        if ok then FreeFrom(w1, slots, k + 1, sum) else (w1, None)
  }

  function SetPVAvailableEffect(w: World, p: Parent): (World, bool) {
    if p.spec.policy != Retain then (w, true)
    else
      var (w1, sum) := FreeFrom(w, p.claims, 0, 0);
      (w1, sum == Some(|p.claims|))
  }

  method SetPVRetain(api: ApiServer, sfp: StatefulPod) returns (done: bool)
    modifies api
    ensures (api.View(), done) == SetPVRetainEffect(old(api.View()), sfp.View())
  {
    if sfp.spec.policy != Retain {
      return true;
    }
    var sum := 0;
    for k := 0 to |sfp.pvcStatusMes|
      invariant RetainFrom(old(api.View()), sfp.pvcStatusMes, 0, 0)
        == RetainFrom(api.View(), sfp.pvcStatusMes, k, sum)
    {
      var name := sfp.pvcStatusMes[k].volumeName;
      if name !in api.volumes {
        sum := sum + 1;
        continue;
      }
      var pv := api.volumes[name];
      if REDIS_SLAVE in pv.annotations {
        sum := sum + 1;
        continue;
      }
      if pv.policy == Retain {
        sum := sum + 1;
        continue;
      }
      var ok := api.UpdateVolume(name, pv.(policy := Retain, storageClass := ""));
      if !ok {
        return false;
      }
    }
    return sum == |sfp.pvcStatusMes|;
  }

  method SetPVAvailable(api: ApiServer, sfp: StatefulPod) returns (done: bool)
    modifies api
    ensures (api.View(), done) == SetPVAvailableEffect(old(api.View()), sfp.View())
  {
    if sfp.spec.policy != Retain {
      return true;
    }
    var sum := 0;
    for k := 0 to |sfp.pvcStatusMes|
      invariant FreeFrom(old(api.View()), sfp.pvcStatusMes, 0, 0)
        == FreeFrom(api.View(), sfp.pvcStatusMes, k, sum)
    {
      var name := sfp.pvcStatusMes[k].volumeName;
      if name !in api.volumes {
        sum := sum + 1;
        continue;
      }
      var pv := api.volumes[name];
      if REDIS_SLAVE in pv.annotations {
        break;
      }
      if pv.phase == Available {
        sum := sum + 1;
        continue;
      }
      var ok := api.UpdateVolume(name, pv.(finalizers := [], claimRef := None, phase := Available));
      if !ok {
        return false;
      }
    }
    return sum == |sfp.pvcStatusMes|;
  }
}

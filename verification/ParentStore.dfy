// services/statefulpod/statefulpod.go: Update and its conflict-retry loop.
module ParentStore {
  import opened Types
  import opened Api

  datatype Rival = NoRival | Writes(p: Parent) | Removes

  // What may befall one round of the loop: another writer gets in just before the attempt, the
  // attempt fails for a transient reason, or the version read that follows a failure fails too.
  datatype Disturbance = Disturbance(rival: Rival, attemptFails: bool, refreshFails: bool)

  const CALM := Disturbance(NoRival, false, false)

  function AfterRival(stored: Option<Parent>, rival: Rival): Option<Parent> {
    match rival
    case NoRival => stored
    case Removes => None
    case Writes(p) =>
      if stored.None? then None else Some(p.(version := stored.value.version + 1))
  }

  /** The stored object after the rivals of all the given rounds, and no one else, have written. */
  function AfterRivals(stored: Option<Parent>, rounds: seq<Disturbance>): Option<Parent> {
    if rounds == [] then stored
    else AfterRival(AfterRivals(stored, rounds[..|rounds| - 1]), rounds[|rounds| - 1].rival)
  }

  predicate SameButVersion(p: Parent, q: Parent) {
    p == q.(version := p.version)
  }

  // Equal in all a writer decides: everything but the version and the deletion mark.
  predicate SameContent(p: Parent, q: Parent) {
    p.(version := 0, deletionMarked := false) == q.(version := 0, deletionMarked := false)
  }

  datatype Reply = Stored | NotFound | Refused

  /** Client.Update: one attempt. A copy at another version than the stored one is refused. */
  method ClientUpdate(api: ApiServer, sfp: StatefulPod, fails: bool) returns (reply: Reply)
    modifies api`stored, sfp
    ensures reply == if fails then Refused
      else if old(api.stored).None? then NotFound
      else if old(api.stored).value.version == old(sfp.resourceVersion) then Stored
      else Refused
    ensures Both(api, sfp) == if reply.Stored? then Put(old(Both(api, sfp))) else old(Both(api, sfp))
  {
    if fails {
      return Refused;
    }
    if api.stored.None? {
      return NotFound;
    }
    if api.stored.value.version != sfp.resourceVersion {
      return Refused;
    }
    sfp.resourceVersion := api.stored.value.version + 1;
    sfp.deletionMarked := api.stored.value.deletionMarked;
    var q := sfp.Snapshot();
    api.stored := if q.deletionMarked && q.finalizers == [] then None else Some(q);
    return Stored;
  }

  method RivalActs(api: ApiServer, rival: Rival)
    modifies api`stored
    ensures api.stored == AfterRival(old(api.stored), rival)
  {
    match rival {
      case NoRival =>
      case Removes => api.stored := None;
      case Writes(p) =>
        if api.stored.Some? { api.stored := Some(p.(version := api.stored.value.version + 1)); }
    }
  }

  function RivalsMet(stored: Option<Parent>, rounds: seq<Disturbance>, attempts: nat): Option<Parent> {
    AfterRivals(stored, rounds[..if attempts <= |rounds| then attempts else |rounds|])
  }

  /** Last writer wins: however the rounds are disturbed, the call returns, and it leaves exactly
      what one undisturbed write after the rivals of the rounds it took would have left: the object
      is gone, or the store holds this writer's content. */
  method Update(api: ApiServer, sfp: StatefulPod, rounds: seq<Disturbance>) returns (attempts: nat)
    modifies api`stored, sfp
    ensures 1 <= attempts <= |rounds| + 2
    ensures var calm := old(api.View()).(stored := RivalsMet(old(api.stored), rounds, attempts));
      && api.View() == Put(Ctx(calm, old(sfp.View()))).w
      && (calm.stored.Some? ==> sfp.View() == Put(Ctx(calm, old(sfp.View()))).p)
    ensures api.stored.Some? ==> api.stored.value == sfp.View()
    ensures SameContent(sfp.View(), old(sfp.View()))
    ensures rounds == [] ==> Both(api, sfp) == Put(old(Both(api, sfp)))
  {
    attempts := 0;
    while true
      invariant attempts <= |rounds| + 1
      invariant SameButVersion(sfp.View(), old(sfp.View()))
      invariant attempts == 0 ==> sfp.View() == old(sfp.View())
      invariant api.View() == old(api.View()).(stored := RivalsMet(old(api.stored), rounds, attempts))
      invariant attempts > |rounds| ==> api.stored.Some? && api.stored.value.version == sfp.resourceVersion
      decreases |rounds| + 1 - attempts
    {
      var round := if attempts < |rounds| then rounds[attempts] else CALM;
      assert attempts < |rounds| ==> rounds[..attempts + 1][..attempts] == rounds[..attempts];
      RivalActs(api, round.rival);
      attempts := attempts + 1;
      var reply := ClientUpdate(api, sfp, round.attemptFails);
      if reply != Refused {
        return;
      }
      // getNewResourceVersion, then round again
      if api.stored.Some? && !round.refreshFails {
        sfp.resourceVersion := api.stored.value.version;
      }
    }
  }

  /** Versions only grow along an object's life, so a rival's write always makes an older copy conflict. */
  lemma {:induction false} VersionsGrow(stored: Option<Parent>, rounds: seq<Disturbance>)
    requires stored.Some? && AfterRivals(stored, rounds).Some?
    ensures AfterRivals(stored, rounds).value.version >= stored.value.version
    ensures (exists k :: 0 <= k < |rounds| && rounds[k].rival.Writes?) ==>
      AfterRivals(stored, rounds).value.version > stored.value.version
  {
    if rounds != [] {
      VersionsGrow(stored, rounds[..|rounds| - 1]);
    }
  }
}

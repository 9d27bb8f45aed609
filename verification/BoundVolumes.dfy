// Which volume a slot records: its claim's own. So what a deletion retains are the volumes of the claims, as far
// as they have been recorded.
module BoundVolumes {
  import opened Tools
  import opened Types
  import opened Api
  import opened PodControl
  import opened ClaimControl
  import opened Controller
  import opened Workers
  import opened Histories
  import opened Convergence
  import opened Examples
  import opened Deletion
  import DeletionEnds
  import Notices
  import VolumeControl

  // ----- a record and its claim -----

  predicate Settled(claim: Claim) {
    claim.phase in {Bound, Lost}
  }

  predicate Recorded(slot: ClaimSlot) {
    slot.status == Bound || slot.volumeName != ""
  }

  predicate RecordsClaim(slot: ClaimSlot, claim: Claim) {
    Settled(claim) && slot.volumeName == claim.volumeName && slot.capacity == claim.request
  }

  /** Each slot of p that records a volume at all records that of the claim that stands under its name. */
  ghost predicate RecordsTrue(w: World, p: Parent) {
    forall i: nat :: i < |p.claims| && Recorded(p.claims[i]) && ClaimName(p, i) in w.claims ==>
      RecordsClaim(p.claims[i], w.claims[ClaimName(p, i)])
  }

  ghost predicate AllRecorded(w: World) {
    w.stored.Some? ==> RecordsTrue(w, w.stored.value)
  }

  /** The slots of q are slots of p, and none is newly recorded. */
  ghost predicate NoNewRecords(p: Parent, q: Parent) {
    && q.name == p.name && ClaimBase(q) == ClaimBase(p) && |q.claims| <= |p.claims|
    && forall i :: 0 <= i < |q.claims| ==>
         && q.claims[i] == p.claims[i].(status := q.claims[i].status)
         && (q.claims[i].status == Bound ==> p.claims[i].status == Bound)
  }

  lemma MarkedRecords(w: World, p: Parent, v: World, q: Parent)
    requires RecordsTrue(w, p) && DeletionEnds.ClaimsGo(w, v) && NoNewRecords(p, q)
    ensures RecordsTrue(v, q)
  {
    forall i: nat | i < |q.claims| && Recorded(q.claims[i]) && ClaimName(q, i) in v.claims
      ensures RecordsClaim(q.claims[i], v.claims[ClaimName(q, i)])
    {
      assert ClaimName(q, i) == ClaimName(p, i) && Recorded(p.claims[i]);
    }
  }

  // ----- growth -----

  /** Growth at slot i of the copy r gets to a claim that is not there yet, and its calls succeed. */
  predicate MakesClaim(w: World, r: Parent, i: nat) {
    && r.spec.claimTemplate.Some? && ClaimName(r, i) !in w.claims && |w.log| !in w.faults
    && (i == 0 && r.spec.hasService ==> ServiceName(r) in w.services)
    && (if PodAt(w, r, i).Some? then i < |r.pods| else |w.log| + 1 !in w.faults)
  }

  lemma ClaimPartMakes(c: Ctx, i: nat)
    ensures var (d, slot) := Controller.ClaimPart(c, i); var name := ClaimName(c.p, i);
      if c.p.spec.claimTemplate.Some? && name !in c.w.claims && |c.w.log| !in c.w.faults then
        && d.w.claims == c.w.claims[name := d.w.claims[name]] && d.w.claims[name].phase == ClaimPending
        && slot.Some? && !Recorded(slot.value)
      else
        && d.w.claims == c.w.claims
        && (slot.Some? ==> !Recorded(slot.value) || (i < |c.p.claims| && slot.value == c.p.claims[i]))
  {
    hide Stamp, Dashed, IsPvCanUse, IntToInt32;
    assert ClaimName(Defaulted(c.p), i) == ClaimName(c.p, i);
  }

  lemma PodPartAnswers(c: Ctx, i: nat)
    ensures var (d, pod) := ExpansionPodEffect(c, i);
      && d.w.claims == c.w.claims && d.w.faults == c.w.faults
      && d.p.spec.claimTemplate == c.p.spec.claimTemplate && ClaimName(d.p, i) == ClaimName(c.p, i)
      && (if PodAt(c.w, c.p, i).Some? then d.w.log == c.w.log && (pod.Some? <==> i < |c.p.pods|)
          else |d.w.log| == |c.w.log| + 1 && (pod.Some? <==> |c.w.log| !in c.w.faults))
  {
    hide Stamp, Dashed;
  }

  /** A growth makes exactly that claim, which is Pending, and records no volume. */
  lemma GrowMakesExactly(c: Ctx, i: nat)
    requires i <= |c.p.pods| == |c.p.claims|
    ensures var (g, early) := Grow(c, i); var name := ClaimName(c.p, i);
      && g.p.name == c.p.name && ClaimBase(g.p) == ClaimBase(c.p)
      && (if MakesClaim(c.w, c.p, i) then
            && early.None? && name in g.w.claims && g.w.claims == c.w.claims[name := g.w.claims[name]]
            && g.w.claims[name].phase == ClaimPending && i < |g.p.claims| && !Recorded(g.p.claims[i])
          else g.w.claims == c.w.claims)
      && (forall j :: 0 <= j < |g.p.claims| ==>
            !Recorded(g.p.claims[j]) || (j < |c.p.claims| && g.p.claims[j] == c.p.claims[j]))
  {
    hide ExpansionPodEffect, ClaimPart, Dashed, Recorded;
    PodPartAnswers(c, i);
    ClaimPartMakes(ExpansionPodEffect(c, i).0, i);
  }

  lemma GrowRecords(c: Ctx, i: nat)
    requires i <= |c.p.pods| == |c.p.claims| && RecordsTrue(c.w, c.p)
    ensures var (g, early) := Grow(c, i); RecordsTrue(g.w, g.p) && (early.Some? ==> g.w.claims == c.w.claims)
  {
    hide Grow, Recorded, RecordsClaim, MakesClaim;
    GrowMakesExactly(c, i);
    ClaimNamesDistinct(c.p);
    var g := Grow(c, i).0;
    forall j: nat | j < |g.p.claims| && Recorded(g.p.claims[j]) && ClaimName(g.p, j) in g.w.claims
      ensures RecordsClaim(g.p.claims[j], g.w.claims[ClaimName(g.p, j)])
    {
      assert ClaimName(g.p, j) == ClaimName(c.p, j);
    }
  }

  lemma PutRecords(c: Ctx)
    requires RecordsTrue(c.w, c.p)
    ensures RecordsTrue(Put(c).w, Put(c).p) && AllRecorded(Put(c).w)
  {
    SameRecords(c.w, c.p, Put(c).w, Put(c).p);
  }

  lemma SameRecords(w: World, p: Parent, v: World, q: Parent)
    requires v.claims == w.claims && q.name == p.name && ClaimBase(q) == ClaimBase(p) && q.claims == p.claims
    ensures RecordsTrue(v, q) <==> RecordsTrue(w, p)
  {
    assert forall i: nat :: ClaimName(q, i) == ClaimName(p, i);
  }

  lemma ExpansionRecords(c: Ctx, i: nat)
    requires i <= |c.p.pods| == |c.p.claims| && RecordsTrue(c.w, c.p) && AllRecorded(c.w)
    ensures AllRecorded(ExpansionEffect(c, i).0.w)
  {
    hide Grow, RecordsTrue;
    GrowRecords(c, i);
    var (g, early) := Grow(c, i);
    if early.None? {
      PutRecords(g);
    } else if c.w.stored.Some? {
      SameRecords(c.w, c.w.stored.value, g.w, c.w.stored.value);
    }
  }

  // ----- the other work -----

  lemma EraseMarks(c: Ctx)
    ensures DeletionEnds.ClaimsGo(c.w, Erase(c).0.w) && Erase(c).0.p in {c.p, DropFinalizer(c.p)}
  {
    hide Erase, VolumeControl.SetPVRetainEffect, VolumeControl.SetPVAvailableEffect;
    ErasePieces(c);
    var w1 := VolumeControl.SetPVRetainEffect(c.w, c.p).0;
    VolumeUpdatesKeepPods(c.w, c.p.claims, 0, 0);
    assert w1.claims == c.w.claims by { RetainKeepsClaims(c.w, c.p); }
    var w2 := DeletePodAllEffect(w1, c.p).0;
    PodLoop(w1, c.p.pods, 0, 0);
    var w3 := DeletePvcAllEffect(w2, c.p).0;
    DeletionEnds.ClaimDeletesGo(w2, c.p.claims);
    assert VolumeControl.SetPVAvailableEffect(w3, c.p).0.claims == w3.claims by { RetainKeepsClaims(w3, c.p); }
  }

  lemma RetainKeepsClaims(w: World, p: Parent)
    ensures VolumeControl.SetPVRetainEffect(w, p).0.claims == w.claims
    ensures VolumeControl.SetPVAvailableEffect(w, p).0.claims == w.claims
  {
    VolumeUpdatesKeepPods(w, p.claims, 0, 0);
  }

  lemma CutMarks(c: Ctx, i: nat)
    requires 1 <= i <= |c.p.pods| == |c.p.claims|
    ensures DeletionEnds.ClaimsGo(c.w, Cut(c, i).0.w) && NoNewRecords(c.p, Cut(c, i).0.p)
  {
    hide PodName, ClaimName, Terminated;
  }

  lemma InsistentDeleteGoes(w: World, name: string)
    ensures name in w.claims ==> DeletionEnds.ClaimsGo(w, DeleteClaimUntilDone(w, name))
  {
    if name in w.claims {
      DeletionEnds.InsistentDeleteMarks(w, name);
    }
  }

  lemma MandatoryKeepsClaims(w: World, pod: Pod)
    ensures DeletePodMandatoryEffect(w, pod).0.claims == w.claims
  {
  }

  lemma NodeLostMarks(c: Ctx, pod: Pod, i: nat)
    requires i < |c.p.pods| == |c.p.claims|
    ensures var d := NodeLostEffect(c, pod, i).0; DeletionEnds.ClaimsGo(c.w, d.w) && NoNewRecords(c.p, d.p)
  {
    hide DeletePodMandatoryEffect, ClaimName;
    MandatoryKeepsClaims(c.w, pod);
    NodeLostCases(c, pod, i);
    BothDeletingRecords(c.p, i);
    hide BothDeleting, NoNewRecords;
  }

  lemma BothDeletingRecords(p: Parent, i: nat)
    requires i < |p.pods| == |p.claims|
    ensures NoNewRecords(p, p) && NoNewRecords(p, Defaulted(p))
    ensures NoNewRecords(p, BothDeleting(p, i)) && NoNewRecords(p, BothDeleting(Defaulted(p), i))
  {
  }

  lemma TimedOutMarks(c: Ctx, pod: Pod, i: nat)
    requires i < |c.p.pods| == |c.p.claims|
    ensures var d := TimedOutEffect(c, pod, i).0; DeletionEnds.ClaimsGo(c.w, d.w) && NoNewRecords(c.p, d.p)
  {
    hide DeleteClaimUntilDone, ClaimName, Terminated;
    InsistentDeleteGoes(DeletePodIn(c.w, pod.name).0, ClaimName(c.p, i));
  }

  lemma PodEventMarks(c: Ctx, pod: Pod, i: nat)
    requires |c.p.pods| == |c.p.claims|
    ensures var d := MonitorPodEffect(c, pod, i).0; DeletionEnds.ClaimsGo(c.w, d.w) && NoNewRecords(c.p, d.p)
  {
    hide NodeLostEffect, TimedOutEffect, PodRunning, IsNodeReady;
    if i < |c.p.pods| {
      NodeLostMarks(c, pod, i);
      TimedOutMarks(c, pod, i);
    }
  }

  /** The claim bears the name of the owner and the ordinal that it is annotated with. */
  predicate ClaimNamed(prefix: string, claim: Claim) {
    && Ordinal(claim.annotations) >= 0
    && claim.name == Dashed(prefix + "-" + OwnerName(claim.annotations), Ordinal(claim.annotations))
  }

  lemma ClaimEventRecords(w: World, p: Parent, claim: Claim, i: nat)
    requires |p.pods| == |p.claims| && RecordsTrue(w, p)
    requires claim.name == ClaimName(p, i) && claim.name in w.claims && w.claims[claim.name] == claim
    ensures RecordsTrue(w, MonitorClaimEffect(p, claim, i).0)
    ensures i < |p.claims| && !claim.terminating && claim.phase == Bound ==>
      RecordsClaim(MonitorClaimEffect(p, claim, i).0.claims[i], claim)
  {
    hide Dashed;
    ClaimNamesDistinct(p);
    var q := MonitorClaimEffect(p, claim, i).0;
    forall j: nat | j < |q.claims| && Recorded(q.claims[j]) && ClaimName(q, j) in w.claims
      ensures RecordsClaim(q.claims[j], w.claims[ClaimName(q, j)])
    {
      assert ClaimName(q, j) == ClaimName(p, j);
      if j == i && q == p {
        assert Recorded(p.claims[i]);
      }
    }
  }

  // ----- serial runs -----

  lemma CoreRecords(w: World, p: Parent)
    requires w.stored == Some(p) && |p.pods| == |p.claims| && RecordsTrue(w, p)
    ensures AllRecorded(Core(w))
  {
    hide ExpansionEffect, Erase, Cut, NeedsPod, OutOfStep, GetIndex, RecordsTrue, ClaimBase, MarkEffect;
    var c, n := Ctx(w, p), GetIndex(p);
    if p.deletionMarked && n == p.spec.size {
      EraseMarks(c);
      var d := Erase(c).0;
      assert d.w.stored == w.stored by { EraseWorld(c); }
      AfterMarks(c, d);
    } else if n < p.spec.size {
      ExpansionRecords(c, n);
    } else if n > p.spec.size {
      CutMarks(c, n);
      CutPieces(c, n);
      AfterMarks(c, Cut(c, n).0);
    } else {
      var c1 := SetFinalizerEffect(c);
      FinalizerRecords(c);
      var c2 := MarkEffect(c1);
      MarkRecords(c1);
      var index := FirstNeedingPod(c2.w, c2.p.pods);
      if index.Some? {
        ExpansionRecords(c2, index.value);
      }
    }
  }

  /** A copy of what is stored, after work that marks claims at most, is written back or not. */
  lemma AfterMarks(c: Ctx, d: Ctx)
    requires c.w.stored == Some(c.p) && d.w.stored == c.w.stored && RecordsTrue(c.w, c.p)
    requires DeletionEnds.ClaimsGo(c.w, d.w) && (NoNewRecords(c.p, d.p) || d.p in {c.p, DropFinalizer(c.p)})
    ensures AllRecorded(d.w) && AllRecorded(Put(d).w)
  {
    hide RecordsTrue;
    SameSlotsNoNew(c.p, c.p);
    SameSlotsNoNew(c.p, DropFinalizer(c.p));
    MarkedRecords(c.w, c.p, d.w, c.p);
    MarkedRecords(c.w, c.p, d.w, d.p);
    PutRecords(d);
  }

  lemma SameSlotsNoNew(p: Parent, q: Parent)
    requires q.name == p.name && q.spec == p.spec && q.claims == p.claims
    ensures NoNewRecords(p, q)
  {
  }

  lemma FinalizerRecords(c: Ctx)
    requires c.w.stored == Some(c.p) && RecordsTrue(c.w, c.p)
    ensures var d := SetFinalizerEffect(c);
      RecordsTrue(d.w, d.p) && AllRecorded(d.w) && |d.p.pods| == |c.p.pods| && |d.p.claims| == |c.p.claims|
  {
    hide RecordsTrue;
    SameRecords(c.w, c.p, c.w, AddFinalizer(c.p));
    PutRecords(Ctx(c.w, AddFinalizer(c.p)));
  }

  lemma MarkRecords(c: Ctx)
    requires RecordsTrue(c.w, c.p) && AllRecorded(c.w) && |c.p.pods| == |c.p.claims|
    ensures var d := MarkEffect(c);
      RecordsTrue(d.w, d.p) && AllRecorded(d.w) && |d.p.pods| == |d.p.claims|
  {
    hide RecordsTrue, OutOfStep;
    var q := PodIsOkEffect(c.w, c.p).0;
    SameRecords(c.w, c.p, c.w, q);
    PutRecords(Ctx(c.w, q));
  }

  lemma PodEventRecords(w: World, p: Parent, pod: Pod)
    requires w.stored == Some(p) && |p.pods| == |p.claims| && RecordsTrue(w, p) && Ordinal(pod.annotations) >= 0
    ensures AllRecorded(MonitorPod(w, pod))
  {
    hide MonitorPodEffect, RecordsTrue, Ordinal, OwnerName;
    var c, i := Ctx(w, p), Ordinal(pod.annotations);
    PodEventMarks(c, pod, i);
    MonitorKeepsStored(c, pod, i);
    AfterMarks(c, MonitorPodEffect(c, pod, i).0);
  }

  /** Outside, a claim that was bound keeps volume and request, and none comes under a name whose slot records
      a volume. */
  ghost predicate ClaimsKept(w: World, v: World) {
    v.stored.Some? ==>
      var q := v.stored.value;
      forall i: nat :: i < |q.claims| && ClaimName(q, i) in v.claims ==>
        if ClaimName(q, i) in w.claims then SameVolume(w.claims[ClaimName(q, i)], v.claims[ClaimName(q, i)])
        else !Recorded(q.claims[i])
  }

  predicate SameVolume(was: Claim, now: Claim) {
    Settled(was) ==> Settled(now) && now.volumeName == was.volumeName && now.request == was.request
  }

  /** Claim events show the claim that stands, named as it is annotated. */
  ghost predicate Faithful(scope: Scope, w: World, e: Event) {
    match e
    case ClaimEvent(claim) =>
      && claim.name in w.claims && w.claims[claim.name] == claim
      && (OwnerName(claim.annotations) == scope.name ==> ClaimNamed(scope.prefix, claim))
    case Meanwhile(v) => ClaimsKept(w, v)
    case _ => true
  }

  lemma OutsideRecords(scope: Scope, w: World, v: World)
    requires OutsideAllowed(scope, w, v) && ClaimsKept(w, v) && AllRecorded(w)
    ensures AllRecorded(v)
  {
    hide PodsNamed, Dashed, RecordsClaim;
    if v.stored.Some? && w.stored.Some? {
      var p, q := w.stored.value, v.stored.value;
      forall i: nat | i < |q.claims| && Recorded(q.claims[i]) && ClaimName(q, i) in v.claims
        ensures RecordsClaim(q.claims[i], v.claims[ClaimName(q, i)])
      {
        assert ClaimName(q, i) == ClaimName(p, i) && q.claims == p.claims;
        KeptRecord(q.claims[i], w.claims[ClaimName(q, i)], v.claims[ClaimName(q, i)]);
      }
    }
  }

  lemma KeptRecord(slot: ClaimSlot, was: Claim, now: Claim)
    requires SameVolume(was, now) && RecordsClaim(slot, was)
    ensures RecordsClaim(slot, now)
  {
  }

  lemma EventRecords(scope: Scope, w: World, e: Event)
    requires Sound(scope, w) && Allowed(scope, w, e) && Faithful(scope, w, e) && AllRecorded(w)
    ensures AllRecorded(Do(w, e))
  {
    hide CoreEffect, MonitorClaimEffect, MonitorPodEffect, MonitorNegativeEffect, RecordsTrue, ClaimsKept;
    hide Ordinal, OwnerName, Dashed;
    match e
    case CoreRuns => if w.stored.Some? { CoreRecords(w, w.stored.value); }
    case PodEvent(pod) => if NamedByOwner(pod) && w.stored.Some? { PodEventRecords(w, w.stored.value, pod); }
    case ClaimEvent(claim) =>
      if OwnerStored(w, claim.annotations) && Ordinal(claim.annotations) >= 0 {
        var p, i := w.stored.value, Ordinal(claim.annotations);
        ClaimEventRecords(w, p, claim, i);
        PutRecords(Ctx(w, MonitorClaimEffect(p, claim, i).0));
      }
    case Meanwhile(v) => OutsideRecords(scope, w, v);
  }

  ghost predicate FaithfulAt(scope: Scope, w: World, events: seq<Event>, k: nat)
    requires k < |events|
  {
    Faithful(scope, StateAt(w, events, k), events[k])
  }

  /** Over every serial run in which bound claims keep their volumes, whatever calls fail: each slot that records
      a volume records volume and request of the claim that stands under its name. */
  lemma {:induction false} RecordedAlong(scope: Scope, w: World, events: seq<Event>, k: nat)
    requires History(scope, w, events) && AllRecorded(w) && k <= |events|
    requires forall m: nat :: m < |events| ==> FaithfulAt(scope, w, events, m)
    ensures AllRecorded(StateAt(w, events, k))
  {
    hide Do, Sound, Allowed, Faithful, AllRecorded;
    if k > 0 {
      RecordedAlong(scope, w, events, k - 1);
      SoundAt(scope, w, events, k - 1);
      assert AllowedAt(scope, w, events, k - 1) && FaithfulAt(scope, w, events, k - 1);
      EventRecords(scope, StateAt(w, events, k - 1), events[k - 1]);
    }
  }

  /** And the event of a live bound claim leaves it recorded. */
  lemma BindingIsRecorded(scope: Scope, w: World, claim: Claim)
    requires Sound(scope, w) && AllRecorded(w) && Faithful(scope, w, Event.ClaimEvent(claim))
    requires OwnerStored(w, claim.annotations) && !claim.terminating && claim.phase == Bound
    requires 0 <= Ordinal(claim.annotations) < |w.stored.value.claims|
    ensures var v := MonitorClaim(w, claim);
      v.stored.Some? ==>
        var i: nat := Ordinal(claim.annotations);
        i < |v.stored.value.claims| && v.stored.value.claims[i].status == Bound
        && v.stored.value.claims[i].volumeName == claim.volumeName
        && v.stored.value.claims[i].capacity == claim.request
  {
    hide Ordinal, OwnerName, Dashed;
    var p, i := w.stored.value, Ordinal(claim.annotations);
    ClaimEventRecords(w, p, claim, i);
  }

  // ----- interleavings -----

  /** The exact condition, which a reconciler can check before it writes: what is stored afterwards records the
      claims' volumes if and only if the copy does. */
  lemma WriteRecordsExactly(scope: Scope, s: System, k: nat)
    requires AllShaped(scope, s) && k < |s.copies| && s.copies[k].Some?
    ensures var t := Apply(scope, s, Write(k));
      t.w.stored.Some? ==> (AllRecorded(t.w) <==> RecordsTrue(s.w, s.copies[k].value))
  {
    hide RecordsTrue;
    var c := Ctx(s.w, s.copies[k].value);
    var t := Apply(scope, s, Write(k));
    assert t.w == Put(c).w;
    if t.w.stored.Some? {
      SameRecords(c.w, c.p, t.w, t.w.stored.value);
    }
  }

  /** What can be checked before a move: a written copy records what is true, or is dropped with the parent; a
      growth makes no claim under a name whose stored slot still records a volume. */
  ghost predicate RecordingMove(s: System, m: Move) {
    match m
    case Write(k) => k < |s.copies| && s.copies[k].Some? && s.w.stored.Some? ==>
      var r := s.copies[k].value;
      RecordsTrue(s.w, r) || (s.w.stored.value.deletionMarked && r.finalizers == [])
    case GrowAt(k, i) => k < |s.copies| && s.copies[k].Some? && s.w.stored.Some? ==>
      var r, p := s.copies[k].value, s.w.stored.value;
      i >= |p.claims| || !Recorded(p.claims[i]) || !MakesClaim(s.w, r, i)
      || i > |r.pods| || (i == |r.pods| && i >= r.spec.size)
    case _ => true
  }

  lemma GrowMoveRecords(scope: Scope, c: Ctx, o: Parent, i: nat)
    requires Shaped(scope, c.p) && Shaped(scope, o) && c.w.stored == Some(o) && RecordsTrue(c.w, o)
    requires i <= |c.p.pods|
    ensures AllRecorded(Grow(c, i).0.w) <==> i >= |o.claims| || !Recorded(o.claims[i]) || !MakesClaim(c.w, c.p, i)
  {
    assert |c.p.pods| == |c.p.claims|;
    hide Grow, Recorded, MakesClaim, Dashed, Shaped;
    GrowMakesExactly(c, i);
    assert c.p.name == o.name && ClaimBase(c.p) == ClaimBase(o) by { OneScope(scope, c.p, o); }
    ClaimNamesDistinct(o);
    var v := Grow(c, i).0.w;
    assert ClaimName(c.p, i) == ClaimName(o, i) && v.stored == Some(o);
    if i < |o.claims| && Recorded(o.claims[i]) && MakesClaim(c.w, c.p, i) {
      assert !RecordsClaim(o.claims[i], v.claims[ClaimName(o, i)]);
    } else {
      forall j: nat | j < |o.claims| && Recorded(o.claims[j]) && ClaimName(o, j) in v.claims
        ensures RecordsClaim(o.claims[j], v.claims[ClaimName(o, j)])
      {
        assert ClaimName(o, j) in c.w.claims;
      }
    }
  }

  lemma OneScope(scope: Scope, p: Parent, q: Parent)
    requires Shaped(scope, p) && Shaped(scope, q)
    ensures p.name == q.name && ClaimBase(p) == ClaimBase(q)
  {
  }

  /** No other piece of work touches what is stored, or more of a claim than its mark. */
  lemma OtherPiecesRecord(c: Ctx, m: Move)
    requires |c.p.pods| == |c.p.claims| && !m.Write? && !m.GrowAt? && !m.Outside? && AllRecorded(c.w)
    ensures AllRecorded(Piece(c, m).w)
  {
    hide Cut, Erase, MonitorPodEffect, MonitorClaimEffect, Ordinal, OwnerName, RecordsTrue;
    Notices.PieceQuiet(c, m);
    var v := Piece(c, m).w;
    DeletionEndsSame(c.w);
    match m {
      case CutAt(_, i) => if 1 <= i <= |c.p.pods| { CutMarks(c, i); }
      case EraseAll(_) => EraseMarks(c);
      case PodEvent(_, pod) => if Ordinal(pod.annotations) >= 0 { PodEventMarks(c, pod, Ordinal(pod.annotations)); }
      case _ =>
    }
    if c.w.stored.Some? {
      SameSlotsNoNew(c.w.stored.value, c.w.stored.value);
      MarkedRecords(c.w, c.w.stored.value, v, c.w.stored.value);
    }
  }

  lemma DeletionEndsSame(w: World)
    ensures DeletionEnds.ClaimsGo(w, w)
  {
  }

  lemma MoveRecordsExactly(scope: Scope, s: System, m: Move)
    requires AllShaped(scope, s) && AllRecorded(s.w) && (m.Outside? ==> ClaimsKept(s.w, m.w))
    ensures AllRecorded(Apply(scope, s, m).w) <==> RecordingMove(s, m)
  {
    hide Piece, RecordsTrue, Recorded, MakesClaim, ClaimsKept, PodsNamed, WellFormed, OutsideAllowed;
    if m.Outside? {
      if OutsideAllowed(scope, s.w, m.w) { OutsideRecords(scope, s.w, m.w); }
    } else if !m.Read? && m.k < |s.copies| && s.copies[m.k].Some? {
      var c := Ctx(s.w, s.copies[m.k].value);
      assert |c.p.pods| == |c.p.claims| by { Notices.SameLengthCopy(scope, s, m.k); }
      if m.Write? {
        WriteRecordsExactly(scope, s, m.k);
        DroppedExactly(scope, s, m.k);
      } else if m.GrowAt? {
        GrowApplied(scope, s, m.k, m.i);
      } else {
        OtherPiecesRecord(c, m);
      }
    }
  }

  lemma DroppedExactly(scope: Scope, s: System, k: nat)
    requires AllShaped(scope, s) && k < |s.copies| && s.copies[k].Some?
    ensures Apply(scope, s, Write(k)).w.stored.None? <==>
      s.w.stored.None? || (s.w.stored.value.deletionMarked && s.copies[k].value.finalizers == [])
  {
    hide PodsNamed, SlotsInLine, ClaimsInLine;
  }

  lemma GrowApplied(scope: Scope, s: System, k: nat, i: nat)
    requires AllShaped(scope, s) && k < |s.copies| && s.copies[k].Some? && AllRecorded(s.w)
    ensures AllRecorded(Apply(scope, s, GrowAt(k, i)).w) <==> RecordingMove(s, GrowAt(k, i))
  {
    hide Grow, RecordsTrue, Recorded, MakesClaim, PodsNamed, SlotsInLine, ClaimsInLine;
    var c := Ctx(s.w, s.copies[k].value);
    if s.w.stored.Some? && (i < |c.p.pods| || (i == |c.p.pods| && i < c.p.spec.size)) {
      GrowMoveRecords(scope, c, s.w.stored.value, i);
    }
  }

  ghost predicate RecordedAt(scope: Scope, s: System, moves: seq<Move>, n: nat)
    requires n <= |moves|
  {
    AllRecorded(SystemAt(scope, s, moves, n).w)
  }

  ghost predicate RecordingAt(scope: Scope, s: System, moves: seq<Move>, n: nat)
    requires n < |moves|
  {
    RecordingMove(SystemAt(scope, s, moves, n), moves[n])
  }

  ghost predicate KeptAt(scope: Scope, s: System, moves: seq<Move>, n: nat)
    requires n < |moves|
  {
    moves[n].Outside? ==> ClaimsKept(SystemAt(scope, s, moves, n).w, moves[n].w)
  }

  lemma OneRecordingMove(scope: Scope, s: System, moves: seq<Move>, n: nat)
    requires AllShaped(scope, s) && n < |moves| && KeptAt(scope, s, moves, n) && RecordedAt(scope, s, moves, n)
    ensures RecordedAt(scope, s, moves, n + 1) <==> RecordingAt(scope, s, moves, n)
  {
    hide Apply, AllShaped, AllRecorded, RecordingMove, ClaimsKept;
    ShapedAt(scope, s, moves, n);
    MoveRecordsExactly(scope, SystemAt(scope, s, moves, n), moves[n]);
  }

  lemma {:induction false} RecordedSoFar(scope: Scope, s: System, moves: seq<Move>, n: nat)
    requires AllShaped(scope, s) && RecordedAt(scope, s, moves, 0) && n <= |moves|
    requires forall m: nat :: m < |moves| ==> KeptAt(scope, s, moves, m) && RecordingAt(scope, s, moves, m)
    ensures RecordedAt(scope, s, moves, n)
  {
    hide RecordedAt, RecordingAt, KeptAt, AllShaped;
    if n > 0 {
      RecordedSoFar(scope, s, moves, n - 1);
      OneRecordingMove(scope, s, moves, n - 1);
    }
  }

  /** Over every interleaving in which bound claims keep their volumes: the stored slots record the claims' own
      volumes in every state if and only if each move is such, which can be checked before it. */
  lemma RunRecordsExactly(scope: Scope, s: System, moves: seq<Move>)
    requires AllShaped(scope, s) && AllRecorded(s.w)
    requires forall m: nat :: m < |moves| ==> KeptAt(scope, s, moves, m)
    ensures (forall n: nat :: n <= |moves| ==> RecordedAt(scope, s, moves, n)) <==>
      (forall n: nat :: n < |moves| ==> RecordingAt(scope, s, moves, n))
  {
    hide RecordingAt, KeptAt, AllShaped;
    assert RecordedAt(scope, s, moves, 0);
    hide RecordedAt;
    if forall n: nat :: n < |moves| ==> RecordingAt(scope, s, moves, n) {
      forall n: nat | n <= |moves| ensures RecordedAt(scope, s, moves, n) {
        RecordedSoFar(scope, s, moves, n);
      }
    }
    if forall n: nat :: n <= |moves| ==> RecordedAt(scope, s, moves, n) {
      forall n: nat | n < |moves| ensures RecordingAt(scope, s, moves, n) {
        assert RecordedAt(scope, s, moves, n) && RecordedAt(scope, s, moves, n + 1);
        OneRecordingMove(scope, s, moves, n);
      }
    }
  }

  // ----- retention of the claims' volumes -----

  /** The volume is gone, a redis slave's, or kept when its claim goes. */
  predicate KeptVolume(w: World, name: string) {
    name in w.volumes ==> REDIS_SLAVE in w.volumes[name].annotations || w.volumes[name].policy == Retain
  }

  ghost predicate DeletesClaim(w: World, v: World, name: string) {
    exists n: nat :: |w.log| <= n < |v.log| && v.log[n].verb == DeleteClaim && v.log[n].name == name
  }

  predicate DeletingUnderRetain(w: World, p: Parent) {
    && w.stored == Some(p) && |p.pods| == |p.claims| && p.deletionMarked && GetIndex(p) == p.spec.size
    && p.spec.policy == Retain
  }

  /** The volume that slot i's claim is bound to is kept. */
  ghost predicate ClaimVolumeKept(w: World, p: Parent, i: nat) {
    ClaimName(p, i) in w.claims ==> KeptVolume(w, w.claims[ClaimName(p, i)].volumeName)
  }

  /** A deletion under Retain deletes no pod and no claim until, for every slot that records a volume, the volume
      that its claim is bound to is kept. */
  lemma VolumesKeptFirst(w: World, p: Parent)
    requires DeletingUnderRetain(w, p) && AllRecorded(w)
    requires CallsVerb(w, Core(w), DeletePod) || CallsVerb(w, Core(w), DeleteClaim)
    ensures forall i: nat :: i < |p.claims| && Recorded(p.claims[i]) ==> ClaimVolumeKept(w, p, i)
  {
    hide Erase, GetIndex;
    DestructionInOrder(Ctx(w, p));
    assert AllRetained(w, p.claims, 0);
    forall i: nat | i < |p.claims| && Recorded(p.claims[i]) ensures ClaimVolumeKept(w, p, i) {
      assert VolumeControl.RetainCounts(w, p.claims[i].volumeName);
    }
  }

  /** Over every serial run in which bound claims keep their volumes. */
  lemma VolumesKeptFirstAlong(scope: Scope, w: World, events: seq<Event>, k: nat, p: Parent)
    requires History(scope, w, events) && AllRecorded(w) && k < |events|
    requires forall m: nat :: m < |events| ==> FaithfulAt(scope, w, events, m)
    requires var v := StateAt(w, events, k);
      DeletingUnderRetain(v, p) && (CallsVerb(v, Core(v), DeletePod) || CallsVerb(v, Core(v), DeleteClaim))
    ensures forall i: nat :: i < |p.claims| && Recorded(p.claims[i]) ==> ClaimVolumeKept(StateAt(w, events, k), p, i)
  {
    hide Do, AllRecorded, CallsVerb, DeletingUnderRetain, FaithfulAt, History, ClaimVolumeKept, Core, Recorded;
    RecordedAlong(scope, w, events, k);
    VolumesKeptFirst(StateAt(w, events, k), p);
  }

  lemma {:induction false} ClaimLoopCalls(w: World, slots: seq<ClaimSlot>, k: nat, sum: nat, j: nat)
    requires k <= j < |slots| && slots[j].claimName in w.claims && w.faults == {}
    ensures DeletesClaim(w, DeleteClaimsFrom(w, slots, k, sum).0, slots[j].claimName)
    decreases |slots| - k
  {
    var v, name := DeleteClaimsFrom(w, slots, k, sum).0, slots[j].claimName;
    if slots[k].claimName in w.claims {
      var w1 := DeleteClaimIn(w, slots[k].claimName).0;
      if j == k {
        ClaimLoop(w1, slots, k + 1, sum);
        assert v.log[|w.log|] == v.log[..|w1.log|][|w.log|] == Call(DeleteClaim, name, true);
      } else {
        ClaimLoopCalls(w1, slots, k + 1, sum, j);
        var n: nat :| |w1.log| <= n < |v.log| && v.log[n].verb == DeleteClaim && v.log[n].name == name;
      }
    } else {
      ClaimLoopCalls(w, slots, k + 1, sum + 1, j);
    }
  }

  /** A bound claim whose event has not been recorded is outside that rule: with calls that succeed, slot i's
      claim is deleted exactly if the recorded volumes are kept and the pods are gone, whatever its own volume. */
  lemma DeletesClaimExactly(w: World, p: Parent, i: nat)
    requires DeletingUnderRetain(w, p) && GROUP_VERSION in p.finalizers && w.faults == {} && i < |p.claims|
    requires p.claims[i].claimName == ClaimName(p, i) && ClaimName(p, i) in w.claims
    ensures DeletesClaim(w, Core(w), ClaimName(p, i)) <==> AllRetained(w, p.claims, 0) && PodsGone(w, p.pods, 0)
    ensures AllRecorded(w) && DeletesClaim(w, Core(w), ClaimName(p, i)) && !ClaimVolumeKept(w, p, i) ==>
      !Recorded(p.claims[i])
  {
    hide GetIndex, ClaimVolumeKept, AllRecorded, Recorded, Dashed;
    var c, name := Ctx(w, p), ClaimName(p, i);
    assert Core(w).log == Erase(c).0.w.log;
    if AllRetained(w, p.claims, 0) && PodsGone(w, p.pods, 0) {
      SetPVRetainExact(w, p);
      DeletePodAllExact(w, p);
      ClaimLoopCalls(w, p.claims, 0, 0, i);
      DeletePvcAllExact(w, p);
    } else if DeletesClaim(w, Core(w), name) {
      DestructionInOrder(c);
    }
    if DeletesClaim(w, Core(w), name) && AllRecorded(w) {
      assert CallsVerb(w, Core(w), DeleteClaim);
      VolumesKeptFirst(w, p);
    }
  }

  /** Two slots of a deleting parent with no pods left, no volume recorded, and slot 0's claim bound. */
  ghost predicate Unrecorded(w: World, p: Parent) {
    && DeletingUnderRetain(w, p) && WellFormed(p) && GROUP_VERSION in p.finalizers && w.faults == {} && w.pods == map[]
    && |p.claims| == 2 && p.claims[0].claimName == ClaimName(p, 0) && w.claims.Keys == {ClaimName(p, 0)}
    && !Recorded(p.claims[0]) && p.claims[1].volumeName == "" && "" !in w.volumes
    && Settled(w.claims[ClaimName(p, 0)])
  }

  lemma UnrecordedIsDeleted(w: World, p: Parent)
    requires Unrecorded(w, p)
    ensures AllRecorded(w) && DeletesClaim(w, Core(w), ClaimName(p, 0))
  {
    hide Core, DeletesClaim, Dashed, GetIndex;
    ClaimNamesDistinct(p);
    assert ClaimName(p, 1) !in w.claims.Keys;
    assert AllRetained(w, p.claims, 0) && PodsGone(w, p.pods, 0);
    DeletesClaimExactly(w, p, 0);
  }

  /** So a volume is lost: the parent was marked before the claim that a repair had made was recorded as bound. */
  lemma UnrecordedVolumeLost() returns (w: World, p: Parent)
    ensures DeletingUnderRetain(w, p) && WellFormed(p) && GROUP_VERSION in p.finalizers && w.faults == {}
    ensures AllRecorded(w) && DeletesClaim(w, Core(w), ClaimName(p, 0)) && !ClaimVolumeKept(w, p, 0)
  {
    hide Core, DeletesClaim, AllRecorded;
    var q := SomeParent(2, 2, Some(TEMPLATE));
    var pending := q.claims[0].(status := ClaimPending, capacity := "", volumeName := "");
    p := q.(deletionMarked := true, spec := q.spec.(policy := Retain), claims := [pending, q.claims[1]]);
    var claim := TemplateClaim(q, 0).(phase := Bound, volumeName := "pv-7");
    var volume := Volume(map[], ReclaimPolicy.Delete, "fast", [], Some(claim.name), VolumeBound);
    w := SomeWorld(p, map[], map[claim.name := claim]).(volumes := map["pv-7" := volume]);
    assert "data" + "-" + "db" == "data-db";
    hide Dashed, TemplateClaim;
    assert ClaimName(p, 0) == claim.name == p.claims[0].claimName by { assert ClaimName(q, 0) == ClaimName(p, 0); }
    UnrecordedIsDeleted(w, p);
  }

  // ----- a record brought back by an older copy -----

  /** An older copy that records the volume of a claim that has been replaced is written over the newer record:
      the slot then records a volume that is not its claim's, and no event of that claim corrects it. */
  lemma StaleRecordStands(scope: Scope, s: System, k: nat, claim: Claim, i: nat)
    requires AllShaped(scope, s) && k < |s.copies| && s.copies[k].Some? && i < |s.copies[k].value.claims|
    requires var r := s.copies[k].value;
      r.claims[i].status == Bound && r.claims[i].volumeName != claim.volumeName && claim.name == ClaimName(r, i)
    requires claim.name in s.w.claims && s.w.claims[claim.name] == claim && !claim.terminating
    requires Ordinal(claim.annotations) == i
    ensures var t := Apply(scope, s, Write(k));
      t.w.stored.Some? ==> !AllRecorded(t.w) && ListsAgree(t.w) && MonitorClaim(t.w, claim) == t.w
  {
    hide Ordinal, OwnerName, PodsNamed;
    WriteRecordsExactly(scope, s, k);
    var r := s.copies[k].value;
    assert Recorded(r.claims[i]) && !RecordsClaim(r.claims[i], claim);
    Notices.SameLengthCopy(scope, s, k);
    assert Apply(scope, s, Write(k)).w == Put(Ctx(s.w, r)).w;
  }

  lemma StaleRecordHappens() returns (s: System, claim: Claim)
    ensures AllShaped(Scope("db", "data"), s) && AllRecorded(s.w) && |s.copies| == 1 && s.copies[0].Some?
    ensures s.w.stored.Some? && !s.w.stored.value.deletionMarked
    ensures var r := s.copies[0].value;
      |r.claims| == 1 && r.claims[0].status == Bound && r.claims[0].volumeName != claim.volumeName
      && claim.name == ClaimName(r, 0)
    ensures claim.name in s.w.claims && s.w.claims[claim.name] == claim && !claim.terminating
    ensures Ordinal(claim.annotations) == 0
  {
    var q := SomeParent(1, 1, Some(TEMPLATE));
    var r := q.(claims := [q.claims[0].(volumeName := "pv-1")]);
    var p := q.(version := 2, claims := [q.claims[0].(status := ClaimPending, capacity := "")]);
    MadePodIsNamed(0, q, 0);
    claim := TemplateClaim(q, 0).(phase := Bound, volumeName := "pv-2", annotations := UpPod(q, 0).annotations);
    DashedInjective("db", 0, OwnerName(claim.annotations), Ordinal(claim.annotations));
    s := System(SomeWorld(p, map[], map[claim.name := claim]), [Some(r)]);
  }
}

// What older copies do when they are written back over newer ones, and exactly when a write does no harm.
module Races {
  import opened Tools
  import opened Types
  import opened Api
  import opened PodControl
  import opened Controller
  import opened Workers
  import opened SizeLaws
  import opened Convergence
  import opened Deletion
  import opened Examples
  import Notices
  import Orphans

  // ----- a lost append -----

  /** One Running slot whose pod is on its way out, size 2, no claims and no service. */
  ghost predicate HalfGrown(w: World, p: Parent, pod: Pod) {
    && w.stored == Some(p) && WellFormed(p) && !p.deletionMarked && w.faults == {}
    && |p.pods| == 1 && p.spec.size == 2 && p.spec.claimTemplate.None? && !p.spec.hasService
    && p.pods[0].status == Running && p.claims[0].status == NoPhase
    && PodAt(w, p, 0) == Some(pod) && pod.terminating && PodAt(w, p, 1).None?
    && NamedByOwner(pod) && OwnerName(pod.annotations) == p.name && Ordinal(pod.annotations) == 0
  }

  function LostAppendMoves(pod: Pod): seq<Move> {
    [GrowAt(0, 1), Write(0), Move.PodEvent(1, pod), Write(1)]
  }

  /** What the two writes leave stored. */
  function LostAppendLeaves(w: World, p: Parent): Ctx
    requires |p.pods| == |p.claims| == 1
  {
    Put(Ctx(Put(Grow(Ctx(w, p), 1).0).w, WithStatus(p, 0, Deleting)))
  }

  /** Two reconcilers hold the same copy. One appends slot 1 and writes; the other then writes its copy
      with the event of pod 0 recorded. Pod 1 is there and no slot is, and the next reconcile is idle. */
  lemma LostAppend(scope: Scope, w: World, p: Parent, pod: Pod)
    requires HalfGrown(w, p, pod)
    ensures var t := ApplyAll(scope, System(w, [Some(p), Some(p)]), LostAppendMoves(pod));
      && t.w.stored.Some? && |t.w.stored.value.pods| == 1 && PodName(p, 1) in t.w.pods
      && !NoOrphans(t.w) && ListsAgree(t.w) && Core(t.w) == t.w
  {
    hide ApplyAll, LostAppendLeaves, NoOrphans, Core;
    assert |p.pods| == |p.claims| == 1;
    LostAppendRun(scope, w, p, pod);
    LostAppendEnd(w, p, pod);
  }

  lemma LostAppendEnd(w: World, p: Parent, pod: Pod)
    requires HalfGrown(w, p, pod)
    ensures var u := LostAppendLeaves(w, p).w;
      && u.stored.Some? && |u.stored.value.pods| == 1 && PodName(p, 1) in u.pods
      && !NoOrphans(u) && ListsAgree(u) && Core(u) == u
  {
    hide Grow, Core, NoOrphans, PodAt;
    AppendOne(w, p, pod);
    Stuck(LostAppendLeaves(w, p).w, LostAppendLeaves(w, p).p);
  }

  lemma LostAppendRun(scope: Scope, w: World, p: Parent, pod: Pod)
    requires HalfGrown(w, p, pod)
    ensures ApplyAll(scope, System(w, [Some(p), Some(p)]), LostAppendMoves(pod)).w == LostAppendLeaves(w, p).w
  {
    assert |p.pods| == |p.claims| == 1;
    hide Piece, WithCopy, Put, Grow, HalfGrown;
    var s := System(w, [Some(p), Some(p)]);
    assert LostAppendMoves(pod) == [GrowAt(0, 1), Write(0)] + [Move.PodEvent(1, pod), Write(1)];
    ApplyTwice(scope, s, [GrowAt(0, 1), Write(0)], [Move.PodEvent(1, pod), Write(1)]);
    AppendOne(w, p, pod);
    var g := Put(Grow(Ctx(w, p), 1).0);
    TwoCopies(w, p, g);
    ThenWrite(scope, s, 0, Ctx(w, p), GrowAt(0, 1));
    EventOfZero(w, p, pod, g.w);
    ThenWrite(scope, WithCopy(s, 0, g), 1, Ctx(g.w, p), Move.PodEvent(1, pod));
    WrittenWorld(WithCopy(s, 0, g), 1, LostAppendLeaves(w, p));
  }

  lemma TwoCopies(w: World, p: Parent, g: Ctx)
    ensures var s := System(w, [Some(p), Some(p)]);
      && WithCopy(s, 0, Ctx(w, p)) == s && |WithCopy(s, 0, g).copies| == 2
      && WithCopy(WithCopy(s, 0, g), 1, Ctx(g.w, p)) == WithCopy(s, 0, g)
  {
  }

  lemma WrittenWorld(s: System, k: nat, c: Ctx)
    requires k < |s.copies|
    ensures WithCopy(s, k, c).w == c.w
  {
  }

  lemma AppendOne(w: World, p: Parent, pod: Pod)
    requires HalfGrown(w, p, pod)
    ensures var g := Grow(Ctx(w, p), 1).0;
      && Piece(Ctx(w, p), GrowAt(0, 1)) == g
      && g.w == w.(pods := w.pods[PodName(p, 1) := TemplatePod(w.now, p, 1)], log := g.w.log)
      && !g.p.deletionMarked && |g.p.pods| == |g.p.claims|
  {
  }

  lemma EventOfZero(w: World, p: Parent, pod: Pod, v: World)
    requires HalfGrown(w, p, pod)
    ensures Piece(Ctx(v, p), Move.PodEvent(1, pod)) == Ctx(v, WithStatus(p, 0, Deleting))
  {
  }

  lemma Stuck(u: World, q: Parent)
    requires u.stored == Some(q) && WellFormed(q) && |q.pods| == 1 < q.spec.size && !q.spec.hasService
    requires q.pods[0].status == Deleting && q.claims[0].status == NoPhase && PodName(q, 1) in u.pods
    ensures !NoOrphans(u) && Core(u) == u
  {
    assert PodAt(u, q, 1).Some?;
    StrayPodWedges(Ctx(u, q));
  }

  lemma LostAppendHappens() returns (w: World, p: Parent, pod: Pod)
    ensures HalfGrown(w, p, pod) && Shaped(Scope("db", "data"), p)
  {
    var q := SomeParent(1, 2, None);
    p := q.(claims := [NoClaimSlot(0)]);
    pod := UpPod(p, 0).(terminating := true);
    w := SomeWorld(p, map[PodName(p, 0) := pod], map[]);
    MadePodIsNamed(0, p, 0);
    DashedInjective(p.name, 0, OwnerName(pod.annotations), Ordinal(pod.annotations));
    DashedInjective(p.name, 0, p.name, 1);
  }

  /** The exact condition, which a reconciler can check before it writes: a write leaves no orphan if and
      only if no object of the parent stands beyond the slots of the copy that is written. */
  lemma WriteTidyExactly(scope: Scope, s: System, k: nat)
    requires AllShaped(scope, s) && k < |s.copies| && s.copies[k].Some? && s.w.stored.Some?
    ensures var p, t := s.copies[k].value, Apply(scope, s, Write(k));
      t.w.stored.Some? ==> (NoOrphans(t.w) <==> NothingBeyond(s.w, p, |p.pods|))
  {
    var c := Ctx(s.w, s.copies[k].value);
    var t := Apply(scope, s, Write(k));
    assert t.w == Put(c).w;
    if t.w.stored.Some? {
      var q := t.w.stored.value;
      forall j: nat ensures PodAt(t.w, q, j) == PodAt(s.w, c.p, j) && ClaimAt(t.w, q, j) == ClaimAt(s.w, c.p, j) {
      }
    }
  }

  /** What can be checked before a move: a growth is of a stored slot, or does not get to its pod; a written
      copy has a slot for every object; and what happens outside adds none beyond the slots. */
  ghost predicate TidyMove(scope: Scope, s: System, m: Move) {
    match m
    case Outside(v) => OutsideAllowed(scope, s.w, v) ==> AddsTidily(s.w, v)
    case Write(k) => k < |s.copies| && s.copies[k].Some? && s.w.stored.Some? ==> WriteIsTidy(s.w, s.copies[k].value)
    case GrowAt(k, i) =>
      k < |s.copies| && s.copies[k].Some? && s.w.stored.Some? ==> GrowIsTidy(s.w, s.copies[k].value, i)
    case _ => true
  }

  /** No pod and no claim comes under a name beyond the slots; and where the parent itself comes, or its claim
      template, no such object is there yet. */
  ghost predicate AddsTidily(w: World, v: World) {
    v.stored.Some? ==>
      var q := v.stored.value;
      && (forall j: nat :: j >= |q.pods| && PodName(q, j) in v.pods ==> w.stored.Some? && PodName(q, j) in w.pods)
      && (forall j: nat :: j >= |q.pods| && q.spec.claimTemplate.Some? && ClaimName(q, j) in v.claims ==>
            w.stored.Some? && w.stored.value.spec.claimTemplate.Some? && ClaimName(q, j) in w.claims)
  }

  lemma OutsideTidyExactly(scope: Scope, w: World, v: World)
    requires OutsideAllowed(scope, w, v) && NoOrphans(w)
    ensures NoOrphans(v) <==> AddsTidily(w, v)
  {
    hide Dashed, PodsNamed;
    if v.stored.Some? {
      var q := v.stored.value;
      if w.stored.Some? {
        BeyondIsFree(w, w.stored.value, q);
      }
      if NoOrphans(v) {
        BeyondIsFree(v, q, q);
      } else {
        var j: nat :| j >= |q.pods| && (PodAt(v, q, j).Some? || ClaimAt(v, q, j).Some?);
      }
    }
  }

  lemma BeyondIsFree(w: World, p: Parent, q: Parent)
    requires NothingBeyond(w, p, |p.pods|) && q.name == p.name && ClaimBase(q) == ClaimBase(p)
    ensures forall j: nat :: j >= |p.pods| ==> PodName(q, j) !in w.pods
    ensures forall j: nat :: j >= |p.pods| && p.spec.claimTemplate.Some? ==> ClaimName(q, j) !in w.claims
  {
    hide Dashed;
    forall j: nat | j >= |p.pods|
      ensures PodName(q, j) !in w.pods && (p.spec.claimTemplate.Some? ==> ClaimName(q, j) !in w.claims)
    {
      assert PodAt(w, p, j).None? && ClaimAt(w, p, j).None?;
    }
  }

  ghost predicate WriteIsTidy(w: World, p: Parent)
    requires w.stored.Some?
  {
    (w.stored.value.deletionMarked && p.finalizers == []) || NothingBeyond(w, p, |p.pods|)
  }

  predicate GrowIsTidy(w: World, p: Parent, i: nat)
    requires w.stored.Some?
  {
    || i < |w.stored.value.pods| || i > |p.pods| || (i == |p.pods| && i >= p.spec.size)
    || |w.log| in w.faults || (i == 0 && p.spec.hasService && ServiceName(p) !in w.services)
  }

  lemma GrowTidyExactly(c: Ctx, o: Parent, i: nat)
    requires c.w.stored == Some(o) && NoOrphans(c.w) && i <= |c.p.pods| == |c.p.claims|
    requires c.p.name == o.name && ClaimBase(c.p) == ClaimBase(o)
    ensures NoOrphans(Grow(c, i).0.w) <==>
      || i < |o.pods| || |c.w.log| in c.w.faults
      || (i == 0 && c.p.spec.hasService && ServiceName(c.p) !in c.w.services)
  {
    hide Grow, Dashed;
    var v := Grow(c, i).0.w;
    assert v.stored == Some(o) && PodName(c.p, i) == PodName(o, i) && ClaimName(c.p, i) == ClaimName(o, i);
    if |c.w.log| in c.w.faults || (i == 0 && c.p.spec.hasService && ServiceName(c.p) !in c.w.services) {
      GrowStops(c, i);
      Orphans.FewerObjects(c.w, o, v, o);
    } else if i < |o.pods| {
      Orphans.GrowObjectsAt(c, i);
      Orphans.ObjectsOfOneSlot(c.w, o, v, o, i);
    } else {
      assert PodAt(c.w, o, i).None?;
      Revived(c.w, c.p, i);
      assert PodAt(v, o, i).Some?;
    }
  }

  /** A growth whose service is missing, or whose first call fails, makes no object of the slot. */
  lemma GrowStops(c: Ctx, i: nat)
    requires i <= |c.p.pods| == |c.p.claims|
    requires |c.w.log| in c.w.faults || (i == 0 && c.p.spec.hasService && ServiceName(c.p) !in c.w.services)
    ensures var v := Grow(c, i).0.w; v.pods == c.w.pods && v.claims == c.w.claims
  {
    hide ExpansionPodEffect, ClaimPart, WithSlots, ServiceName;
    GrowPieces(c, i);
    PodPartFails(c, i);
    ClaimPartFails(c, i);
  }

  lemma PodPartFails(c: Ctx, i: nat)
    ensures var (d, pod) := ExpansionPodEffect(c, i);
      |c.w.log| in c.w.faults ==> d.w.pods == c.w.pods && d.w.claims == c.w.claims && (pod.Some? ==> d == c)
  {
  }

  lemma ClaimPartFails(c: Ctx, i: nat)
    ensures var d := Controller.ClaimPart(c, i).0;
      |c.w.log| in c.w.faults ==> d.w.pods == c.w.pods && d.w.claims == c.w.claims
  {
  }

  lemma WriteMoveTidy(scope: Scope, s: System, k: nat)
    requires AllShaped(scope, s) && k < |s.copies| && s.copies[k].Some? && s.w.stored.Some?
    ensures NoOrphans(Apply(scope, s, Write(k)).w) <==> WriteIsTidy(s.w, s.copies[k].value)
  {
    WriteTidyExactly(scope, s, k);
    var p := s.copies[k].value;
    assert Apply(scope, s, Write(k)).w == Put(Ctx(s.w, p)).w;
  }

  /** No other piece of work makes an object, or touches what is stored. */
  lemma OtherPiecesTidy(c: Ctx, m: Move)
    requires |c.p.pods| == |c.p.claims| && !m.Write? && !m.GrowAt? && !m.Outside? && NoOrphans(c.w)
    ensures NoOrphans(Piece(c, m).w)
  {
    hide Cut, Erase, MonitorPodEffect, Ordinal, OwnerName, NoOrphans;
    match m
    case CutAt(_, i) => if 1 <= i <= |c.p.pods| { CutShape(c, i); KeysFewer(c.w, Cut(c, i).0.w); }
    case EraseAll(_) => Orphans.EraseShrinks(c); KeysFewer(c.w, Erase(c).0.w);
    case PodEvent(_, pod) =>
      if NamedByOwner(pod) && Ordinal(pod.annotations) < |c.p.pods| {
        Orphans.PodEventObjects(c, pod, Ordinal(pod.annotations));
        KeysFewer(c.w, MonitorPodEffect(c, pod, Ordinal(pod.annotations)).0.w);
      } else if Ordinal(pod.annotations) >= 0 {
        BeyondTheSlots(c, pod, Ordinal(pod.annotations));
      }
    case _ =>
  }

  lemma BeyondTheSlots(c: Ctx, pod: Pod, i: nat)
    ensures |c.p.pods| == |c.p.claims| <= i ==> MonitorPodEffect(c, pod, i) == (c, false)
  {
  }

  lemma KeysFewer(w: World, v: World)
    requires NoOrphans(w) && v.pods.Keys <= w.pods.Keys && v.claims.Keys <= w.claims.Keys && v.stored == w.stored
    ensures NoOrphans(v)
  {
    if w.stored.Some? {
      Orphans.FewerObjects(w, w.stored.value, v, w.stored.value);
    }
  }

  lemma MoveTidyExactly(scope: Scope, s: System, m: Move)
    requires AllShaped(scope, s) && NoOrphans(s.w)
    ensures NoOrphans(Apply(scope, s, m).w) <==> TidyMove(scope, s, m)
  {
    hide Piece, NoOrphans, PodsNamed, WriteIsTidy, GrowIsTidy, AddsTidily;
    if m.Outside? {
      if OutsideAllowed(scope, s.w, m.w) { OutsideTidyExactly(scope, s.w, m.w); }
    } else if !m.Read? && m.k < |s.copies| && s.copies[m.k].Some? {
      var c := Ctx(s.w, s.copies[m.k].value);
      assert |c.p.pods| == |c.p.claims|;
      if s.w.stored.None? {
        NothingStored(scope, s, m);
      } else if m.Write? {
        WriteMoveTidy(scope, s, m.k);
      } else if m.GrowAt? {
        GrowMoveTidy(scope, c, s.w.stored.value, m.i, m.k);
      } else {
        OtherPiecesTidy(c, m);
      }
    }
  }

  lemma NothingStored(scope: Scope, s: System, m: Move)
    requires AllShaped(scope, s) && s.w.stored.None? && !m.Outside?
    ensures NoOrphans(Apply(scope, s, m).w)
  {
    hide Piece;
    if !m.Read? && m.k < |s.copies| && s.copies[m.k].Some? {
      PieceStaysGone(Ctx(s.w, s.copies[m.k].value), m);
    }
  }

  lemma PieceStaysGone(c: Ctx, m: Move)
    requires |c.p.pods| == |c.p.claims| && c.w.stored.None? && !m.Outside?
    ensures Piece(c, m).w.stored.None?
  {
    if !m.Write? {
      Notices.PieceQuiet(c, m);
    }
  }

  lemma GrowMoveTidy(scope: Scope, c: Ctx, o: Parent, i: nat, k: nat)
    requires Shaped(scope, c.p) && Shaped(scope, o) && c.w.stored == Some(o) && NoOrphans(c.w)
    ensures NoOrphans(Piece(c, GrowAt(k, i)).w) <==> GrowIsTidy(c.w, c.p, i)
  {
    hide NoOrphans, Grow;
    if i < |c.p.pods| || (i == |c.p.pods| && i < c.p.spec.size) {
      GrowTidyExactly(c, o, i);
    }
  }

  ghost predicate TidyAt(scope: Scope, s: System, moves: seq<Move>, n: nat)
    requires n < |moves|
  {
    TidyMove(scope, SystemAt(scope, s, moves, n), moves[n])
  }

  ghost predicate OrphanFreeAt(scope: Scope, s: System, moves: seq<Move>, n: nat)
    requires n <= |moves|
  {
    NoOrphans(SystemAt(scope, s, moves, n).w)
  }

  /** Over every interleaving: no state has an object without a slot if and only if each move is tidy, which
      can be checked before it. */
  lemma RunTidyExactly(scope: Scope, s: System, moves: seq<Move>)
    requires AllShaped(scope, s) && NoOrphans(s.w)
    ensures (forall n: nat :: n <= |moves| ==> OrphanFreeAt(scope, s, moves, n)) <==>
      (forall n: nat :: n < |moves| ==> TidyAt(scope, s, moves, n))
  {
    hide SystemAt, NoOrphans, TidyMove;
    if forall n: nat :: n < |moves| ==> TidyAt(scope, s, moves, n) {
      forall n: nat | n <= |moves| ensures OrphanFreeAt(scope, s, moves, n) {
        TidySoFar(scope, s, moves, n);
      }
    }
    if forall n: nat :: n <= |moves| ==> OrphanFreeAt(scope, s, moves, n) {
      forall n: nat | n < |moves| ensures TidyAt(scope, s, moves, n) {
        assert OrphanFreeAt(scope, s, moves, n) && OrphanFreeAt(scope, s, moves, n + 1);
        OneTidyMove(scope, s, moves, n);
      }
    }
  }

  lemma OneTidyMove(scope: Scope, s: System, moves: seq<Move>, n: nat)
    requires AllShaped(scope, s) && n < |moves| && OrphanFreeAt(scope, s, moves, n)
    ensures OrphanFreeAt(scope, s, moves, n + 1) <==> TidyAt(scope, s, moves, n)
  {
    hide Apply, NoOrphans, TidyMove, AllShaped;
    ShapedAt(scope, s, moves, n);
    MoveTidyExactly(scope, SystemAt(scope, s, moves, n), moves[n]);
  }

  lemma {:induction false} TidySoFar(scope: Scope, s: System, moves: seq<Move>, n: nat)
    requires AllShaped(scope, s) && NoOrphans(s.w) && n <= |moves|
    requires forall m: nat :: m < |moves| ==> TidyAt(scope, s, moves, m)
    ensures OrphanFreeAt(scope, s, moves, n)
  {
    hide Apply, NoOrphans, TidyAt, AllShaped;
    if n > 0 {
      TidySoFar(scope, s, moves, n - 1);
      OneTidyMove(scope, s, moves, n - 1);
    }
  }

  // ----- a deletion that is left -----

  /** A marked parent of two slots on its way out, and a copy from before slot 1 was recorded. */
  ghost predicate ShortCopy(w: World, p: Parent, r: Parent, pod: Pod) {
    && w.stored == Some(p) && Leaving(w) && |p.pods| == 2 && p.finalizers != []
    && WellFormed(r) && r.name == p.name && r.spec == p.spec && r.finalizers == p.finalizers
    && |r.pods| == 1 && r.pods[0].status == Running && r.claims[0].status in {NoPhase, Bound}
    && PodAt(w, p, 0) == Some(pod) && NamedByOwner(pod) && OwnerName(pod.annotations) == p.name
    && Ordinal(pod.annotations) == 0
    && PodAt(w, p, 1).None? && w.faults == {} && r.spec.claimTemplate.None?
  }

  /** That copy written back takes the parent out of its deletion, and the next reconcile makes a pod. */
  lemma ShortCopyReopens(scope: Scope, w: World, p: Parent, r: Parent, pod: Pod)
    requires ShortCopy(w, p, r, pod)
    ensures var t := ApplyAll(scope, System(w, [Some(r)]), [Move.PodEvent(0, pod), Write(0)]);
      && !Leaving(t.w) && t.w.stored.Some? && t.w.stored.value.deletionMarked && ListsAgree(t.w)
      && PodName(p, 1) in Core(t.w).pods && !Core(t.w).pods[PodName(p, 1)].terminating
  {
    hide MonitorPodEffect, Grow;
    assert pod.terminating by { assert p.pods[0].podName == PodName(p, 0) && PodName(p, 0) in w.pods; }
    ShortEvent(w, r, pod);
    var s := System(w, [Some(r)]);
    assert WithCopy(s, 0, Ctx(w, r)) == s;
    ThenWrite(scope, s, 0, Ctx(w, r), Move.PodEvent(0, pod));
    var u := Put(Ctx(w, WithStatus(r, 0, Deleting))).w;
    Regrows(u, u.stored.value);
  }

  lemma ShortEvent(w: World, r: Parent, pod: Pod)
    requires |r.pods| == |r.claims| == 1 && r.pods[0].status == Running && pod.terminating
    requires NamedByOwner(pod) && OwnerName(pod.annotations) == r.name && Ordinal(pod.annotations) == 0
    ensures Piece(Ctx(w, r), Move.PodEvent(0, pod)) == Ctx(w, WithStatus(r, 0, Deleting))
  {
  }

  lemma Revived(w: World, r: Parent, i: nat)
    requires i <= |r.pods| == |r.claims| && PodAt(w, r, i).None? && |w.log| !in w.faults
    requires i == 0 && r.spec.hasService ==> ServiceName(r) in w.services
    ensures var v := Grow(Ctx(w, r), i).0.w;
      v.stored == w.stored && PodName(r, i) in v.pods && !v.pods[PodName(r, i)].terminating
  {
    hide ClaimPart;
    var (d, pod) := ExpansionPodEffect(Ctx(w, r), i);
    assert d.w.pods[PodName(r, i)] == TemplatePod(w.now, r, i);
    ClaimPartKeepsPods(d, i);
  }

  lemma ClaimPartKeepsPods(c: Ctx, i: nat)
    ensures Controller.ClaimPart(c, i).0.w.pods == c.w.pods
  {
  }

  lemma Regrows(u: World, q: Parent)
    requires u.stored == Some(q) && |q.pods| == |q.claims| == 1 < q.spec.size && u.faults == {}
    requires q.pods[0].status == Deleting && q.claims[0].status != ClaimPending
    requires PodAt(u, q, 1).None?
    ensures PodName(q, 1) in Core(u).pods && !Core(u).pods[PodName(q, 1)].terminating
  {
    hide Grow, Dashed;
    assert GetIndex(q) == 1;
    assert Core(u) == ExpansionEffect(Ctx(u, q), 1).0.w;
    Revived(u, q, 1);
  }

  lemma ShortCopyHappens() returns (w: World, p: Parent, r: Parent, pod: Pod)
    ensures ShortCopy(w, p, r, pod) && Shaped(Scope("db", "data"), p) && Shaped(Scope("db", "data"), r)
  {
    p := SomeParent(2, 2, None).(deletionMarked := true);
    r := SomeParent(1, 2, None);
    pod := UpPod(p, 0).(terminating := true);
    w := SomeWorld(p, map[PodName(p, 0) := pod], map[]);
    MadePodIsNamed(0, p, 0);
    DashedInjective(p.name, 0, OwnerName(pod.annotations), Ordinal(pod.annotations));
    DashedInjective(p.name, 0, p.name, 1);
  }

  /** A growth on a copy, from before the mark or not, at a slot of the deleting parent: the deletion is left
      exactly if the pod is gone, the service slot 0 needs is there, and the call succeeds. */
  lemma GrowKeepsLeavingExactly(scope: Scope, s: System, k: nat, i: nat)
    requires AllShaped(scope, s) && k < |s.copies| && s.copies[k].Some?
    requires s.w.stored.Some? && Leaving(s.w)
    requires i < |s.copies[k].value.pods| && i < |s.w.stored.value.pods|
    ensures var r := s.copies[k].value;
      Leaving(Apply(scope, s, GrowAt(k, i)).w) <==>
        || PodAt(s.w, r, i).Some? || |s.w.log| in s.w.faults
        || (i == 0 && r.spec.hasService && ServiceName(r) !in s.w.services)
  {
    hide Grow;
    var r, p := s.copies[k].value, s.w.stored.value;
    var c := Ctx(s.w, r);
    assert |r.pods| == |r.claims| && PodName(r, i) == p.pods[i].podName;
    assert Apply(scope, s, GrowAt(k, i)).w == Grow(c, i).0.w;
    if PodAt(s.w, r, i).Some? || |s.w.log| in s.w.faults
       || (i == 0 && r.spec.hasService && ServiceName(r) !in s.w.services) {
      NotRevived(s.w, r, i);
    } else {
      Revived(s.w, r, i);
    }
  }

  lemma NotRevived(w: World, r: Parent, i: nat)
    requires i < |r.pods| == |r.claims|
    requires PodAt(w, r, i).Some? || |w.log| in w.faults
      || (i == 0 && r.spec.hasService && ServiceName(r) !in w.services)
    ensures var v := Grow(Ctx(w, r), i).0.w; v.pods == w.pods && v.stored == w.stored
  {
    hide ClaimPart;
    ClaimPartKeepsPods(ExpansionPodEffect(Ctx(w, r), i).0, i);
  }

  /** Reconciler 0 holds a copy of the deleting parent from before the mark, of the right size, whose first slot
      out of step is slot i; its pod is gone, and nothing keeps a new one from being made. */
  ghost predicate UnmarkedCopy(scope: Scope, s: System, i: nat) {
    && AllShaped(scope, s) && |s.copies| > 0 && s.copies[0].Some? && s.w.stored.Some? && Leaving(s.w)
    && var r := s.copies[0].value;
      && !r.deletionMarked && GROUP_VERSION in r.finalizers && |r.pods| == r.spec.size == GetIndex(r)
      && r.spec.size == s.w.stored.value.spec.size
      && FirstOutOfStep(s.w, r.pods) == Some(i) && PodAt(s.w, r, i).None?
      && |s.w.log| !in s.w.faults && (i == 0 && r.spec.hasService ==> ServiceName(r) in s.w.services)
  }

  /** CoreCtrl on that copy records the loss, writes, makes the pod and may write again. The deletion outlives the
      first write, of a copy from before the mark, and ends with the pod. */
  lemma UnmarkedCopyRevives(scope: Scope, s: System, i: nat)
    requires UnmarkedCopy(scope, s, i)
    ensures var r := s.copies[0].value; var moves := CoreMoves(Ctx(s.w, r), 0);
      && |moves| >= 3 && moves[..3] == [MarkPods(0), Write(0), GrowAt(0, i)]
      && Leaving(ApplyAll(scope, s, moves[..2]).w) && !Leaving(ApplyAll(scope, s, moves[..3]).w)
      && var v := ApplyAll(scope, s, moves).w;
        && v.stored.Some? && v.stored.value.deletionMarked && !Leaving(v)
        && PodName(r, i) in v.pods && !v.pods[PodName(r, i)].terminating
  {
    var r := s.copies[0].value;
    UnmarkedLoss(s.w, r, i);
    LossKeepsLeaving(scope, s.w, s.w.stored.value, r, i);
    UnmarkedRun(scope, s, r, i);
    hide *;
    GrownAgain(LossWritten(s.w, r, i), i);
  }

  /** The loss of slot i's pod is recorded and written. */
  function LossWritten(w: World, r: Parent, i: nat): Ctx
    requires i < |r.pods|
  {
    Put(Ctx(w, WithStatus(r, i, Deleting)))
  }

  lemma UnmarkedLoss(w: World, r: Parent, i: nat)
    requires WellFormed(r) && FirstOutOfStep(w, r.pods) == Some(i) && PodAt(w, r, i).None?
    ensures i < |r.pods| && Piece(Ctx(w, r), MarkPods(0)) == Ctx(w, WithStatus(r, i, Deleting))
    ensures MarkEffect(Ctx(w, r)) == LossWritten(w, r, i)
    ensures FirstNeedingPod(LossWritten(w, r, i).w, LossWritten(w, r, i).p.pods) == Some(i)
  {
    var d := LossWritten(w, r, i);
    assert d.w.pods == w.pods && NeedsPod(d.w, d.p.pods[i]);
    assert forall j :: 0 <= j < i ==> !OutOfStep(w, r.pods[j]) && d.p.pods[j] == r.pods[j];
  }

  lemma LossKeepsLeaving(scope: Scope, w: World, p: Parent, r: Parent, i: nat)
    requires w.stored == Some(p) && Leaving(w) && Shaped(scope, p) && Shaped(scope, r) && i < |r.pods|
    requires r.finalizers != [] && |r.pods| == r.spec.size == GetIndex(r) && r.spec.size == p.spec.size
    ensures var d := LossWritten(w, r, i);
      && d.w == w.(stored := Some(d.p)) && d.p.deletionMarked && Leaving(d.w)
      && d.p.name == r.name && d.p.spec == r.spec && d.p.finalizers == r.finalizers
      && |d.p.pods| == |d.p.claims| == |r.pods|
  {
    var q := LossWritten(w, r, i).p;
    SameNamesShaped(scope, r, q);
    assert GetIndex(q) == |q.pods|;
    assert forall j :: 0 <= j < |q.pods| ==> j < |p.pods| && q.pods[j].podName == p.pods[j].podName;
  }

  /** The moves of the call, and where they lead. */
  lemma UnmarkedRun(scope: Scope, s: System, r: Parent, i: nat)
    requires |s.copies| > 0 && s.copies[0] == Some(r) && WellFormed(r) && i < |r.pods|
    requires !r.deletionMarked && GROUP_VERSION in r.finalizers && |r.pods| == r.spec.size == GetIndex(r)
    requires FirstOutOfStep(s.w, r.pods) == Some(i) && MarkEffect(Ctx(s.w, r)) == LossWritten(s.w, r, i)
    requires Piece(Ctx(s.w, r), MarkPods(0)) == Ctx(s.w, WithStatus(r, i, Deleting))
    requires FirstNeedingPod(LossWritten(s.w, r, i).w, LossWritten(s.w, r, i).p.pods) == Some(i)
    requires |LossWritten(s.w, r, i).p.pods| == |LossWritten(s.w, r, i).p.claims| == |r.pods|
    ensures var moves, d := CoreMoves(Ctx(s.w, r), 0), LossWritten(s.w, r, i);
      && |moves| >= 3 && moves[..3] == [MarkPods(0), Write(0), GrowAt(0, i)]
      && ApplyAll(scope, s, moves[..2]).w == d.w && ApplyAll(scope, s, moves[..3]).w == Grow(d, i).0.w
      && ApplyAll(scope, s, moves).w == ExpansionEffect(d, i).0.w
  {
    hide Grow, FirstOutOfStep, FirstNeedingPod, WellFormed, Piece, WithCopy;
    var c, d := Ctx(s.w, r), LossWritten(s.w, r, i);
    CoreIsMoves(scope, s, 0, c);
    SameSystem(s, r);
    var grows := [GrowAt(0, i)] + (if Grow(d, i).1.None? then [Write(0)] else []);
    assert SetFinalizerEffect(c) == c;
    assert CoreMoves(c, 0) == [MarkPods(0), Write(0)] + grows;
    var moves := CoreMoves(c, 0);
    assert moves[..2] == [MarkPods(0), Write(0)] && moves[..3] == moves[..2] + [GrowAt(0, i)];
    ThenWrite(scope, s, 0, c, MarkPods(0));
    ApplyTwice(scope, s, moves[..2], [GrowAt(0, i)]);
    OneMove(scope, s, 0, d, GrowAt(0, i));
    CopyWorld(s, d);
    CopyWorld(s, Grow(d, i).0);
    CopyWorld(s, ExpansionEffect(d, i).0);
    GrowPiece(d, i);
  }

  lemma GrowPiece(d: Ctx, i: nat)
    requires i < |d.p.pods| == |d.p.claims|
    ensures Piece(d, GrowAt(0, i)) == Grow(d, i).0
  {
    hide Grow;
  }

  lemma SameSystem(s: System, r: Parent)
    requires |s.copies| > 0 && s.copies[0] == Some(r)
    ensures WithCopy(s, 0, Ctx(s.w, r)) == s
  {
  }

  lemma CopyWorld(s: System, d: Ctx)
    requires |s.copies| > 0
    ensures WithCopy(s, 0, d).w == d.w
  {
  }

  /** Slot i of a marked parent is grown again, with or without the final write. */
  lemma GrownAgain(d: Ctx, i: nat)
    requires d.w.stored == Some(d.p) && d.p.deletionMarked && d.p.finalizers != []
    requires i < d.p.spec.size == |d.p.pods| == |d.p.claims| && PodAt(d.w, d.p, i).None? && |d.w.log| !in d.w.faults
    requires i == 0 && d.p.spec.hasService ==> ServiceName(d.p) in d.w.services
    ensures !Leaving(Grow(d, i).0.w) && var v := ExpansionEffect(d, i).0.w;
      && v.stored.Some? && v.stored.value.deletionMarked && !Leaving(v)
      && PodName(d.p, i) in v.pods && !v.pods[PodName(d.p, i)].terminating
  {
    hide Grow, GetIndex, Dashed;
    Revived(d.w, d.p, i);
  }

  /** Two slots, the second of which has lost its pod, which is recorded or not. */
  function HalfLost(was: PodPhase): Parent {
    var q := SomeParent(2, 2, None);
    q.(pods := [q.pods[0], q.pods[1].(status := was)])
  }

  lemma HalfLostShaped(was: PodPhase, marked: bool, version: nat)
    requires was in {Running, Deleting}
    ensures var p := HalfLost(was).(deletionMarked := marked, version := version);
      && Shaped(Scope("db", "data"), p) && GetIndex(p) == p.spec.size == 2 == |p.pods| == |p.claims|
      && p.pods[0].podName == Dashed("db", 0) && p.pods[1].podName == Dashed("db", 1)
      && p.pods[0].status == Running && p.pods[1].status == was && p.name == "db" && !p.spec.hasService
      && p.finalizers == [GROUP_VERSION] && !HalfLost(was).deletionMarked
  {
    hide Numeral;
  }

  lemma UnmarkedCopyHappens(was: PodPhase) returns (s: System)
    requires was in {Running, Deleting}
    ensures UnmarkedCopy(Scope("db", "data"), s, 1) && s.copies[0].value.pods[1].status == was
  {
    var r, p := HalfLost(was), HalfLost(was).(deletionMarked := true, version := 2);
    HalfLostShaped(was, false, r.version);
    HalfLostShaped(was, true, 2);
    var pod := UpPod(p, 0).(terminating := true);
    var w := SomeWorld(p, map[Dashed("db", 0) := pod], map[]);
    s := System(w, [Some(r)]);
    MadePodIsNamed(0, p, 0);
    DashedInjective("db", 0, "db", 1);
    hide HalfLost, Dashed, Shaped, Stamp;
    assert r == r.(deletionMarked := false, version := r.version);
    assert !OutOfStep(w, r.pods[0]) && OutOfStep(w, r.pods[1]);
    assert FirstOutOfStep(w, r.pods) == Some(1);
    assert AllShaped(Scope("db", "data"), s) && Leaving(w);
  }
}

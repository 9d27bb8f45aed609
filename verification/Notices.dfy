// Timeouts with several reconcilers at once: where a recorded timeout comes from, and when nothing
// else has been recorded since its notice.
module Notices {
  import opened Tools
  import opened Types
  import opened Api
  import opened PodControl
  import opened ClaimControl
  import opened Controller
  import opened Workers
  import opened Histories
  import Deletion

  predicate SlotTimedOut(p: Option<Parent>, i: nat) {
    p.Some? && i < |p.value.pods| && p.value.pods[i].status == CreateTimeOut
  }

  /** Slot i is recorded as timed out in the stored parent or in some reconciler's copy. */
  ghost predicate Anywhere(s: System, i: nat) {
    SlotTimedOut(s.w.stored, i) || exists k :: 0 <= k < |s.copies| && SlotTimedOut(s.copies[k], i)
  }

  ghost predicate NoneTimedOut(s: System) {
    forall i: nat :: !Anywhere(s, i)
  }

  /** Reconciler m.k takes the first notice of slot i: its copy does not record a timeout yet, and it
      looks at the slot's pod, which is live on a ready node, does not run, and is overdue. */
  predicate TakesNotice(s: System, m: Move, i: nat) {
    && m.PodEvent? && m.k < |s.copies| && s.copies[m.k].Some? && i < |s.copies[m.k].value.pods|
    && !SlotTimedOut(s.copies[m.k], i)
    && NamedByOwner(m.pod) && m.pod.name == PodName(s.copies[m.k].value, i) && Ordinal(m.pod.annotations) == i
    && !m.pod.terminating && NodeReadyIn(s.w, m.pod.nodeName) && !PodRunning(m.pod) && Overdue(s.w, m.pod)
  }

  // ----- where a recorded timeout comes from -----

  lemma GrowNoTimeouts(c: Ctx, i: nat)
    requires i <= |c.p.pods| == |c.p.claims|
    ensures NoNewTimeouts(c.p, Grow(c, i).0.p)
  {
    var (g, early) := Grow(c, i);
    if early.None? {
      var (d, pod) := ExpansionPodEffect(c, i);
      var (e, claim) := Controller.ClaimPart(d, i);
      assert SameSlots(e.p, c.p) && g.p == WithSlots(e.p, i, pod.value, claim.value);
    }
  }

  /** No piece of work but a pod event records a new timeout. */
  lemma PieceNoTimeouts(c: Ctx, m: Move)
    requires |c.p.pods| == |c.p.claims| && !m.PodEvent?
    ensures NoNewTimeouts(c.p, Piece(c, m).p)
  {
    hide Grow, Cut, Erase, MonitorClaimEffect;
    match m
    case GrowAt(_, i) => if i <= |c.p.pods| { GrowNoTimeouts(c, i); }
    case CutAt(_, i) => if 1 <= i <= |c.p.pods| { CutPieces(c, i); }
    case EraseAll(_) => ErasePieces(c);
    case ClaimEvent(_, claim) =>
      if Ordinal(claim.annotations) >= 0 { ClaimsOnly(c.p, claim, Ordinal(claim.annotations)); }
    case _ =>
  }

  lemma ClaimsOnly(p: Parent, claim: Claim, i: nat)
    requires |p.pods| == |p.claims|
    ensures MonitorClaimEffect(p, claim, i).0.pods == p.pods
  {
  }

  lemma PieceNotices(scope: Scope, s: System, m: Move, i: nat)
    requires AllShaped(scope, s) && !m.Outside? && !m.Read? && m.k < |s.copies| && s.copies[m.k].Some?
    requires SlotTimedOut(Some(Piece(Ctx(s.w, s.copies[m.k].value), m).p), i)
    ensures SlotTimedOut(s.copies[m.k], i) || TakesNotice(s, m, i)
  {
    var c := Ctx(s.w, s.copies[m.k].value);
    if m.PodEvent? {
      if NamedByOwner(m.pod) && OwnerName(m.pod.annotations) == c.p.name && Ordinal(m.pod.annotations) < |c.p.pods| {
        MonitorPodSlots(c, m.pod, Ordinal(m.pod.annotations));
      }
    } else {
      PieceNoTimeouts(c, m);
    }
  }

  lemma MoveNotices(scope: Scope, s: System, m: Move, i: nat)
    requires AllShaped(scope, s) && Anywhere(Apply(scope, s, m), i)
    ensures Anywhere(s, i) || TakesNotice(s, m, i)
  {
    hide Piece, NamedByOwner, PodsNamed, WellFormed;
    var t := Apply(scope, s, m);
    if t != s && !m.Outside? && !m.Read? {
      PieceShaped(scope, Ctx(s.w, s.copies[m.k].value), m);
      if SlotTimedOut(t.copies[m.k], i) {
        PieceNotices(scope, s, m, i);
      }
      assert forall k :: 0 <= k < |s.copies| && k != m.k ==> t.copies[k] == s.copies[k];
    }
  }

  /** Whatever the interleaving, a timeout recorded anywhere that was recorded nowhere at first goes back
      to a first notice, and has been recorded somewhere ever since. */
  lemma NoticeBefore(scope: Scope, s: System, moves: seq<Move>, n: nat, i: nat) returns (j: nat)
    requires AllShaped(scope, s) && n <= |moves|
    requires !Anywhere(s, i) && Anywhere(SystemAt(scope, s, moves, n), i)
    ensures j < n && TakesNotice(SystemAt(scope, s, moves, j), moves[j], i)
    ensures forall m: nat :: j < m <= n ==> Anywhere(SystemAt(scope, s, moves, m), i)
  {
    hide Apply, AllShaped, Anywhere, TakesNotice;
    ghost var f := (m: nat) => m <= |moves| && Anywhere(SystemAt(scope, s, moves, m), i);
    j := LastRise(f, n);
    assert f(j + 1) && !f(j);
    ShapedAt(scope, s, moves, j);
    MoveNotices(scope, SystemAt(scope, s, moves, j), moves[j], i);
    forall m: nat | j < m <= n ensures Anywhere(SystemAt(scope, s, moves, m), i) {
      assert f(m);
    }
  }

  /** Pod event m of reconciler m.k destroys: it deletes a pod gracefully or shortens its copy. */
  ghost predicate Destroys(scope: Scope, s: System, m: Move) {
    && m.PodEvent? && m.k < |s.copies| && s.copies[m.k].Some?
    && var t := Apply(scope, s, m);
      && |t.copies| == |s.copies| && t.copies[m.k].Some?
      && (CallsVerb(s.w, t.w, DeletePod) || |t.copies[m.k].value.pods| < |s.copies[m.k].value.pods|)
  }

  lemma DestroysTimedOut(scope: Scope, s: System, m: Move)
    requires AllShaped(scope, s) && Destroys(scope, s, m)
    ensures Ordinal(m.pod.annotations) >= 0 && SlotTimedOut(s.copies[m.k], Ordinal(m.pod.annotations))
  {
    hide MonitorPodEffect, Ordinal;
    var c := Ctx(s.w, s.copies[m.k].value);
    var i := Ordinal(m.pod.annotations);
    if i >= |c.p.pods| {
      BeyondTheEnd(c, m.pod);
    } else if i >= 0 {
      SecondNoticeAt(c, m.pod, i);
    }
  }

  lemma BeyondTheEnd(c: Ctx, pod: Pod)
    requires |c.p.pods| == |c.p.claims| <= Ordinal(pod.annotations)
    ensures MonitorPodEffect(c, pod, Ordinal(pod.annotations)).0 == c
  {
  }

  /** With any number of reconcilers in any interleaving, whatever a timeout destroys had its first
      notice in an earlier pod event. */
  lemma TimeoutsTakeTwoNotices(scope: Scope, s: System, moves: seq<Move>, n: nat) returns (j: nat)
    requires AllShaped(scope, s) && n < |moves| && NoneTimedOut(s)
    requires Destroys(scope, SystemAt(scope, s, moves, n), moves[n])
    ensures Ordinal(moves[n].pod.annotations) >= 0
    ensures j < n && TakesNotice(SystemAt(scope, s, moves, j), moves[j], Ordinal(moves[n].pod.annotations))
  {
    ShapedAt(scope, s, moves, n);
    DestroysTimedOut(scope, SystemAt(scope, s, moves, n), moves[n]);
    j := NoticeBefore(scope, s, moves, n, Ordinal(moves[n].pod.annotations));
  }

  // ----- that nothing else is recorded between a notice and what it destroys -----

  /** The stored parent records a timeout of slot i at state n. */
  ghost predicate StandsAt(scope: Scope, s: System, moves: seq<Move>, n: nat, i: nat)
    requires n <= |moves|
  {
    SlotTimedOut(SystemAt(scope, s, moves, n).w.stored, i)
  }

  /** Move m makes the stored parent record a timeout of slot i that it did not record before. */
  ghost predicate Raises(scope: Scope, s: System, moves: seq<Move>, m: nat, i: nat)
    requires m < |moves|
  {
    !StandsAt(scope, s, moves, m, i) && StandsAt(scope, s, moves, m + 1, i)
  }

  ghost function StatusAt(scope: Scope, s: System, moves: seq<Move>, l: nat, i: nat): Option<PodPhase>
    requires l <= |moves|
  {
    SlotStatus(SystemAt(scope, s, moves, l).w, i)
  }

  ghost predicate StandsSince(scope: Scope, s: System, moves: seq<Move>, m: nat, n: nat, i: nat)
    requires m < n <= |moves|
  {
    forall l: nat :: m < l <= n ==> StandsAt(scope, s, moves, l, i)
  }

  /** The stored object is one and the same from j to m. */
  ghost predicate NothingStored(scope: Scope, s: System, moves: seq<Move>, j: nat, m: nat)
    requires j <= m <= |moves|
  {
    forall l: nat :: j <= l <= m ==>
      SystemAt(scope, s, moves, l).w.stored == SystemAt(scope, s, moves, m).w.stored
  }

  // ----- versions -----

  predicate VersionBelow(p: Option<Parent>, n: nat) {
    p.Some? ==> p.value.version < n
  }

  ghost predicate CopiesBelow(s: System, n: nat) {
    forall k :: 0 <= k < |s.copies| ==> VersionBelow(s.copies[k], n)
  }

  /** No copy is newer than the stored object. */
  ghost predicate Ordered(s: System) {
    s.w.stored.Some? ==> CopiesBelow(s, s.w.stored.value.version + 1)
  }

  /** v's stored object is the old one, or gone, or newer than the old one and all copies. */
  ghost predicate Newer(s: System, v: World) {
    v.stored == s.w.stored || v.stored.None? ||
      (CopiesBelow(s, v.stored.value.version) && VersionBelow(s.w.stored, v.stored.value.version))
  }

  /** The server gives every change of the parent a new version. */
  ghost predicate Versioned(s: System, m: Move) {
    m.Outside? ==> Newer(s, m.w)
  }

  /** Reconciler k's copy is at the stored version: what an ordinary update asks for, and the forced one
      does not. */
  predicate MeetsVersion(s: System, k: nat) {
    && k < |s.copies| && s.copies[k].Some? && s.w.stored.Some?
    && s.copies[k].value.version == s.w.stored.value.version
  }

  lemma GrowKeepsVersion(c: Ctx, i: nat)
    requires i <= |c.p.pods| == |c.p.claims|
    ensures Grow(c, i).0.p.version == c.p.version
  {
    GrowPieces(c, i);
    PodPartKeepsVersion(c, i);
    ClaimPartKeepsVersion(ExpansionPodEffect(c, i).0, i);
    hide ExpansionPodEffect, ClaimPart, Grow;
  }

  lemma PodPartKeepsVersion(c: Ctx, i: nat)
    ensures ExpansionPodEffect(c, i).0.p.version == c.p.version
  {
  }

  lemma ClaimPartKeepsVersion(c: Ctx, i: nat)
    ensures Controller.ClaimPart(c, i).0.p.version == c.p.version
  {
  }

  lemma PodEventQuiet(c: Ctx, pod: Pod, i: nat)
    requires |c.p.pods| == |c.p.claims|
    ensures var d := MonitorPodEffect(c, pod, i).0; d.w.stored == c.w.stored && d.p.version == c.p.version
  {
    hide NodeLostEffect, DeletePodMandatoryEffect, DeleteClaimUntilDone, PodRunning, IsNodeReady, Dashed;
    if i < |c.p.pods| {
      NodeLostCases(c, pod, i);
      MandatoryKeepsStored(c.w, pod);
      InsistentDeleteKeepsPods(DeletePodIn(c.w, pod.name).0, ClaimName(c.p, i));
    }
  }

  lemma EraseQuiet(c: Ctx)
    requires |c.p.pods| == |c.p.claims|
    ensures Erase(c).0.w.stored == c.w.stored && Erase(c).0.p.version == c.p.version
  {
    hide Erase;
    ErasePieces(c);
    Deletion.EraseWorld(c);
  }

  /** No piece of work but a write touches the stored object, or the version of the copy. */
  lemma PieceQuiet(c: Ctx, m: Move)
    requires |c.p.pods| == |c.p.claims| && !m.Write?
    ensures Piece(c, m).w.stored == c.w.stored && Piece(c, m).p.version == c.p.version
  {
    hide Grow, Cut, Erase, MonitorPodEffect, MonitorClaimEffect, Ordinal, OwnerName;
    match m
    case GrowAt(_, i) => if i <= |c.p.pods| { GrowKeepsVersion(c, i); }
    case CutAt(_, i) => if 1 <= i <= |c.p.pods| { CutPieces(c, i); }
    case EraseAll(_) => EraseQuiet(c);
    case PodEvent(_, pod) => if Ordinal(pod.annotations) >= 0 { PodEventQuiet(c, pod, Ordinal(pod.annotations)); }
    case ClaimEvent(_, claim) =>
      if Ordinal(claim.annotations) >= 0 { ClaimKeepsVersion(c.p, claim, Ordinal(claim.annotations)); }
    case _ =>
  }

  lemma ClaimKeepsVersion(p: Parent, claim: Claim, i: nat)
    requires |p.pods| == |p.claims|
    ensures MonitorClaimEffect(p, claim, i).0.version == p.version
  {
  }

  /** So along a run versions only grow: the stored object is the same, or gone, or newer than all before. */
  lemma MoveVersions(scope: Scope, s: System, m: Move)
    requires Ordered(s) && Versioned(s, m)
    ensures var t := Apply(scope, s, m); Ordered(t) && Newer(s, t.w) && |t.copies| == |s.copies|
    ensures var t := Apply(scope, s, m);
      forall k :: 0 <= k < |s.copies| && m != Read(k) && m != Write(k) ==>
        t.copies[k].Some? == s.copies[k].Some?
        && (s.copies[k].Some? ==> t.copies[k].value.version == s.copies[k].value.version)
  {
    hide Piece, OutsideAllowed;
    if !m.Outside? && !m.Read? && m.k < |s.copies| && s.copies[m.k].Some? {
      var c := Ctx(s.w, s.copies[m.k].value);
      if |c.p.pods| == |c.p.claims| {
        if m.Write? {
          WriteVersions(s, m.k);
        } else {
          PieceQuiet(c, m);
        }
      }
    }
  }

  lemma WriteVersions(s: System, k: nat)
    requires Ordered(s) && k < |s.copies| && s.copies[k].Some?
    requires |s.copies[k].value.pods| == |s.copies[k].value.claims|
    ensures var t := WithCopy(s, k, Piece(Ctx(s.w, s.copies[k].value), Write(k)));
      Ordered(t) && Newer(s, t.w)
  {
  }

  ghost predicate VersionedAt(scope: Scope, s: System, moves: seq<Move>, n: nat)
    requires n < |moves|
  {
    Versioned(SystemAt(scope, s, moves, n), moves[n])
  }

  ghost predicate VersionedRun(scope: Scope, s: System, moves: seq<Move>) {
    Ordered(s) && forall n: nat :: n < |moves| ==> VersionedAt(scope, s, moves, n)
  }

  lemma {:induction false} OrderedAt(scope: Scope, s: System, moves: seq<Move>, n: nat)
    requires VersionedRun(scope, s, moves) && n <= |moves|
    ensures Ordered(SystemAt(scope, s, moves, n)) && |SystemAt(scope, s, moves, n).copies| == |s.copies|
  {
    hide Apply, Ordered, Versioned;
    if n > 0 {
      OrderedAt(scope, s, moves, n - 1);
      assert VersionedAt(scope, s, moves, n - 1);
      MoveVersions(scope, SystemAt(scope, s, moves, n - 1), moves[n - 1]);
    }
  }

  /** Reconciler k neither reads nor writes from b to m. */
  ghost predicate Holds(moves: seq<Move>, k: nat, b: nat, m: nat)
    requires b <= m <= |moves|
  {
    forall l: nat :: b <= l < m ==> moves[l] != Read(k) && moves[l] != Write(k)
  }

  /** If its copy still meets the stored version, the stored object has not changed since. */
  lemma {:induction false} UnchangedSince(scope: Scope, s: System, moves: seq<Move>, k: nat, b: nat, m: nat)
    requires VersionedRun(scope, s, moves) && b <= m <= |moves| && Holds(moves, k, b, m)
    requires MeetsVersion(SystemAt(scope, s, moves, m), k)
    ensures forall l: nat :: b <= l <= m ==>
      SystemAt(scope, s, moves, l).w.stored == SystemAt(scope, s, moves, m).w.stored
    ensures forall l: nat :: b <= l <= m ==> MeetsVersion(SystemAt(scope, s, moves, l), k)
    decreases m - b
  {
    hide Apply, Versioned;
    if b < m {
      var t := SystemAt(scope, s, moves, m - 1);
      OrderedAt(scope, s, moves, m - 1);
      assert VersionedAt(scope, s, moves, m - 1);
      MoveVersions(scope, t, moves[m - 1]);
      assert moves[m - 1] != Read(k) && moves[m - 1] != Write(k);
      StillMeets(t, SystemAt(scope, s, moves, m), k);
      UnchangedSince(scope, s, moves, k, b, m - 1);
    }
  }

  lemma StillMeets(s: System, t: System, k: nat)
    requires Ordered(s) && Newer(s, t.w) && MeetsVersion(t, k) && |s.copies| == |t.copies|
    requires s.copies[k].Some? && s.copies[k].value.version == t.copies[k].value.version
    ensures t.w.stored == s.w.stored && MeetsVersion(s, k)
  {
    assert VersionBelow(s.copies[k], s.copies[k].value.version) == false;
  }

  /** The state after reconciler k's last read or write before m, or the first one. */
  lemma {:induction false} LastLook(moves: seq<Move>, k: nat, m: nat) returns (b: nat)
    requires m <= |moves|
    ensures b <= m && Holds(moves, k, b, m)
    ensures b == 0 || moves[b - 1] == Read(k) || moves[b - 1] == Write(k)
  {
    if m == 0 || moves[m - 1] == Read(k) || moves[m - 1] == Write(k) {
      b := m;
    } else {
      b := LastLook(moves, k, m - 1);
    }
  }

  // ----- the theorem -----

  /** At move j a reconciler takes the notice of slot i on a copy of what is stored; nothing is stored until it
      writes the notice at move m; and the timeout stands from that write on to n. */
  ghost predicate NoticeOf(scope: Scope, s: System, moves: seq<Move>, j: nat, m: nat, n: nat, i: nat)
    requires j < m < n <= |moves|
  {
    && TakesNotice(SystemAt(scope, s, moves, j), moves[j], i) && MeetsVersion(SystemAt(scope, s, moves, j), moves[j].k)
    && moves[m] == Write(moves[j].k) && Holds(moves, moves[j].k, j, m)
    && NothingStored(scope, s, moves, j, m)
    && Raises(scope, s, moves, m, i) && StandsSince(scope, s, moves, m, n, i)
  }

  /** The timeout that stands at n has its notice, and nothing else was recorded in between. */
  ghost predicate Recorded(scope: Scope, s: System, moves: seq<Move>, n: nat, i: nat)
    requires n <= |moves|
  {
    exists j: nat, m: nat :: j < m < n && NoticeOf(scope, s, moves, j, m, n, i)
  }

  /** Only a write raises a stored timeout, one of a copy that has it. */
  lemma RaisedByWrite(scope: Scope, s: System, m: Move, i: nat)
    requires AllShaped(scope, s)
    requires !SlotTimedOut(s.w.stored, i) && SlotTimedOut(Apply(scope, s, m).w.stored, i)
    ensures m.Write? && m.k < |s.copies| && SlotTimedOut(s.copies[m.k], i)
  {
    hide Piece, PodsNamed, WellFormed;
    if !m.Outside? && !m.Read? && m.k < |s.copies| && s.copies[m.k].Some? {
      var c := Ctx(s.w, s.copies[m.k].value);
      SameLengthCopy(scope, s, m.k);
      if m.Write? {
        WriteStores(c, m.k);
      } else {
        PieceQuiet(c, m);
      }
    }
  }

  lemma SameLengthCopy(scope: Scope, s: System, k: nat)
    requires AllShaped(scope, s) && k < |s.copies| && s.copies[k].Some?
    ensures |s.copies[k].value.pods| == |s.copies[k].value.claims|
  {
  }

  lemma WriteStores(c: Ctx, k: nat)
    requires |c.p.pods| == |c.p.claims|
    ensures var d := Piece(c, Write(k));
      && d.p.pods == c.p.pods && d.w.stored in {None, Some(d.p)}
  {
  }

  /** After its own read or write a reconciler's copy records what is stored. */
  lemma LooksAlike(scope: Scope, s: System, k: nat, m: Move, i: nat)
    requires AllShaped(scope, s) && m in {Read(k), Write(k)} && k < |s.copies|
    requires var t := Apply(scope, s, m); |t.copies| == |s.copies| && t.w.stored.Some? && SlotTimedOut(t.copies[k], i)
    ensures SlotTimedOut(Apply(scope, s, m).w.stored, i)
  {
    if m.Write? && s.copies[k].Some? {
      SameLengthCopy(scope, s, k);
      WriteStores(Ctx(s.w, s.copies[k].value), k);
    }
  }

  /** A copy that comes to record a timeout by neither read nor write took the notice. */
  lemma CopyNotices(scope: Scope, s: System, m: Move, k: nat, i: nat)
    requires AllShaped(scope, s) && k < |s.copies| && m != Read(k) && m != Write(k)
    requires var t := Apply(scope, s, m);
      |t.copies| == |s.copies| && !SlotTimedOut(s.copies[k], i) && SlotTimedOut(t.copies[k], i)
    ensures TakesNotice(s, m, i) && m.k == k
  {
    hide Piece, NamedByOwner, PodsNamed, WellFormed, OutsideAllowed;
    if !m.Outside? && m.k == k {
      PieceNotices(scope, s, m, i);
    }
  }

  lemma NotTimedOutAtLook(scope: Scope, s: System, moves: seq<Move>, k: nat, b: nat, i: nat)
    requires AllShaped(scope, s) && NoneTimedOut(s) && b <= |moves| && k < |s.copies|
    requires b == 0 || moves[b - 1] == Read(k) || moves[b - 1] == Write(k)
    requires !StandsAt(scope, s, moves, b, i) && SystemAt(scope, s, moves, b).w.stored.Some?
    ensures |SystemAt(scope, s, moves, b).copies| == |s.copies|
    ensures !SlotTimedOut(SystemAt(scope, s, moves, b).copies[k], i)
  {
    hide Apply, AllShaped, SlotTimedOut;
    ShapedAt(scope, s, moves, b);
    if b == 0 {
      assert !Anywhere(s, i);
    } else {
      ShapedAt(scope, s, moves, b - 1);
      if SlotTimedOut(SystemAt(scope, s, moves, b).copies[k], i) {
        LooksAlike(scope, SystemAt(scope, s, moves, b - 1), k, moves[b - 1], i);
      }
    }
  }

  /** The notice of a write that meets its version, with nothing stored in between. */
  lemma WriteHasNotice(scope: Scope, s: System, moves: seq<Move>, m: nat, i: nat) returns (j: nat)
    requires AllShaped(scope, s) && NoneTimedOut(s) && VersionedRun(scope, s, moves)
    requires m < |moves| && Raises(scope, s, moves, m, i)
    requires moves[m].Write? ==> MeetsVersion(SystemAt(scope, s, moves, m), moves[m].k)
    ensures j < m && TakesNotice(SystemAt(scope, s, moves, j), moves[j], i) && moves[m] == Write(moves[j].k)
    ensures MeetsVersion(SystemAt(scope, s, moves, j), moves[j].k) && Holds(moves, moves[j].k, j, m)
    ensures NothingStored(scope, s, moves, j, m)
  {
    hide Apply, AllShaped, TakesNotice, VersionedRun, SlotTimedOut, MeetsVersion, Holds, NoneTimedOut;
    ShapedAt(scope, s, moves, m);
    RaisedByWrite(scope, SystemAt(scope, s, moves, m), moves[m], i);
    var k := moves[m].k;
    var b := LastLook(moves, k, m);
    UnchangedSince(scope, s, moves, k, b, m);
    MeetsMeans(SystemAt(scope, s, moves, m), k);
    NotTimedOutAtLook(scope, s, moves, k, b, i);
    ghost var f := (x: nat) => b + x <= m && k < |SystemAt(scope, s, moves, b + x).copies|
      && SlotTimedOut(SystemAt(scope, s, moves, b + x).copies[k], i);
    var x := LastRise(f, m - b);
    j := b + x;
    assert f(x + 1) && !f(x);
    ShapedAt(scope, s, moves, j);
    HeldAt(moves, k, b, m, j);
    assert SystemAt(scope, s, moves, j + 1) == Apply(scope, SystemAt(scope, s, moves, j), moves[j]);
    ShapedAt(scope, s, moves, j + 1);
    CopyNotices(scope, SystemAt(scope, s, moves, j), moves[j], k, i);
  }

  lemma MeetsMeans(s: System, k: nat)
    requires MeetsVersion(s, k)
    ensures k < |s.copies| && s.w.stored.Some?
  {
  }

  lemma HeldAt(moves: seq<Move>, k: nat, b: nat, m: nat, j: nat)
    requires b <= j < m <= |moves| && Holds(moves, k, b, m)
    ensures moves[j] != Read(k) && moves[j] != Write(k) && Holds(moves, k, j, m)
  {
  }

  /** The write that made the timeout of slot i stand at n met its version. */
  ghost predicate RaisedInTime(scope: Scope, s: System, moves: seq<Move>, n: nat, i: nat)
    requires n <= |moves|
  {
    forall m: nat ::
      m < n && Raises(scope, s, moves, m, i) && StandsSince(scope, s, moves, m, n, i) && moves[m].Write? ==>
        MeetsVersion(SystemAt(scope, s, moves, m), moves[m].k)
  }

  /** With any number of reconcilers in any interleaving: from the notice to its write nothing was stored, and
      from that write to n the timeout stood, exactly if it is stored at n, when a pod event may act on it, and
      the write that raised it met its version. Both can be checked before the move. */
  lemma NothingElseRecorded(scope: Scope, s: System, moves: seq<Move>, n: nat, i: nat)
    requires AllShaped(scope, s) && NoneTimedOut(s) && VersionedRun(scope, s, moves) && n <= |moves|
    ensures Recorded(scope, s, moves, n, i) <==>
      StandsAt(scope, s, moves, n, i) && RaisedInTime(scope, s, moves, n, i)
  {
    hide StandsAt, RaisedInTime, Recorded, AllShaped, NoneTimedOut, VersionedRun;
    if StandsAt(scope, s, moves, n, i) && RaisedInTime(scope, s, moves, n, i) {
      InTimeIsRecorded(scope, s, moves, n, i);
    }
    if Recorded(scope, s, moves, n, i) {
      RecordedIsInTime(scope, s, moves, n, i);
    }
  }

  lemma InTimeIsRecorded(scope: Scope, s: System, moves: seq<Move>, n: nat, i: nat)
    requires AllShaped(scope, s) && NoneTimedOut(s) && VersionedRun(scope, s, moves) && n <= |moves|
    requires StandsAt(scope, s, moves, n, i) && RaisedInTime(scope, s, moves, n, i)
    ensures Recorded(scope, s, moves, n, i)
  {
    hide SystemAt, TakesNotice, VersionedRun, MeetsVersion, AllShaped, StandsAt, Holds, NothingStored;
    ghost var f := (m: nat) => m <= |moves| && StandsAt(scope, s, moves, m, i);
    StartsWithout(scope, s, moves, i);
    var m := LastRise(f, n);
    assert f(m + 1) && !f(m);
    assert Raises(scope, s, moves, m, i);
    forall l: nat | m < l <= n ensures StandsAt(scope, s, moves, l, i) {
      assert f(l);
    }
    assert StandsSince(scope, s, moves, m, n, i);
    var j := WriteHasNotice(scope, s, moves, m, i);
    LaterThanItsWrite(scope, s, moves, m, n, i);
    assert NoticeOf(scope, s, moves, j, m, n, i);
  }

  lemma LaterThanItsWrite(scope: Scope, s: System, moves: seq<Move>, m: nat, n: nat, i: nat)
    requires m <= n <= |moves| && !StandsAt(scope, s, moves, m, i) && StandsAt(scope, s, moves, n, i)
    ensures m < n
  {
  }

  /** The timeout was raised once since, by a write whose reconciler held the copy of its notice. */
  lemma RecordedIsInTime(scope: Scope, s: System, moves: seq<Move>, n: nat, i: nat)
    requires VersionedRun(scope, s, moves) && n <= |moves| && Recorded(scope, s, moves, n, i)
    ensures StandsAt(scope, s, moves, n, i) && RaisedInTime(scope, s, moves, n, i)
  {
    hide SystemAt, TakesNotice, VersionedRun, MeetsVersion, StandsAt, Holds, NothingStored;
    var j: nat, m: nat :| j < m < n && NoticeOf(scope, s, moves, j, m, n, i);
    TakenByEvent(SystemAt(scope, s, moves, j), moves[j], i);
    MeetsUntil(scope, s, moves, moves[j].k, j, m);
    forall l: nat | l < n && Raises(scope, s, moves, l, i) && StandsSince(scope, s, moves, l, n, i) ensures l == m {
      OneRise(scope, s, moves, l, m, n, i);
      OneRise(scope, s, moves, m, l, n, i);
    }
  }

  /** Nothing rises after a rise since which the timeout stands. */
  lemma OneRise(scope: Scope, s: System, moves: seq<Move>, l: nat, m: nat, n: nat, i: nat)
    requires l < n <= |moves| && m < n
    requires Raises(scope, s, moves, m, i) && StandsSince(scope, s, moves, l, n, i)
    ensures m <= l
  {
    hide StandsAt;
  }

  lemma TakenByEvent(s: System, m: Move, i: nat)
    requires TakesNotice(s, m, i)
    ensures m.PodEvent?
  {
  }

  /** A copy that is held while nothing is stored goes on meeting the stored version. */
  lemma {:induction false} MeetsUntil(scope: Scope, s: System, moves: seq<Move>, k: nat, j: nat, m: nat)
    requires VersionedRun(scope, s, moves) && j <= m <= |moves| && Holds(moves, k, j, m)
    requires NothingStored(scope, s, moves, j, m) && MeetsVersion(SystemAt(scope, s, moves, j), k)
    ensures MeetsVersion(SystemAt(scope, s, moves, m), k)
    decreases m - j
  {
    hide Apply, Versioned;
    if j < m {
      var t := SystemAt(scope, s, moves, j);
      OrderedAt(scope, s, moves, j);
      assert VersionedAt(scope, s, moves, j);
      MoveVersions(scope, t, moves[j]);
      assert SystemAt(scope, s, moves, j + 1) == Apply(scope, t, moves[j]);
      assert moves[j] != Read(k) && moves[j] != Write(k);
      assert SystemAt(scope, s, moves, j + 1).w.stored == t.w.stored;
      MeetsUntil(scope, s, moves, k, j + 1, m);
    }
  }

  lemma StartsWithout(scope: Scope, s: System, moves: seq<Move>, i: nat)
    requires NoneTimedOut(s)
    ensures !StandsAt(scope, s, moves, 0, i)
  {
    assert !Anywhere(s, i);
  }
}

/**
  A guard that another instance has written over. It gets the key back only by
  a late create of its own. Nothing else that is late matters: no update, no delete, and no write
  of anyone else.
 */
module GuardDeposed {
  import opened Common
  import opened KvBucket
  import opened GuardProtocol
  import opened GuardCustody
  import opened GuardTenure

  // Another instance's write f came after the guard's recorded revision.
  ghost predicate Deposed(w: World, id: Id, l: Lease, f: nat) {
    l.rev < f <= |w.Log()| && Author(w, f) != id
  }

  // A step of a held guard moves its revision only to a later write of its own.
  lemma HeldStep(m: Membership, w: World, a: Action, id: Id, l: Lease, l': Lease)
    requires Inv(m, w) && Enabled(w, a) && PhaseTenure(w, id, w.Phase(id))
    requires Held(w, id, l) && Held(Do(m, w, a), id, l')
    ensures l'.rev == l.rev || (l.rev < l'.rev && OwnPut(w, id, l'.rev))
  {
    assert PhaseOk(m, w, id, w.Phase(id));
    if a.Deliver? && a.id == id {
      DeliverPhase(m, w, id);
      ResumedLease(m, id, w.now, w.Phase(id).at, w.replies[w.Phase(id).k]);
    } else if !a.Handle? {
      QuietPhase(m, w, a, id);
    }
  }

  // Deposed, or a late create has come since.
  ghost predicate DeposedOrLate(w: World, id: Id, l: Lease, f: nat) {
    Deposed(w, id, l, f) || LateIn(w, id, f, |w.Log()|)
  }

  lemma DeposedMove(w: World, w': World, id: Id, l: Lease, l': Lease, f: nat)
    requires Chain(w, id, l.rev) && w.Log() <= w'.Log() && DeposedOrLate(w, id, l, f)
    requires l'.rev == l.rev || OwnPut(w, id, l'.rev)
    ensures DeposedOrLate(w', id, l', f)
  {
    ExtendsSame(w, w');
    if LateIn(w, id, f, |w.Log()|) {
      LateInStays(w, w', id, f, |w.Log()|, |w'.Log()|);
    } else {
      assert Same(w, w', f);
      if l'.rev > f {
        assert Author(w, l'.rev) == id;
        LateInStays(w, w', id, f, l'.rev, |w'.Log()|);
      }
    }
  }

  lemma DeposedStep(m: Membership, w: World, a: Action, id: Id, l: Lease, l': Lease, f: nat)
    requires Inv(m, w) && Enabled(w, a) && PhaseTenure(w, id, w.Phase(id))
    requires Held(w, id, l) && DeposedOrLate(w, id, l, f) && Held(Do(m, w, a), id, l')
    ensures DeposedOrLate(Do(m, w, a), id, l', f)
  {
    StepExtends(m, w, a);
    HeldStep(m, w, a, id, l, l');
    DeposedMove(w, Do(m, w, a), id, l, l', f);
  }

  lemma DeposedNext(m: Membership, ws: seq<World>, i: nat, id: Id, l: Lease, l': Lease, f: nat)
    requires Run(m, ws) && i + 1 < |ws|
    requires Held(ws[i], id, l) && Held(ws[i + 1], id, l') && DeposedOrLate(ws[i], id, l, f)
    ensures DeposedOrLate(ws[i + 1], id, l', f)
  {
    RunTenures(m, ws, i);
    var a := TakenStep(m, ws, i);
    DeposedStep(m, ws[i], a, id, l, l', f);
  }

  lemma {:induction false} StaysDeposed(m: Membership, ws: seq<World>, i: nat, j: nat, id: Id, ls: seq<Lease>, f: nat)
    requires Run(m, ws) && i <= j < |ws| && |ls| == |ws|
    requires forall k :: i <= k <= j ==> Held(ws[k], id, ls[k])
    requires Deposed(ws[i], id, ls[i], f)
    ensures DeposedOrLate(ws[j], id, ls[j], f)
    decreases j
  {
    if i < j {
      StaysDeposed(m, ws, i, j - 1, id, ls, f);
      DeposedNext(m, ws, j - 1, id, ls[j - 1], ls[j], f);
    }
  }

  lemma NoLateIn(w: World, id: Id, f: nat)
    ensures NoLateAfter(w, id, f) <==> !LateIn(w, id, f, |w.Log()|)
  {
    if !NoLateAfter(w, id, f) {
      var z :| z > f && Late(w, id, z);
    }
  }

  lemma DeposedHasNoKey(w: World, id: Id, l: Lease, f: nat)
    requires Held(w, id, l) && Deposed(w, id, l, f) && PhaseTenure(w, id, w.Phase(id)) && NoLateAfter(w, id, f)
    requires l.rev > 0
    ensures NoOwnAfter(w, id, f) && !Names(w, id) && !Accepts(w.bucket, Update(id, l.rev))
  {
    forall x | f < x <= |w.Log()| ensures Author(w, x) != id {
      assert Author(w, x) == id ==> LateIn(w, id, f, x);
    }
    assert Author(w, |w.Log()|) == w.Log()[|w.Log()| - 1].who;
  }

  lemma LeaseHeld(m: Membership, ws: seq<World>, i: nat, id: Id, l: Lease)
    requires Run(m, ws) && i < |ws| && Held(ws[i], id, l)
    ensures PhaseTenure(ws[i], id, ws[i].Phase(id)) && OwnPut(ws[i], id, l.rev)
  {
    RunTenures(m, ws, i);
    assert PhaseOk(m, ws[i], id, ws[i].Phase(id));
  }

  /** No silent resurrection: once another instance has written the bucket after a guard's
      recorded revision, then for as long as the guard goes on, whatever happens to that other
      instance's key and whatever else comes late, the guard is never again the key's holder and its
      refresh is refused, unless a create of its own is accepted late. */
  lemma NoSilentResurrection(m: Membership, ws: seq<World>, i: nat, j: nat, id: Id, ls: seq<Lease>, f: nat)
    requires Run(m, ws) && i <= j < |ws| && |ls| == |ws|
    requires forall k :: i <= k <= j ==> Held(ws[k], id, ls[k])
    requires Deposed(ws[i], id, ls[i], f) && NoLateAfter(ws[j], id, f)
    ensures Deposed(ws[j], id, ls[j], f)
    ensures !Names(ws[j], id) && !Accepts(ws[j].bucket, Update(id, ls[j].rev))
  {
    StaysDeposed(m, ws, i, j, id, ls, f);
    NoLateIn(ws[j], id, f);
    LeaseHeld(m, ws, j, id, ls[j]);
    DeposedHasNoKey(ws[j], id, ls[j], f);
  }

  lemma LateBefore(m: Membership, ws: seq<World>, k: nat, j: nat, id: Id, f: nat)
    requires Run(m, ws) && k <= j < |ws| && NoLateAfter(ws[j], id, f)
    ensures NoLateAfter(ws[k], id, f)
  {
    RunExtends(m, ws, k, j);
    ExtendsSame(ws[k], ws[j]);
    NoLateIn(ws[j], id, f);
    NoLateIn(ws[k], id, f);
    if LateIn(ws[k], id, f, |ws[k].Log()|) {
      LateInStays(ws[k], ws[j], id, f, |ws[k].Log()|, |ws[j].Log()|);
    }
  }

  // The step of a run that made a write.
  lemma {:induction false} WrittenAt(m: Membership, ws: seq<World>, i: nat, j: nat, x: nat) returns (k: nat)
    requires Run(m, ws) && i <= j < |ws| && |ws[i].Log()| < x <= |ws[j].Log()|
    ensures i < k <= j && |ws[k].Log()| == x && |ws[k - 1].Log()| == x - 1
    decreases j
  {
    ChainOfCustody(m, ws, j - 1);
    if |ws[j - 1].Log()| < x {
      k := j;
    } else {
      k := WrittenAt(m, ws, i, j - 1, x);
    }
  }

  // A late write is a create, and the key is its author's.
  lemma LateStepNames(m: Membership, w: World, a: Action, id: Id)
    requires Enabled(w, a) && |Do(m, w, a).Log()| == |w.Log()| + 1 && Late(Do(m, w, a), id, |w.Log()| + 1)
    ensures Names(Do(m, w, a), id)
  {
    if a.Handle? {
      HandleLog(m, w, a.k);
    } else {
      QuietStep(m, w, a);
    }
  }

  lemma LateWriteNames(m: Membership, ws: seq<World>, i: nat, j: nat, x: nat, id: Id) returns (k: nat)
    requires Run(m, ws) && i <= j < |ws| && |ws[i].Log()| < x && Late(ws[j], id, x)
    ensures i < k <= j && Names(ws[k], id)
  {
    k := WrittenAt(m, ws, i, j, x);
    RunExtends(m, ws, k, j);
    ExtendsSame(ws[k], ws[j]);
    assert Same(ws[k], ws[j], x);
    var a := TakenStep(m, ws, k - 1);
    LateStepNames(m, ws[k - 1], a, id);
  }

  /** The exact condition: from the moment another instance has written over a guard, and for as
      long as the guard goes on, the key names it again if and only if a create of its own is
      accepted late. */
  lemma ResurrectedIff(m: Membership, ws: seq<World>, i: nat, j: nat, id: Id, ls: seq<Lease>)
    requires Run(m, ws) && i <= j < |ws| && |ls| == |ws|
    requires forall k :: i <= k <= j ==> Held(ws[k], id, ls[k])
    requires Deposed(ws[i], id, ls[i], |ws[i].Log()|)
    ensures (exists k :: i <= k <= j && Names(ws[k], id)) <==> exists x :: x > |ws[i].Log()| && Late(ws[j], id, x)
  {
    var f := |ws[i].Log()|;
    if x :| x > f && Late(ws[j], id, x) {
      var k := LateWriteNames(m, ws, i, j, x, id);
      assert i <= k <= j && Names(ws[k], id);
    } else {
      forall k | i <= k <= j ensures !Names(ws[k], id) {
        LateBefore(m, ws, k, j, id, f);
        NoSilentResurrection(m, ws, i, k, id, ls, f);
      }
    }
  }

  /** A deposed guard's next refresh ends lost once its reads succeed: at whatever worlds of the
      run the broker handles its update, its read and its last-sequence request, the update is
      refused, the read shows another holder or leads to the count, unless a create of its own came late,
      and the count differs. The retake's create is never reached. */
  lemma DeposedRefreshEndsLost(m: Membership, ws: seq<World>, i: nat, j: nat, k: nat, id: Id, l: Lease, f: nat,
                               now: Time)
    requires Run(m, ws) && i <= j <= k < |ws|
    requires Held(ws[i], id, l) && Held(ws[j], id, l) && Held(ws[k], id, l) && Deposed(ws[i], id, l, f)
    ensures Resume(m, id, now, Refreshing(l), Answer(ws[i].bucket, RequestAt(id, Refreshing(l)))) ==
            Ask(Reconciling(l), false)
    ensures NoLateAfter(ws[j], id, f) ==>
              var n := Resume(m, id, now, Reconciling(l), Answer(ws[j].bucket, RequestAt(id, Reconciling(l))));
              n == Rest(Lost(l)) || n == Ask(Counting(l), false)
    ensures Resume(m, id, now, Counting(l), Answer(ws[k].bucket, RequestAt(id, Counting(l)))) == Rest(Lost(l))
  {
    RunExtends(m, ws, i, j);
    RunExtends(m, ws, j, k);
    ExtendsSame(ws[i], ws[j]);
    assert Same(ws[i], ws[j], f);
    LeaseHeld(m, ws, j, id, l);
    RefusedUpdate(m, ws[i], id, l, now);
    RefusedUpdate(m, ws[k], id, l, now);
    if NoLateAfter(ws[j], id, f) {
      DeposedHasNoKey(ws[j], id, l, f);
      ForeignRead(m, ws[j], id, l, now);
    }
  }

  lemma RefusedUpdate(m: Membership, w: World, id: Id, l: Lease, now: Time)
    requires 0 < l.rev < |w.Log()|
    ensures Resume(m, id, now, Refreshing(l), Answer(w.bucket, RequestAt(id, Refreshing(l)))) ==
            Ask(Reconciling(l), false)
    ensures Resume(m, id, now, Counting(l), Answer(w.bucket, RequestAt(id, Counting(l)))) == Rest(Lost(l))
  {
  }

  lemma ForeignRead(m: Membership, w: World, id: Id, l: Lease, now: Time)
    requires !Names(w, id)
    ensures var n := Resume(m, id, now, Reconciling(l), Answer(w.bucket, RequestAt(id, Reconciling(l))));
            n == Rest(Lost(l)) || n == Ask(Counting(l), false)
  {
  }
}

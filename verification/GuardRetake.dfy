/**
  The two requests of retakeExpired: what can be written between its
  last-sequence read and its create, and how the create's revision tells.
 */
module GuardRetake {
  import opened Common
  import opened KvBucket
  import opened GuardProtocol
  import opened GuardCustody
  import opened GuardTenure

  ghost predicate UnawaitedIn(w: World, id: Id, after: nat, upTo: nat) {
    exists z :: after < z <= upTo && Unawaited(w, id, z)
  }

  // Between r and n, id wrote only after a create it had given up on.
  ghost predicate OnlyUnawaited(w: World, id: Id, r: nat, n: nat) {
    forall x :: r < x <= n && x <= |w.Log()| && Author(w, x) == id ==> UnawaitedIn(w, id, r, x)
  }

  // The key has no value at revision r, should that be the last.
  ghost predicate GoneAt(w: World, r: nat) {
    |w.Log()| == r ==> !w.bucket.Live()
  }

  // From the read that found the key missing to the reply to a retake's create.
  ghost predicate RetakeTenure(w: World, id: Id, ph: Phase) {
    ph.Waiting? ==>
      match ph.at
      case Reconciling(l) => ph.k in w.replies && w.replies[ph.k].Missing? ==> GoneAt(w, l.rev)
      case Counting(l) =>
        && GoneAt(w, l.rev)
        && (ph.k in w.replies && w.replies[ph.k] == Last(l.rev) ==> OnlyUnawaited(w, id, l.rev, |w.Log()|))
      case Recovering(l) =>
        if ph.k in w.replies && w.replies[ph.k].Done? then
          l.rev < w.replies[ph.k].rev <= |w.Log()| && OnlyUnawaited(w, id, l.rev, w.replies[ph.k].rev - 1)
        else
          GoneAt(w, l.rev) && OnlyUnawaited(w, id, l.rev, |w.Log()|)
      case _ => true
  }

  ghost predicate Retakes(w: World) {
    forall id :: RetakeTenure(w, id, w.Phase(id))
  }

  lemma UnawaitedInStays(w: World, w': World, id: Id, after: nat, upTo: nat)
    requires SameWrites(w, w', |w.Log()|) && UnawaitedIn(w, id, after, upTo)
    ensures UnawaitedIn(w', id, after, upTo)
  {
    var z :| after < z <= upTo && Unawaited(w, id, z);
    assert Same(w, w', z);
    assert Unawaited(w', id, z);
  }

  lemma OnlyUnawaitedStays(w: World, w': World, id: Id, r: nat, n: nat)
    requires w.Log() <= w'.Log() && n <= |w.Log()| && OnlyUnawaited(w, id, r, n)
    ensures OnlyUnawaited(w', id, r, n)
  {
    ExtendsSame(w, w');
    forall x | r < x <= n && x <= |w'.Log()| && Author(w', x) == id ensures UnawaitedIn(w', id, r, x) {
      assert Same(w, w', x);
      UnawaitedInStays(w, w', id, r, x);
    }
  }

  lemma GoneStays(m: Membership, w: World, a: Action, r: nat)
    requires Inv(m, w) && Enabled(w, a) && GoneAt(w, r) && r <= |w.Log()|
    ensures GoneAt(Do(m, w, a), r)
  {
    if a.Handle? {
      HandleLog(m, w, a.k);
    } else if !a.Tick? && !a.Expire? {
      LocalEffect(m, w, a);
    }
  }

  // While the key is gone at the lease's revision, a new write of the holder's is an unawaited create, or follows one.
  lemma HandleUnawaited(m: Membership, w: World, k: nat, id: Id, r: nat)
    requires Inv(m, w) && k in w.net && PendingOk(w, id, r) && r <= |w.Log()| && GoneAt(w, r)
    requires OnlyUnawaited(w, id, r, |w.Log()|) && !w.Awaited(k, id)
    ensures OnlyUnawaited(Do(m, w, Handle(k)), id, r, |Do(m, w, Handle(k)).Log()|)
  {
    HandleLog(m, w, k);
    var w', q, n := Do(m, w, Handle(k)), w.net[k], |w.Log()|;
    OnlyUnawaitedStays(w, w', id, r, n);
    if Accepts(w.bucket, q) && q.who == id {
      if q.Create? {
        assert Unawaited(w', id, n + 1);
      } else {
        AcceptedRev(m, w, k);
        assert Author(w', n) == id && UnawaitedIn(w', id, r, n);
      }
    }
  }

  lemma HandleRetake(m: Membership, w: World, k: nat, id: Id)
    requires Inv(m, w) && k in w.net && PhaseTenure(w, id, w.Phase(id)) && RetakeTenure(w, id, w.Phase(id))
    ensures RetakeTenure(Do(m, w, Handle(k)), id, w.Phase(id))
  {
    var w', ph := Do(m, w, Handle(k)), w.Phase(id);
    assert PhaseOk(m, w, id, ph);
    HandleLog(m, w, k);
    if ph.Waiting? && (ph.at.Reconciling? || ph.at.Counting? || ph.at.Recovering?) {
      var l := ph.at.lease;
      if ph.k == k {
        HandleOwnRetake(m, w, id);
      } else {
        HandleOtherRetake(m, w, k, id);
      }
    }
  }

  lemma HandleOwnRetake(m: Membership, w: World, id: Id)
    requires Inv(m, w) && w.Phase(id).Waiting? && w.Phase(id).k in w.net && RetakeTenure(w, id, w.Phase(id))
    requires var p := w.Phase(id).at; p.Reconciling? || p.Counting? || p.Recovering?
    ensures RetakeTenure(Do(m, w, Handle(w.Phase(id).k)), id, w.Phase(id))
  {
    var ph := w.Phase(id);
    var w', n, l := Do(m, w, Handle(ph.k)), |w.Log()|, ph.at.lease;
    assert PhaseOk(m, w, id, ph) && w.net[ph.k] == RequestAt(id, ph.at);
    HandleLog(m, w, ph.k);
    if ph.at.Recovering? {
      OnlyUnawaitedStays(w, w', id, l.rev, n);
    } else {
      assert w'.Log() == w.Log() && w'.bucket == w.bucket;
    }
  }

  lemma HandleOtherRetake(m: Membership, w: World, k: nat, id: Id)
    requires Inv(m, w) && k in w.net && PhaseTenure(w, id, w.Phase(id)) && RetakeTenure(w, id, w.Phase(id))
    requires w.Phase(id).Waiting? && w.Phase(id).k != k
    requires var p := w.Phase(id).at; p.Reconciling? || p.Counting? || p.Recovering?
    ensures RetakeTenure(Do(m, w, Handle(k)), id, w.Phase(id))
  {
    var ph := w.Phase(id);
    var l := ph.at.lease;
    assert PhaseOk(m, w, id, ph);
    HandleLog(m, w, k);
    if GoneAt(w, l.rev) {
      GoneStays(m, w, Handle(k), l.rev);
      if OnlyUnawaited(w, id, l.rev, |w.Log()|) {
        HandleUnawaited(m, w, k, id, l.rev);
      }
    }
    if ph.at.Recovering? && ph.k in w.replies && w.replies[ph.k].Done? {
      OnlyUnawaitedStays(w, Do(m, w, Handle(k)), id, l.rev, w.replies[ph.k].rev - 1);
    }
  }

  lemma ResumedRetake(m: Membership, id: Id, now: Time, p: Point, a: Reply)
    ensures var n := Resume(m, id, now, p, a);
            && (n.Ask? && n.at.Counting? ==> p.Reconciling? && a.Missing? && n.at.lease == p.lease)
            && (n.Ask? && n.at.Recovering? ==> p.Counting? && a == Last(p.lease.rev) && n.at.lease == p.lease)
  {
  }

  // Steps other than the broker's: the log stays, and a key without a value stays without.
  lemma QuietRetake(m: Membership, w: World, a: Action, id: Id, r: nat, n: nat)
    requires Inv(m, w) && Enabled(w, a) && !a.Handle? && r <= |w.Log()| && n <= |w.Log()|
    ensures GoneAt(w, r) ==> GoneAt(Do(m, w, a), r)
    ensures OnlyUnawaited(w, id, r, n) ==> OnlyUnawaited(Do(m, w, a), id, r, n)
  {
    QuietStep(m, w, a);
    if GoneAt(w, r) {
      GoneStays(m, w, a, r);
    }
    if OnlyUnawaited(w, id, r, n) {
      OnlyUnawaitedStays(w, Do(m, w, a), id, r, n);
    }
  }

  lemma DeliverRetake(m: Membership, w: World, id: Id)
    requires Inv(m, w) && Enabled(w, Deliver(id)) && RetakeTenure(w, id, w.Phase(id))
    ensures RetakeTenure(Do(m, w, Deliver(id)), id, Do(m, w, Deliver(id)).Phase(id))
  {
    QuietStep(m, w, Deliver(id));
    DeliverPhase(m, w, id);
    var ph, w' := w.Phase(id), Do(m, w, Deliver(id));
    var ph' := w'.Phase(id);
    assert PhaseOk(m, w, id, ph);
    ResumedRetake(m, id, w.now, ph.at, w.replies[ph.k]);
    if ph'.Waiting? && (ph'.at.Counting? || ph'.at.Recovering?) {
      QuietRetake(m, w, Deliver(id), id, ph'.at.lease.rev, |w.Log()|);
    }
  }

  lemma OtherRetake(m: Membership, w: World, a: Action, id: Id)
    requires Inv(m, w) && Enabled(w, a) && RetakeTenure(w, id, w.Phase(id)) && !a.Handle? && (a.Deliver? ==> a.id != id)
    ensures RetakeTenure(Do(m, w, a), id, Do(m, w, a).Phase(id))
  {
    QuietStep(m, w, a);
    QuietPhase(m, w, a, id);
    var ph, ph' := w.Phase(id), Do(m, w, a).Phase(id);
    assert PhaseOk(m, w, id, ph);
    if ph' == ph && ph.Waiting? && (ph.at.Reconciling? || ph.at.Counting? || ph.at.Recovering?) {
      var r := ph.at.lease.rev;
      QuietRetake(m, w, a, id, r, |w.Log()|);
      if ph.at.Recovering? && ph.k in w.replies && w.replies[ph.k].Done? {
        QuietRetake(m, w, a, id, r, w.replies[ph.k].rev - 1);
      }
    }
  }

  lemma StepRetakes(m: Membership, w: World, a: Action)
    requires Inv(m, w) && Tenures(w) && Retakes(w) && Enabled(w, a)
    ensures Retakes(Do(m, w, a))
  {
    var w' := Do(m, w, a);
    forall id ensures RetakeTenure(w', id, w'.Phase(id)) {
      assert RetakeTenure(w, id, w.Phase(id)) && PhaseTenure(w, id, w.Phase(id));
      if a.Handle? {
        HandleRetake(m, w, a.k, id);
      } else if a.Deliver? && a.id == id {
        DeliverRetake(m, w, id);
      } else {
        OtherRetake(m, w, a, id);
      }
    }
  }

  lemma RetakesNext(m: Membership, ws: seq<World>, i: nat)
    requires Run(m, ws) && i + 1 < |ws| && Retakes(ws[i])
    ensures Retakes(ws[i + 1])
  {
    RunTenures(m, ws, i);
    var a := TakenStep(m, ws, i);
    StepRetakes(m, ws[i], a);
  }

  lemma {:induction false} RunRetakes(m: Membership, ws: seq<World>, i: nat)
    requires Run(m, ws) && i < |ws|
    ensures Retakes(ws[i])
  {
    if i > 0 {
      RunRetakes(m, ws, i - 1);
      RetakesNext(m, ws, i - 1);
    }
  }

  /** retakeExpired reads the last sequence and creates the key in two requests, so another
      server's whole tenure can fall between them. The create's revision tells: it is not one past
      the old if and only if something was written in between, by another instance or by a create
      that the server itself had given up on; and without the latter, if and only if a tenure was
      hidden. */
  lemma RetakeHidesTenureIff(m: Membership, ws: seq<World>, i: nat, id: Id, k: nat, since: Time, l: Lease, r: nat)
    requires Run(m, ws) && i < |ws|
    requires ws[i].Phase(id) == Waiting(k, since, Recovering(l)) && k in ws[i].replies && ws[i].replies[k] == Done(r)
    ensures l.rev < r <= |ws[i].Log()|
    ensures r != l.rev + 1 <==> exists y :: l.rev < y < r && (Author(ws[i], y) != id || Unawaited(ws[i], id, y))
    ensures (forall y :: l.rev < y < r ==> !Unawaited(ws[i], id, y)) ==>
              (r != l.rev + 1 <==> exists y :: l.rev < y < r && Author(ws[i], y) != id)
  {
    RunRetakes(m, ws, i);
    assert RetakeTenure(ws[i], id, ws[i].Phase(id));
    if r != l.rev + 1 {
      var y := l.rev + 1;
      if Author(ws[i], y) == id {
        var z :| l.rev < z <= y && Unawaited(ws[i], id, z);
        assert z == y;
      }
      assert Author(ws[i], y) != id || Unawaited(ws[i], id, y);
    }
  }
}

/**
  How long a guard that was written over still reports itself healthy:
  every lease was confirmed by a request that the broker handled before any later
  write.
 */
module GuardSplitBrain {
  import opened Common
  import opened KvBucket
  import opened GuardProtocol
  import opened GuardCustody
  import opened GuardTenure
  import opened GuardDeposed

  lemma NewWrites(m: Membership, w: World, a: Action)
    requires Enabled(w, a)
    ensures var w' := Do(m, w, a); forall x :: |w.Log()| <= x < |w'.Log()| ==> w'.Log()[x].at == w.now
  {
    if !a.Handle? {
      QuietStep(m, w, a);
    }
  }

  // Every write after revision r was made at t or later.
  ghost predicate WrittenSince(w: World, r: nat, t: int) {
    forall x :: r <= x < |w.Log()| ==> t <= w.Log()[x].at
  }

  /** A lease was confirmed by a request that the broker handled before any later write, and a
      reply in hand answers one. */
  ghost predicate Confirmed(w: World, ph: Phase) {
    && (HeldLease(ph) != [] ==> WrittenSince(w, HeldLease(ph)[0].rev, HeldLease(ph)[0].lastOK - GUARD_OP_TIMEOUT))
    && (ph.Waiting? && ph.k in w.replies ==>
          && (w.replies[ph.k].Done? ==> WrittenSince(w, w.replies[ph.k].rev, ph.since))
          && (w.replies[ph.k].Found? ==> WrittenSince(w, w.replies[ph.k].rev, ph.since)))
  }

  ghost predicate AllConfirmed(w: World) {
    forall id :: Confirmed(w, w.Phase(id))
  }

  lemma SinceStays(m: Membership, w: World, a: Action, r: nat, t: int)
    requires Inv(m, w) && Enabled(w, a) && WrittenSince(w, r, t) && t <= w.now
    ensures WrittenSince(Do(m, w, a), r, t)
  {
    NewWrites(m, w, a);
    StepExtends(m, w, a);
    assert forall x :: 0 <= x < |w.Log()| ==> Do(m, w, a).Log()[x] == w.Log()[x];
  }

  lemma StaysConfirmed(m: Membership, w: World, a: Action, ph: Phase, id: Id)
    requires Inv(m, w) && Enabled(w, a) && ph == w.Phase(id) && Confirmed(w, ph)
    requires ph.Waiting? ==> (ph.k in Do(m, w, a).replies ==>
               ph.k in w.replies && Do(m, w, a).replies[ph.k] == w.replies[ph.k])
    ensures Confirmed(Do(m, w, a), ph)
  {
    assert PhaseOk(m, w, id, ph);
    if HeldLease(ph) != [] {
      SinceStays(m, w, a, HeldLease(ph)[0].rev, HeldLease(ph)[0].lastOK - GUARD_OP_TIMEOUT);
    }
    if ph.Waiting? && ph.k in w.replies && (w.replies[ph.k].Done? || w.replies[ph.k].Found?) {
      SinceStays(m, w, a, w.replies[ph.k].rev, ph.since);
    }
  }

  lemma HandleConfirms(m: Membership, w: World, id: Id)
    requires Inv(m, w) && w.Phase(id).Waiting? && w.Phase(id).k in w.net && Confirmed(w, w.Phase(id))
    ensures Confirmed(Do(m, w, Handle(w.Phase(id).k)), w.Phase(id))
  {
    var ph := w.Phase(id);
    var k := ph.k;
    assert PhaseOk(m, w, id, ph);
    HandleLog(m, w, k);
    if HeldLease(ph) != [] {
      SinceStays(m, w, Handle(k), HeldLease(ph)[0].rev, HeldLease(ph)[0].lastOK - GUARD_OP_TIMEOUT);
    }
    var a := Answer(w.bucket, w.net[k]);
    assert a.Done? || a.Found? ==> a.rev == |Do(m, w, Handle(k)).Log()|;
  }

  lemma DeliverConfirms(m: Membership, w: World, id: Id)
    requires Inv(m, w) && Enabled(w, Deliver(id)) && Confirmed(w, w.Phase(id))
    ensures Confirmed(Do(m, w, Deliver(id)), Do(m, w, Deliver(id)).Phase(id))
  {
    var ph := w.Phase(id);
    DeliverLease(m, w, id);
    ResumedLease(m, id, w.now, ph.at, w.replies[ph.k]);
  }

  lemma OtherConfirms(m: Membership, w: World, a: Action, id: Id)
    requires Inv(m, w) && Enabled(w, a) && Confirmed(w, w.Phase(id)) && !a.Handle? && (a.Deliver? ==> a.id != id)
    ensures Confirmed(Do(m, w, a), Do(m, w, a).Phase(id))
  {
    QuietStep(m, w, a);
    QuietPhase(m, w, a, id);
    StaysConfirmed(m, w, a, w.Phase(id), id);
  }

  lemma StepConfirms(m: Membership, w: World, a: Action)
    requires Inv(m, w) && AllConfirmed(w) && Enabled(w, a)
    ensures AllConfirmed(Do(m, w, a))
  {
    var w' := Do(m, w, a);
    forall id ensures Confirmed(w', w'.Phase(id)) {
      assert Confirmed(w, w.Phase(id)) && PhaseOk(m, w, id, w.Phase(id));
      if a.Handle? {
        HandleLog(m, w, a.k);
        if w.Phase(id).Waiting? && w.Phase(id).k == a.k {
          HandleConfirms(m, w, id);
        } else {
          StaysConfirmed(m, w, a, w.Phase(id), id);
        }
      } else if a.Deliver? && a.id == id {
        DeliverConfirms(m, w, id);
      } else {
        OtherConfirms(m, w, a, id);
      }
    }
  }

  lemma ConfirmsNext(m: Membership, ws: seq<World>, i: nat)
    requires Run(m, ws) && i + 1 < |ws| && AllConfirmed(ws[i])
    ensures AllConfirmed(ws[i + 1])
  {
    RunKeeps(m, ws, i);
    var a := TakenStep(m, ws, i);
    StepConfirms(m, ws[i], a);
  }

  lemma {:induction false} RunConfirms(m: Membership, ws: seq<World>, i: nat)
    requires Run(m, ws) && i < |ws|
    ensures AllConfirmed(ws[i])
  {
    if i > 0 {
      RunConfirms(m, ws, i - 1);
      ConfirmsNext(m, ws, i - 1);
    }
  }

  // A write made after world i was made no earlier than that world.
  lemma WrittenLater(m: Membership, ws: seq<World>, i: nat, j: nat, f: nat)
    requires Run(m, ws) && i <= j < |ws| && |ws[i].Log()| < f <= |ws[j].Log()|
    ensures ws[i].now <= ws[j].Log()[f - 1].at
  {
    var k := WrittenAt(m, ws, i, j, f);
    ChainOfCustody(m, ws, k - 1);
    RunExtends(m, ws, i, k - 1);
    RunExtends(m, ws, k, j);
  }

  /** Two servers act on one account for a bounded time: from the moment anyone writes the key
      past a guard's revision, the guard reports itself healthy for at most one TTL and one
      operation timeout more. It holds in every run, and of a guard that was released since. */
  lemma SplitBrainBound(m: Membership, ws: seq<World>, i: nat, j: nat, id: Id, l: Lease, f: nat)
    requires Run(m, ws) && i <= j < |ws| && Held(ws[i], id, l) && l.rev < f <= |ws[j].Log()|
    requires Healthy(ws[j].now, false, l)
    ensures ws[j].now <= ws[j].Log()[f - 1].at + GUARD_TTL + GUARD_OP_TIMEOUT
  {
    RunConfirms(m, ws, i);
    RunKeeps(m, ws, i);
    assert Confirmed(ws[i], ws[i].Phase(id)) && PhaseOk(m, ws[i], id, ws[i].Phase(id));
    if f <= |ws[i].Log()| {
      RunExtends(m, ws, i, j);
      assert ws[j].Log()[f - 1] == ws[i].Log()[f - 1];
    } else {
      WrittenLater(m, ws, i, j, f);
    }
  }
}

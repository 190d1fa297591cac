/**
  What a guard's revision says about other servers' tenures, in every run:
  after that revision, its server writes again after another instance did only by a late create,
  one handled after its sender gave up on it, or, in a retake, after something was
  written since the last-sequence read.
 */
module GuardTenure {
  import opened Common
  import opened KvBucket
  import opened GuardProtocol
  import opened GuardCustody

  // Who made the write with sequence number r.
  ghost function Author(w: World, r: nat): Id
    requires 1 <= r <= |w.Log()|
  {
    w.Log()[r - 1].who
  }

  ghost predicate Unawaited(w: World, id: Id, r: nat) {
    1 <= r <= |w.Log()| && Author(w, r) == id && !w.Log()[r - 1].awaited
  }

  // Write r is a late create of id's.
  ghost predicate Late(w: World, id: Id, r: nat) {
    1 <= r <= |w.Log()| && Author(w, r) == id && !(w.Log()[r - 1].awaited && w.Log()[r - 1].prompt)
  }

  ghost predicate LateIn(w: World, id: Id, after: nat, upTo: nat) {
    exists z :: after < z <= upTo && Late(w, id, z)
  }

  ghost predicate NoLateAfter(w: World, id: Id, f: nat) {
    forall z :: z > f ==> !Late(w, id, z)
  }

  ghost predicate NoOwnAfter(w: World, id: Id, r: nat) {
    forall x :: r < x <= |w.Log()| ==> Author(w, x) != id
  }

  // After revision r, id writes again after another instance did only by a late create.
  ghost predicate Chain(w: World, id: Id, r: nat) {
    forall x, y :: r < y < x <= |w.Log()| && Author(w, x) == id && Author(w, y) != id ==> LateIn(w, id, y, x)
  }

  // An update of id's on its way is over a value of its own, or can no longer succeed.
  ghost predicate PendingOk(w: World, id: Id, r: nat) {
    forall k :: k in w.net && w.net[k].Update? && w.net[k].who == id ==> OwnPut(w, id, w.net[k].rev) || w.net[k].rev < r
  }

  ghost predicate Tenure(w: World, id: Id, r: nat) {
    Chain(w, id, r) && PendingOk(w, id, r)
  }

  predicate Acquires(p: Point) {
    p.Creating? || p.Reading? || p.Overwriting? || p.Polling? || p.Rechecking? || p.Recreating? || p.Retaking?
  }

  ghost predicate ReplyTenure(w: World, id: Id, p: Point, a: Reply) {
    match a
    case Done(r) => (Acquires(p) ==> Tenure(w, id, r)) && (p.Refreshing? || p.Recovering? ==> p.lease.rev < r)
    case Found(r, o) => (Acquires(p) && o == id ==> Tenure(w, id, r)) && (p.Reconciling? ==> p.lease.rev <= r)
    case _ => true
  }

  ghost predicate PhaseTenure(w: World, id: Id, ph: Phase) {
    && (HeldLease(ph) != [] ==> Tenure(w, id, HeldLease(ph)[0].rev))
    && (ph.Waiting? && ph.k in w.replies ==> ReplyTenure(w, id, ph.at, w.replies[ph.k]))
  }

  ghost predicate Tenures(w: World) {
    forall id :: PhaseTenure(w, id, w.Phase(id))
  }

  // The first n writes are the same in both.
  ghost predicate SameWrites(w: World, w': World, n: nat) {
    n <= |w.Log()| && n <= |w'.Log()| && forall x :: 1 <= x <= n ==> Same(w, w', x)
  }

  ghost predicate Same(w: World, w': World, x: nat)
    requires 1 <= x <= |w.Log()| && x <= |w'.Log()|
  {
    w'.Log()[x - 1] == w.Log()[x - 1]
  }

  lemma ExtendsSame(w: World, w': World)
    requires w.Log() <= w'.Log()
    ensures SameWrites(w, w', |w.Log()|)
  {
  }

  lemma LateInStays(w: World, w': World, id: Id, after: nat, upTo: nat, upTo': nat)
    requires SameWrites(w, w', |w.Log()|) && LateIn(w, id, after, upTo) && upTo <= upTo'
    ensures LateIn(w', id, after, upTo')
  {
    var z :| after < z <= upTo && Late(w, id, z);
    assert Same(w, w', z);
    assert Late(w', id, z);
  }

  // What handling a request does to the log, the network and the replies.
  lemma HandleLog(m: Membership, w: World, k: nat)
    requires k in w.net
    ensures var w', q, n := Do(m, w, Handle(k)), w.net[k], |w.Log()|;
            && w'.replies == w.replies[k := Answer(w.bucket, q)] && w'.net == w.net - {k}
            && w.Log() <= w'.Log()
            && (if Accepts(w.bucket, q) then
                  |w'.Log()| == n + 1 && Author(w', n + 1) == q.who
                  && w'.Log()[n].awaited == (q.Create? ==> w.Awaited(k, q.who))
                  && w'.Log()[n].prompt == (q.Create? ==> w.Prompt(k, q.who))
                else
                  w'.Log() == w.Log())
  {
  }

  // What a new write of id's has to be for its tenure to go on.
  ghost predicate Continues(w: World, w': World, id: Id, r: nat) {
    var n := |w.Log()|;
    && w.Log() <= w'.Log()
    && |w'.Log()| <= n + 1
    && (|w'.Log()| == n + 1 && Author(w', n + 1) == id ==> n == r || Late(w', id, n + 1) || OwnPut(w, id, n))
  }

  lemma ChainContinues(w: World, w': World, id: Id, r: nat)
    requires Chain(w, id, r) && Continues(w, w', id, r)
    ensures Chain(w', id, r)
  {
    var n := |w.Log()|;
    ExtendsSame(w, w');
    forall x, y | r < y < x <= |w'.Log()| && Author(w', x) == id && Author(w', y) != id ensures LateIn(w', id, y, x) {
      assert Same(w, w', y);
      if x <= n {
        assert Same(w, w', x);
        LateInStays(w, w', id, y, x, x);
      } else if !Late(w', id, x) {
        assert Author(w, n) == id && Author(w, y) != id;
        LateInStays(w, w', id, y, n, x);
      }
    }
  }

  lemma PendingStays(w: World, w': World, id: Id, r: nat)
    requires PendingOk(w, id, r) && w.Log() <= w'.Log()
    requires forall k :: k in w'.net && w'.net[k].Update? && w'.net[k].who == id ==>
               (k in w.net && w'.net[k] == w.net[k]) || OwnPut(w', id, w'.net[k].rev)
    ensures PendingOk(w', id, r)
  {
    forall k | k in w'.net && w'.net[k].Update? && w'.net[k].who == id
      ensures OwnPut(w', id, w'.net[k].rev) || w'.net[k].rev < r
    {
      if k in w.net && w'.net[k] == w.net[k] && OwnPut(w, id, w.net[k].rev) {
        assert OwnPut(w', id, w'.net[k].rev);
      }
    }
  }

  lemma TenureLater(w: World, id: Id, r: nat, r': nat)
    requires Tenure(w, id, r) && r <= r'
    ensures Tenure(w, id, r')
  {
  }

  // An update or delete that is accepted is over the last write.
  lemma AcceptedRev(m: Membership, w: World, k: nat)
    requires Inv(m, w) && k in w.net && (w.net[k].Update? || w.net[k].Remove?) && Accepts(w.bucket, w.net[k])
    ensures w.net[k].rev == |w.Log()| && w.bucket.Stored()
    ensures w.net[k].Remove? ==> OwnPut(w, w.net[k].who, |w.Log()|)
  {
    assert RequestOk(m, w, w.net[k]);
  }

  // A tenure goes on over a step of the broker, unless its own retake is late.
  lemma HandleContinues(m: Membership, w: World, k: nat, id: Id, r: nat)
    requires Inv(m, w) && k in w.net && PendingOk(w, id, r) && r <= |w.Log()|
    requires w.net[k] == Create(id) && w.Awaited(k, id) ==> w.Phase(id).at.Recovering? && w.Phase(id).at.lease.rev == r
    ensures Continues(w, Do(m, w, Handle(k)), id, r)
  {
    HandleLog(m, w, k);
    var w', q, n := Do(m, w, Handle(k)), w.net[k], |w.Log()|;
    if Accepts(w.bucket, q) && q.who == id {
      if q.Create? {
        assert !Late(w', id, n + 1) ==> w.Awaited(k, id) && w.Prompt(k, id);
      } else {
        AcceptedRev(m, w, k);
      }
    }
  }

  lemma HandleKeepsTenure(m: Membership, w: World, k: nat, id: Id, r: nat)
    requires Inv(m, w) && k in w.net && Tenure(w, id, r) && r <= |w.Log()|
    requires w.net[k] == Create(id) && w.Awaited(k, id) ==> w.Phase(id).at.Recovering? && w.Phase(id).at.lease.rev == r
    ensures Tenure(Do(m, w, Handle(k)), id, r)
  {
    var w' := Do(m, w, Handle(k));
    HandleContinues(m, w, k, id, r);
    ChainContinues(w, w', id, r);
    HandleLog(m, w, k);
    PendingStays(w, w', id, r);
  }

  // The tenure that the reply to an acquisition's request begins.
  lemma HandleBegins(m: Membership, w: World, id: Id)
    requires Inv(m, w) && w.Phase(id).Waiting? && w.Phase(id).k in w.net
    ensures var ph := w.Phase(id);
            ReplyTenure(Do(m, w, Handle(ph.k)), id, ph.at, Answer(w.bucket, w.net[ph.k]))
  {
    var ph := w.Phase(id);
    var w', a, n := Do(m, w, Handle(ph.k)), Answer(w.bucket, w.net[ph.k]), |w.Log()|;
    HandleLog(m, w, ph.k);
    assert PhaseOk(m, w, id, ph);
    assert a.Done? ==> a.rev == n + 1 == |w'.Log()|;
    assert a.Found? ==> a.rev == n == |w'.Log()| && OwnPut(w, a.owner, n);
    if (a.Done? || (a.Found? && a.owner == id)) && Acquires(ph.at) {
      forall k | k in w'.net && w'.net[k].Update? && w'.net[k].who == id
        ensures OwnPut(w', id, w'.net[k].rev) || w'.net[k].rev < a.rev
      {
        assert RequestOk(m, w, w.net[k]);
      }
    }
  }

  lemma HandleTenure(m: Membership, w: World, k: nat, id: Id)
    requires Inv(m, w) && k in w.net && PhaseTenure(w, id, w.Phase(id))
    ensures PhaseTenure(Do(m, w, Handle(k)), id, w.Phase(id))
  {
    var w', ph := Do(m, w, Handle(k)), w.Phase(id);
    assert PhaseOk(m, w, id, ph);
    HandleLog(m, w, k);
    if HeldLease(ph) != [] {
      HandleKeepsTenure(m, w, k, id, HeldLease(ph)[0].rev);
    }
    if ph.Waiting? && ph.k == k {
      HandleBegins(m, w, id);
    } else if ph.Waiting? && ph.k in w.replies {
      HandleReply(m, w, k, id);
    }
  }

  // A reply that has come stays as good as it was.
  lemma HandleReply(m: Membership, w: World, k: nat, id: Id)
    requires Inv(m, w) && k in w.net && PhaseTenure(w, id, w.Phase(id))
    requires w.Phase(id).Waiting? && w.Phase(id).k in w.replies
    ensures var ph := w.Phase(id); ReplyTenure(Do(m, w, Handle(k)), id, ph.at, w.replies[ph.k])
  {
    var ph := w.Phase(id);
    var a := w.replies[ph.k];
    assert PhaseOk(m, w, id, ph) && ph.k != k;
    if Acquires(ph.at) && (a.Done? || (a.Found? && a.owner == id)) {
      HandleKeepsTenure(m, w, k, id, a.rev);
    }
  }

  // Steps other than the broker's leave the bucket and the replies alone.
  lemma QuietStep(m: Membership, w: World, a: Action)
    requires Enabled(w, a) && !a.Handle?
    ensures var w' := Do(m, w, a); w'.Log() == w.Log() && w'.replies == w.replies
  {
    if !a.Tick? && !a.Expire? {
      LocalEffect(m, w, a);
    }
  }

  // A reply aside, a server keeps its lease or gives it up, and waits for what it waited for or a new request.
  lemma QuietPhase(m: Membership, w: World, a: Action, id: Id)
    requires Enabled(w, a) && !a.Handle? && (a.Deliver? ==> a.id != id)
    ensures var ph, ph' := w.Phase(id), Do(m, w, a).Phase(id);
            && HeldLease(ph') in {[], HeldLease(ph)}
            && (ph' == ph || !ph'.Waiting? || (ph'.k == w.nextKey && !ph'.at.Counting? && !ph'.at.Recovering?))
  {
  }

  // What a reply that is about to be delivered leads to.
  lemma DeliverPhase(m: Membership, w: World, id: Id)
    requires Enabled(w, Deliver(id))
    ensures var ph, ph' := w.Phase(id), Do(m, w, Deliver(id)).Phase(id);
            match Resume(m, id, w.now, ph.at, w.replies[ph.k])
            case Rest(q) => ph' == q
            case Ask(p, _) => ph'.Waiting? && ph'.k == w.nextKey && ph'.at == p
  {
  }

  // The lease a server has once it goes on as n says.
  function LeaseAfter(n: Next): seq<Lease> {
    HeldLease(if n.Rest? then n.phase else Waiting(0, 0, n.at))
  }

  // The lease a reply leads to: none, the old one, or a new one at the reply's revision.
  lemma ResumedLease(m: Membership, id: Id, now: Time, p: Point, a: Reply)
    ensures var l, ls := HeldLease(Waiting(0, 0, p)), LeaseAfter(Resume(m, id, now, p, a));
            || ls in {[], l}
            || (a.Done? && ls == [Lease(a.rev, now)] && (Acquires(p) || p.Refreshing? || p.Recovering?))
            || (a.Found? && a.owner == id && ls == [Lease(a.rev, now)] && (Acquires(p) || p.Reconciling?))
  {
  }

  // What a delivery leaves as it was, and the lease it leads to.
  lemma DeliverLease(m: Membership, w: World, id: Id)
    requires Inv(m, w) && Enabled(w, Deliver(id))
    ensures var w', ph := Do(m, w, Deliver(id)), w.Phase(id);
            && w'.Log() == w.Log() && w'.replies == w.replies
            && HeldLease(w'.Phase(id)) == LeaseAfter(Resume(m, id, w.now, ph.at, w.replies[ph.k]))
            && (w'.Phase(id).Waiting? ==> w'.Phase(id).k !in w.replies)
  {
    QuietStep(m, w, Deliver(id));
    DeliverPhase(m, w, id);
  }

  // A step other than the broker's sends at most one request, the one its server then waits for.
  lemma QuietSend(m: Membership, w: World, a: Action)
    requires Enabled(w, a) && !a.Handle? && !a.Tick? && !a.Expire?
    ensures var w' := Do(m, w, a);
            var ph := w'.Phase(a.id);
            || w'.net == w.net
            || (ph.Waiting? && ph.k == w.nextKey && w'.net == w.net[w.nextKey := RequestAt(a.id, ph.at)])
  {
    QuietEffect(m, w, a);
    StampFrame(Effect(m, w, a));
  }

  lemma StampFrame(w: World)
    ensures Stamp(w).net == w.net && Stamp(w).phases == w.phases && Stamp(w).nextKey == w.nextKey
  {
  }

  lemma QuietEffect(m: Membership, w: World, a: Action)
    requires Enabled(w, a) && !a.Handle? && !a.Tick? && !a.Expire?
    ensures var w' := Effect(m, w, a);
            var ph := w'.Phase(a.id);
            || w'.net == w.net
            || (ph.Waiting? && ph.k == w.nextKey && w'.net == w.net[w.nextKey := RequestAt(a.id, ph.at)])
  {
  }

  // It is an update only over a server's own lease, or to acquire.
  lemma QuietNet(m: Membership, w: World, a: Action, id: Id)
    requires Inv(m, w) && Enabled(w, a) && !a.Handle?
    ensures var w' := Do(m, w, a);
            forall k :: k in w'.net && w'.net[k].Update? && w'.net[k].who == id ==>
              || (k in w.net && w'.net[k] == w.net[k])
              || OwnPut(w', id, w'.net[k].rev)
              || (w'.Phase(id).Waiting? && w'.Phase(id).k == w.nextKey && Acquires(w'.Phase(id).at))
  {
    if !a.Tick? && !a.Expire? {
      QuietSend(m, w, a);
      StepKeeps(m, w, a);
      SentUpdate(m, w, Do(m, w, a), a.id, id);
    }
  }

  lemma SentUpdate(m: Membership, w: World, w': World, x: Id, id: Id)
    requires PhaseOk(m, w', x, w'.Phase(x))
    requires var ph := w'.Phase(x);
             w'.net == w.net || (ph.Waiting? && ph.k == w.nextKey && w'.net == w.net[w.nextKey := RequestAt(x, ph.at)])
    ensures forall k :: k in w'.net && w'.net[k].Update? && w'.net[k].who == id ==>
              || (k in w.net && w'.net[k] == w.net[k])
              || OwnPut(w', id, w'.net[k].rev)
              || (w'.Phase(id).Waiting? && w'.Phase(id).k == w.nextKey && Acquires(w'.Phase(id).at))
  {
  }

  // Over a step other than the broker's, a tenure goes on.
  lemma QuietTenure(m: Membership, w: World, a: Action, id: Id, r: nat)
    requires Inv(m, w) && Enabled(w, a) && !a.Handle? && Tenure(w, id, r)
    requires var ph := Do(m, w, a).Phase(id); !(ph.Waiting? && ph.k == w.nextKey && Acquires(ph.at))
    ensures Tenure(Do(m, w, a), id, r)
  {
    var w' := Do(m, w, a);
    QuietStep(m, w, a);
    QuietNet(m, w, a, id);
    ChainContinues(w, w', id, r);
    PendingStays(w, w', id, r);
  }

  // The tenure that comes with the lease a reply leads to.
  lemma ResumedTenure(m: Membership, w: World, id: Id, ph: Phase)
    requires ph.Waiting? && ph.k in w.replies && PhaseTenure(w, id, ph)
    ensures var ls := LeaseAfter(Resume(m, id, w.now, ph.at, w.replies[ph.k])); ls != [] ==> Tenure(w, id, ls[0].rev)
  {
    var a := w.replies[ph.k];
    var ls := LeaseAfter(Resume(m, id, w.now, ph.at, a));
    ResumedLease(m, id, w.now, ph.at, a);
    if ls != [] && ls != HeldLease(ph) && !Acquires(ph.at) {
      TenureLater(w, id, HeldLease(ph)[0].rev, ls[0].rev);
    }
  }

  lemma DeliverTenure(m: Membership, w: World, id: Id)
    requires Inv(m, w) && Enabled(w, Deliver(id)) && PhaseTenure(w, id, w.Phase(id))
    ensures PhaseTenure(Do(m, w, Deliver(id)), id, Do(m, w, Deliver(id)).Phase(id))
  {
    DeliverLease(m, w, id);
    ResumedTenure(m, w, id, w.Phase(id));
    var ls := HeldLease(Do(m, w, Deliver(id)).Phase(id));
    if ls != [] {
      QuietTenure(m, w, Deliver(id), id, ls[0].rev);
    }
  }

  lemma OtherTenure(m: Membership, w: World, a: Action, id: Id)
    requires Inv(m, w) && Enabled(w, a) && PhaseTenure(w, id, w.Phase(id))
    requires !a.Handle? && (a.Deliver? ==> a.id != id)
    ensures PhaseTenure(Do(m, w, a), id, Do(m, w, a).Phase(id))
  {
    QuietStep(m, w, a);
    QuietPhase(m, w, a, id);
    var ph, ph' := w.Phase(id), Do(m, w, a).Phase(id);
    assert PhaseOk(m, w, id, ph);
    if HeldLease(ph') != [] {
      QuietTenure(m, w, a, id, HeldLease(ph)[0].rev);
    }
    if ph'.Waiting? && ph'.k in w.replies {
      assert ph' == ph;
      var r := w.replies[ph.k];
      if Acquires(ph.at) && (r.Done? || (r.Found? && r.owner == id)) {
        QuietTenure(m, w, a, id, r.rev);
      }
    }
  }

  lemma StepTenures(m: Membership, w: World, a: Action)
    requires Inv(m, w) && Tenures(w) && Enabled(w, a)
    ensures Tenures(Do(m, w, a))
  {
    var w' := Do(m, w, a);
    forall id ensures PhaseTenure(w', id, w'.Phase(id)) {
      assert PhaseTenure(w, id, w.Phase(id));
      if a.Handle? {
        HandleTenure(m, w, a.k, id);
      } else if a.Deliver? && a.id == id {
        DeliverTenure(m, w, id);
      } else {
        OtherTenure(m, w, a, id);
      }
    }
  }

  lemma TenuresNext(m: Membership, ws: seq<World>, i: nat)
    requires Run(m, ws) && i + 1 < |ws| && Inv(m, ws[i]) && Tenures(ws[i])
    ensures Tenures(ws[i + 1])
  {
    var a := TakenStep(m, ws, i);
    StepTenures(m, ws[i], a);
  }

  // Every run keeps the tenures.
  lemma {:induction false} RunTenures(m: Membership, ws: seq<World>, i: nat)
    requires Run(m, ws) && i < |ws|
    ensures Inv(m, ws[i]) && Tenures(ws[i])
  {
    RunKeeps(m, ws, i);
    if i > 0 {
      RunTenures(m, ws, i - 1);
      TenuresNext(m, ws, i - 1);
    }
  }
}

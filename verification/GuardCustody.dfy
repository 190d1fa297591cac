/**
  What every run of the guard keeps, however the network behaves: who may
  replace the key, whose write a guard's revision names, and how recent a
  healthy guard's hold on the key is.
 */
module GuardCustody {
  import opened Common
  import opened KvBucket
  import opened GuardProtocol

  // Revision r is a value some server wrote.
  ghost predicate PutAt(w: World, r: nat) {
    1 <= r <= |w.Log()| && w.Log()[r - 1].act.Put?
  }

  ghost predicate OwnPut(w: World, id: Id, r: nat) {
    PutAt(w, r) && w.Log()[r - 1].who == id
  }

  // Revision r is no longer the key's, and never will be again.
  ghost predicate Dead(w: World, r: nat) {
    r < |w.Log()| || w.bucket.expired
  }

  // Revision r has stood for a TTL, unless it is gone.
  ghost predicate Stale(w: World, r: nat) {
    PutAt(w, r) && (w.Log()[r - 1].at + GUARD_TTL <= w.now || Dead(w, r))
  }

  ghost predicate WasMember(m: Membership, w: World, id: Id, owner: Id) {
    exists t: Time :: t <= w.now && IsGuardMember(m, id, owner, t)
  }

  ghost predicate MayReplace(m: Membership, w: World, id: Id, r: nat) {
    PutAt(w, r) && (OwnPut(w, id, r) || WasMember(m, w, id, w.Log()[r - 1].who) || Stale(w, r))
  }

  ghost predicate RequestOk(m: Membership, w: World, q: Request) {
    match q
    case Update(id, r) => MayReplace(m, w, id, r)
    case Remove(id, r) => OwnPut(w, id, r)
    case _ => true
  }

  // The key named id at or after t.
  ghost predicate NamedSince(w: World, id: Id, t: Time) {
    id in w.named && t <= w.named[id]
  }

  ghost predicate LeaseOk(w: World, id: Id, l: Lease) {
    && OwnPut(w, id, l.rev)
    && l.lastOK <= w.now
    && id in w.named
    && l.lastOK <= w.named[id] + GUARD_OP_TIMEOUT
  }

  ghost predicate WatchOk(w: World, r: nat, start: Time) {
    PutAt(w, r) && w.Log()[r - 1].at <= start <= w.now
  }

  ghost predicate PointOk(m: Membership, w: World, id: Id, p: Point) {
    match p
    case Overwriting(_, r) => MayReplace(m, w, id, r)
    case Polling(_, r, start) => WatchOk(w, r, start)
    case Rechecking(_, r) => Stale(w, r)
    case Retaking(_, r) => Stale(w, r)
    case Refreshing(l) => LeaseOk(w, id, l)
    case Reconciling(l) => LeaseOk(w, id, l)
    case Counting(l) => LeaseOk(w, id, l)
    case Recovering(l) => LeaseOk(w, id, l)
    case Deleting(r) => OwnPut(w, id, r)
    case Redeleting(r) => OwnPut(w, id, r)
    case _ => true
  }

  ghost predicate ReplyOk(w: World, id: Id, since: Time, p: Point, a: Reply) {
    match a
    case Done(r) => p.Deleting? || p.Redeleting? || (OwnPut(w, id, r) && NamedSince(w, id, since))
    case Found(r, o) => OwnPut(w, o, r) && (o == id ==> NamedSince(w, id, since))
    case Missing => p.Polling? ==> Dead(w, p.rev)
    case _ => true
  }

  ghost predicate PhaseOk(m: Membership, w: World, id: Id, ph: Phase) {
    match ph
    case Watching(_, r, start) => WatchOk(w, r, start)
    case Holding(l) => LeaseOk(w, id, l)
    case Lost(l) => LeaseOk(w, id, l)
    case Waiting(k, since, p) =>
      && k < w.nextKey
      && since <= w.now
      && PointOk(m, w, id, p)
      && (k in w.net ==> w.net[k] == RequestAt(id, p))
      && (k in w.replies ==> ReplyOk(w, id, since, p, w.replies[k]))
    case _ => true
  }

  ghost predicate Clocks(w: World) {
    && (forall i :: 0 <= i < |w.Log()| ==> w.Log()[i].at <= w.now)
    && (forall id :: id in w.named ==> w.named[id] <= w.now)
  }

  ghost predicate Traffic(m: Membership, w: World) {
    && (forall k :: k in w.net ==> k < w.nextKey && k !in w.replies && RequestOk(m, w, w.net[k]))
    && (forall k :: k in w.replies ==> k < w.nextKey)
  }

  ghost predicate Inv(m: Membership, w: World) {
    && Clocks(w)
    && Traffic(m, w)
    && forall id :: PhaseOk(m, w, id, w.Phase(id))
  }

  // What no step undoes.
  ghost predicate Extends(w: World, w': World) {
    && w.now <= w'.now
    && w.nextKey <= w'.nextKey
    && w.Log() <= w'.Log()
    && (w'.Log() == w.Log() && w.bucket.expired ==> w'.bucket.expired)
    && (forall id :: id in w.named ==> id in w'.named && w.named[id] <= w'.named[id])
  }

  lemma RequestStable(m: Membership, w: World, w': World, q: Request)
    requires Extends(w, w') && RequestOk(m, w, q)
    ensures RequestOk(m, w', q)
  {
    if q.Update? && WasMember(m, w, q.who, w.Log()[q.rev - 1].who) {
      assert w'.Log()[q.rev - 1] == w.Log()[q.rev - 1];
    }
  }

  lemma PointStable(m: Membership, w: World, w': World, id: Id, p: Point)
    requires Extends(w, w') && PointOk(m, w, id, p)
    ensures PointOk(m, w', id, p)
  {
    if p.Overwriting? {
      RequestStable(m, w, w', Update(id, p.rev));
    }
  }

  // A server other than the one that moves keeps its phase, request and reply.
  lemma PhaseStable(m: Membership, w: World, w': World, id: Id, ph: Phase)
    requires Extends(w, w') && PhaseOk(m, w, id, ph)
    requires ph.Waiting? ==> (ph.k in w'.net ==> ph.k in w.net && w'.net[ph.k] == w.net[ph.k])
    requires ph.Waiting? ==> (ph.k in w'.replies ==> ph.k in w.replies && w'.replies[ph.k] == w.replies[ph.k])
    ensures PhaseOk(m, w', id, ph)
  {
    if ph.Waiting? {
      PointStable(m, w, w', id, ph.at);
    }
  }

  lemma StampExtends(w: World, e: World)
    requires Clocks(w) && e.named == w.named && w.now <= e.now && w.nextKey <= e.nextKey
    requires w.Log() <= e.Log() && (forall i :: 0 <= i < |e.Log()| ==> e.Log()[i].at <= e.now)
    requires e.Log() == w.Log() && w.bucket.expired ==> e.bucket.expired
    ensures Extends(w, Stamp(e)) && Clocks(Stamp(e))
  {
  }

  // Only the broker's own steps touch the bucket and the clock.
  lemma LocalEffect(m: Membership, w: World, a: Action)
    requires Enabled(w, a) && !a.Tick? && !a.Expire? && !a.Handle?
    ensures var e := Effect(m, w, a);
            e.bucket == w.bucket && e.now == w.now && e.named == w.named && w.nextKey <= e.nextKey
  {
  }

  lemma StepExtends(m: Membership, w: World, a: Action)
    requires Clocks(w) && Enabled(w, a)
    ensures Extends(w, Do(m, w, a)) && Clocks(Do(m, w, a))
  {
    if !a.Tick? && !a.Expire? && !a.Handle? {
      LocalEffect(m, w, a);
    }
    StampExtends(w, Effect(m, w, a));
  }

  // The broker's answer to the request a server waits for is what that point of the code expects.
  lemma AnswerOk(m: Membership, w: World, id: Id)
    requires Inv(m, w) && w.Phase(id).Waiting? && w.Phase(id).k in w.net
    ensures var ph := w.Phase(id);
            ReplyOk(Do(m, w, Handle(ph.k)), id, ph.since, ph.at, Answer(w.bucket, w.net[ph.k]))
  {
    var ph := w.Phase(id);
    var q := w.net[ph.k];
    var w' := Do(m, w, Handle(ph.k));
    assert PhaseOk(m, w, id, ph) && q == RequestAt(id, ph.at) && q.who == id;
  }

  lemma HandlePhase(m: Membership, w: World, k: nat, id: Id)
    requires Inv(m, w) && k in w.net && Extends(w, Do(m, w, Handle(k)))
    ensures PhaseOk(m, Do(m, w, Handle(k)), id, w.Phase(id))
  {
    var w' := Do(m, w, Handle(k));
    var ph := w.Phase(id);
    assert PhaseOk(m, w, id, ph);
    if ph.Waiting? && ph.k == k {
      AnswerOk(m, w, id);
      PointStable(m, w, w', id, ph.at);
    } else {
      PhaseStable(m, w, w', id, ph);
    }
  }

  lemma HandleKeeps(m: Membership, w: World, k: nat)
    requires Inv(m, w) && k in w.net
    ensures Inv(m, Do(m, w, Handle(k)))
  {
    var w' := Do(m, w, Handle(k));
    StepExtends(m, w, Handle(k));
    assert w'.net == w.net - {k} && w'.replies == w.replies[k := Answer(w.bucket, w.net[k])];
    forall j | j in w'.net ensures RequestOk(m, w', w'.net[j]) {
      RequestStable(m, w, w', w.net[j]);
    }
    forall id ensures PhaseOk(m, w', id, w'.Phase(id)) {
      HandlePhase(m, w, k, id);
    }
  }

  ghost predicate NextOk(m: Membership, w: World, id: Id, n: Next) {
    match n
    case Rest(q) => PhaseOk(m, w, id, q) && !q.Waiting?
    case Ask(p, _) => PointOk(m, w, id, p)
  }

  // What a server goes on to after a reply is sound, given that it came within the operation timeout.
  lemma ResumeAcquiring(m: Membership, w: World, id: Id, since: Time, p: Point, a: Reply)
    requires PointOk(m, w, id, p) && ReplyOk(w, id, since, p, a) && Clocks(w)
    requires since <= w.now <= since + GUARD_OP_TIMEOUT
    requires p.Creating? || p.Reading? || p.Overwriting? || p.Polling? || p.Rechecking? || p.Recreating? || p.Retaking?
    ensures NextOk(m, w, id, Resume(m, id, w.now, p, a))
  {
    if a.Found? && IsGuardMember(m, id, a.owner, w.now) {
      assert WasMember(m, w, id, a.owner);
    }
  }

  lemma ResumeHolding(m: Membership, w: World, id: Id, since: Time, p: Point, a: Reply)
    requires PointOk(m, w, id, p) && ReplyOk(w, id, since, p, a) && Clocks(w)
    requires since <= w.now <= since + GUARD_OP_TIMEOUT
    requires !(p.Creating? || p.Reading? || p.Overwriting? || p.Polling? || p.Rechecking? || p.Recreating?
               || p.Retaking?)
    ensures NextOk(m, w, id, Resume(m, id, w.now, p, a))
  {
  }

  // A step that moves one server, sending at most one request, keeps the rest.
  lemma OneServerKeeps(m: Membership, w: World, w': World, id: Id)
    requires Inv(m, w) && Extends(w, w') && Clocks(w')
    requires PhaseOk(m, w', id, w'.Phase(id))
    requires forall x :: x != id ==> w'.Phase(x) == w.Phase(x)
    requires w'.replies == w.replies
    requires forall j :: j in w'.net && j < w.nextKey ==> j in w.net && w'.net[j] == w.net[j]
    requires forall j :: j in w'.net && j >= w.nextKey ==> j < w'.nextKey && RequestOk(m, w', w'.net[j])
    ensures Inv(m, w')
  {
    forall j | j in w'.net ensures j < w'.nextKey && j !in w'.replies && RequestOk(m, w', w'.net[j]) {
      if j < w.nextKey {
        RequestStable(m, w, w', w.net[j]);
      }
    }
    forall x ensures PhaseOk(m, w', x, w'.Phase(x)) {
      if x != id {
        assert PhaseOk(m, w, x, w.Phase(x));
        PhaseStable(m, w, w', x, w.Phase(x));
      }
    }
  }

  lemma LocalKeeps(m: Membership, w: World, id: Id, ph: Phase)
    requires Inv(m, w) && PhaseOk(m, w, id, ph) && !ph.Waiting?
    ensures Inv(m, Stamp(With(w, id, ph)))
  {
    var w' := Stamp(With(w, id, ph));
    StampExtends(w, With(w, id, ph));
    PhaseStable(m, w, w', id, ph);
    OneServerKeeps(m, w, w', id);
  }

  lemma SendKeeps(m: Membership, w: World, id: Id, since: Time, p: Point)
    requires Inv(m, w) && PointOk(m, w, id, p) && since <= w.now
    ensures Inv(m, Stamp(Send(w, id, since, p)))
  {
    var w' := Stamp(Send(w, id, since, p));
    StampExtends(w, Send(w, id, since, p));
    PointStable(m, w, w', id, p);
    assert w'.Phase(id) == Waiting(w.nextKey, since, p);
    assert w'.net == w.net[w.nextKey := RequestAt(id, p)] && w'.replies == w.replies;
    OneServerKeeps(m, w, w', id);
  }

  lemma BrokerKeeps(m: Membership, w: World, a: Action)
    requires Inv(m, w) && Enabled(w, a) && (a.Tick? || a.Expire?)
    ensures Inv(m, Do(m, w, a))
  {
    var w' := Do(m, w, a);
    StepExtends(m, w, a);
    forall j | j in w'.net ensures RequestOk(m, w', w'.net[j]) {
      RequestStable(m, w, w', w.net[j]);
    }
    forall x ensures PhaseOk(m, w', x, w'.Phase(x)) {
      assert PhaseOk(m, w, x, w.Phase(x));
      PhaseStable(m, w, w', x, w.Phase(x));
    }
  }

  lemma DeliverKeeps(m: Membership, w: World, id: Id)
    requires Inv(m, w) && Enabled(w, Deliver(id))
    ensures Inv(m, Do(m, w, Deliver(id)))
  {
    var ph := w.Phase(id);
    assert PhaseOk(m, w, id, ph);
    var p, a := ph.at, w.replies[ph.k];
    if p.Creating? || p.Reading? || p.Overwriting? || p.Polling? || p.Rechecking? || p.Recreating? || p.Retaking? {
      ResumeAcquiring(m, w, id, ph.since, p, a);
    } else {
      ResumeHolding(m, w, id, ph.since, p, a);
    }
    match Resume(m, id, w.now, p, a) {
      case Rest(q) => LocalKeeps(m, w, id, q);
      case Ask(q, renew) => SendKeeps(m, w, id, if renew then w.now else ph.since, q);
    }
  }

  lemma StepKeeps(m: Membership, w: World, a: Action)
    requires Inv(m, w) && Enabled(w, a)
    ensures Inv(m, Do(m, w, a))
  {
    match a
    case Tick(_) => BrokerKeeps(m, w, a);
    case Expire => BrokerKeeps(m, w, a);
    case Handle(k) => HandleKeeps(m, w, k);
    case Deliver(id) =>
      DeliverKeeps(m, w, id);
    case GiveUp(id) =>
      assert PhaseOk(m, w, id, w.Phase(id));
      LocalKeeps(m, w, id, Abandon(w.Phase(id).at));
    case Start(id, ha) => LocalKeeps(m, w, id, Starting(if ha then HA(0) else Plain));
    case Retry(id) => SendKeeps(m, w, id, w.now, Creating(w.Phase(id).mode));
    case Quit(id) => LocalKeeps(m, w, id, Idle);
    case Poll(id) =>
      var ph := w.Phase(id);
      assert PhaseOk(m, w, id, ph);
      SendKeeps(m, w, id, w.now, Polling(ph.mode, ph.rev, ph.start));
    case EndWatch(id) =>
      var ph := w.Phase(id);
      assert PhaseOk(m, w, id, ph);
      SendKeeps(m, w, id, w.now, Rechecking(ph.mode, ph.rev));
    case Refresh(id) =>
      assert PhaseOk(m, w, id, w.Phase(id));
      SendKeeps(m, w, id, w.now, Refreshing(w.Phase(id).lease));
    case Release(id) =>
      assert PhaseOk(m, w, id, w.Phase(id));
      if w.Phase(id).Lost? {
        LocalKeeps(m, w, id, Idle);
      } else {
        SendKeeps(m, w, id, w.now, Deleting(w.Phase(id).lease.rev));
      }
  }

  lemma TakenStep(m: Membership, ws: seq<World>, i: nat) returns (a: Action)
    requires Run(m, ws) && i + 1 < |ws|
    ensures Enabled(ws[i], a) && ws[i + 1] == Do(m, ws[i], a)
  {
    assert Step(m, ws, i);
    a :| Enabled(ws[i], a) && ws[i + 1] == Do(m, ws[i], a);
  }

  // A run goes on with any enabled action.
  lemma RunGrows(m: Membership, ws: seq<World>, a: Action)
    requires Run(m, ws) && Enabled(ws[|ws| - 1], a)
    ensures Run(m, ws + [Do(m, ws[|ws| - 1], a)])
  {
    var ws' := ws + [Do(m, ws[|ws| - 1], a)];
    forall i | 0 <= i < |ws'| - 1 ensures Step(m, ws', i) {
      var b := a;
      if i < |ws| - 1 {
        b := TakenStep(m, ws, i);
      }
      assert Enabled(ws'[i], b) && ws'[i + 1] == Do(m, ws'[i], b);
    }
  }

  lemma {:induction false} RunKeeps(m: Membership, ws: seq<World>, i: nat)
    requires Run(m, ws) && i < |ws|
    ensures Inv(m, ws[i])
  {
    if i > 0 {
      RunKeeps(m, ws, i - 1);
      var a := TakenStep(m, ws, i - 1);
      StepKeeps(m, ws[i - 1], a);
    }
  }

  /** How the key may leave its holder's hands in one step: it expires, its own holder
      writes or deletes it, a server that found the holder a member of its database
      overwrites it, or anyone overwrites a value that stood unwritten for a TTL. A key without a
      value is only ever created. */
  ghost predicate Custody(m: Membership, w: World, w': World) {
    var n := |w.Log()|;
    && (w'.Log() == w.Log() || (|w'.Log()| == n + 1 && w'.Log()[..n] == w.Log() && w'.Log()[n].at == w.now))
    && (w'.Log() != w.Log() ==> !w'.bucket.expired)
    && (!w.bucket.Live() && w'.Log() != w.Log() ==> w'.Log()[n].act.Put?)
    && (w.bucket.Live() && w'.Log() == w.Log() ==>
          w'.bucket.Live() || w.Log()[n - 1].at + GUARD_TTL <= w.now)
    && (w.bucket.Live() && w'.Log() != w.Log() ==>
          var held, next := w.Log()[n - 1], w'.Log()[n];
          next.who != held.who ==>
            && next.act.Put?
            && (held.at + GUARD_TTL <= w.now || WasMember(m, w, next.who, held.who)))
  }

  lemma StepCustody(m: Membership, w: World, a: Action)
    requires Inv(m, w) && Enabled(w, a)
    ensures Custody(m, w, Do(m, w, a))
  {
    if a.Handle? {
      assert RequestOk(m, w, w.net[a.k]);
    } else if !a.Tick? && !a.Expire? {
      LocalEffect(m, w, a);
    }
  }

  /** Chain of custody: in every run, every step that takes the key from a holder is one of
      the four kinds, so no live holder outside the taker's database loses its key to it. */
  lemma ChainOfCustody(m: Membership, ws: seq<World>, i: nat)
    requires Run(m, ws) && i + 1 < |ws|
    ensures Custody(m, ws[i], ws[i + 1])
  {
    RunKeeps(m, ws, i);
    var a := TakenStep(m, ws, i);
    StepCustody(m, ws[i], a);
  }

  // The lease of a server that holds the guard, at rest or in the middle of a refresh.
  function HeldLease(ph: Phase): (r: seq<Lease>)
    ensures |r| <= 1
  {
    match ph
    case Holding(l) => [l]
    case Waiting(_, _, Refreshing(l)) => [l]
    case Waiting(_, _, Reconciling(l)) => [l]
    case Waiting(_, _, Counting(l)) => [l]
    case Waiting(_, _, Recovering(l)) => [l]
    case _ => []
  }

  ghost predicate Held(w: World, id: Id, l: Lease) {
    HeldLease(w.Phase(id)) == [l]
  }

  /** Fencing: a held guard's revision names a value written under its own id, so two held
      guards never share a revision, and a refresh at a revision that anyone has written past is refused
      in this world and in every later one of the run. */
  lemma Fencing(m: Membership, ws: seq<World>, i: nat, j: nat, id: Id, l: Lease)
    requires Run(m, ws) && i <= j < |ws| && Held(ws[i], id, l)
    ensures OwnPut(ws[i], id, l.rev)
    ensures forall x, y :: x != id && Held(ws[i], x, y) ==> y.rev != l.rev
    ensures Dead(ws[i], l.rev) ==> !Accepts(ws[j].bucket, Update(id, l.rev))
  {
    RunKeeps(m, ws, i);
    assert PhaseOk(m, ws[i], id, ws[i].Phase(id));
    forall x, y | x != id && Held(ws[i], x, y) ensures y.rev != l.rev {
      assert PhaseOk(m, ws[i], x, ws[i].Phase(x));
    }
    RunExtends(m, ws, i, j);
  }

  // The step from world k is id's release.
  ghost predicate ReleasedAt(m: Membership, ws: seq<World>, k: nat, id: Id)
    requires k + 1 < |ws|
  {
    Enabled(ws[k], Release(id)) && ws[k + 1] == Do(m, ws[k], Release(id))
  }

  lemma LostNext(m: Membership, ws: seq<World>, i: nat, id: Id, l: Lease)
    requires Run(m, ws) && i + 1 < |ws| && ws[i].Phase(id) == Lost(l)
    ensures ws[i + 1].Phase(id) == Lost(l) || (ReleasedAt(m, ws, i, id) && ws[i + 1].Phase(id) == Idle)
  {
    var a := TakenStep(m, ws, i);
  }

  /** Lost is for good: a server told that its guard is lost stays so, and sends nothing, through
      the whole run until it is released; the release sends nothing either. */
  lemma {:induction false} LostIsFinal(m: Membership, ws: seq<World>, i: nat, j: nat, id: Id, l: Lease)
    requires Run(m, ws) && i <= j < |ws| && ws[i].Phase(id) == Lost(l)
    ensures ws[j].Phase(id) == Lost(l) ||
            exists k :: i <= k < j && ReleasedAt(m, ws, k, id) &&
                        ws[k].Phase(id) == Lost(l) && ws[k + 1].Phase(id) == Idle
    decreases j
  {
    if i < j {
      LostIsFinal(m, ws, i, j - 1, id, l);
      if ws[j - 1].Phase(id) == Lost(l) {
        LostNext(m, ws, j - 1, id, l);
      }
    }
  }

  lemma ExtendsTransitive(w0: World, w1: World, w2: World)
    requires Extends(w0, w1) && Extends(w1, w2)
    ensures Extends(w0, w2)
  {
  }

  lemma {:induction false} ExtendsChain(ws: seq<World>, i: nat, j: nat)
    requires i <= j < |ws| && forall k :: i <= k < j ==> Extends(ws[k], ws[k + 1])
    ensures Extends(ws[i], ws[j])
  {
    if i < j {
      ExtendsChain(ws, i, j - 1);
      assert Extends(ws[j - 1], ws[j - 1 + 1]);
      ExtendsTransitive(ws[i], ws[j - 1], ws[j]);
    }
  }

  lemma RunExtends(m: Membership, ws: seq<World>, i: nat, j: nat)
    requires Run(m, ws) && i <= j < |ws|
    ensures Extends(ws[i], ws[j])
  {
    forall k | i <= k < j ensures Extends(ws[k], ws[k + 1]) {
      RunKeeps(m, ws, k);
      var a := TakenStep(m, ws, k);
      StepExtends(m, ws[k], a);
    }
    ExtendsChain(ws, i, j);
  }

  // Guard.Healthy: not lost, and refreshed within the TTL.
  predicate Healthy(now: Time, lost: bool, l: Lease) {
    !lost && now - l.lastOK <= GUARD_TTL
  }

  // The broker's key names id in this world.
  predicate Names(w: World, id: Id) {
    w.bucket.Live() && w.bucket.Owner() == id
  }

  lemma StepNames(m: Membership, w: World, a: Action)
    requires Enabled(w, a)
    ensures var w' := Do(m, w, a);
            forall id :: id in w'.named && !Names(w', id) ==> id in w.named && w'.named[id] == w.named[id]
    ensures var w' := Do(m, w, a);
            forall id :: Names(w', id) ==> id in w'.named && w'.named[id] == w'.now
  {
    if !a.Tick? && !a.Expire? && !a.Handle? {
      LocalEffect(m, w, a);
    }
  }

  // The history variable tells the truth: there was such an instant in the run.
  lemma {:induction false} NamedWitness(m: Membership, ws: seq<World>, i: nat, id: Id) returns (s: nat)
    requires Run(m, ws) && i < |ws| && id in ws[i].named
    ensures s <= i && ws[s].now == ws[i].named[id] && Names(ws[s], id)
  {
    assert i > 0;
    var a := TakenStep(m, ws, i - 1);
    StepNames(m, ws[i - 1], a);
    if Names(ws[i], id) {
      s := i;
    } else {
      s := NamedWitness(m, ws, i - 1, id);
    }
  }

  /** Health bound: whenever a guard reports itself healthy, the broker's key named its
      instance at some instant of the run within the last TTL plus one operation timeout, however
      the guard came by its revision. World i is one in which the guard has the fields it reports
      by; world j, in which it reports, may come during its release or after it. */
  lemma HealthBound(m: Membership, ws: seq<World>, i: nat, j: nat, id: Id, l: Lease) returns (s: nat)
    requires Run(m, ws) && i <= j < |ws| && Held(ws[i], id, l) && Healthy(ws[j].now, false, l)
    ensures s <= i && Names(ws[s], id)
    ensures ws[j].now - GUARD_TTL - GUARD_OP_TIMEOUT <= ws[s].now <= ws[j].now
  {
    RunKeeps(m, ws, i);
    assert PhaseOk(m, ws[i], id, ws[i].Phase(id));
    s := NamedWitness(m, ws, i, id);
    RunExtends(m, ws, s, i);
    RunExtends(m, ws, i, j);
  }
}

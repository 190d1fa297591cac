/**
  The guard as a step machine: any number of servers, each running the
  acquire, refresh and release code of guard.go one request at a time, against
  one bucket and an unreliable network. A request may be handled at any time
  after it is sent, in any order, even after its sender stopped waiting, or
  never; a reply may be lost.
 */
module GuardProtocol {
  import opened Common
  import opened KvBucket

  const GUARD_TAKE_ROUNDS := 3
  const WATCH_POLL: Time := GUARD_REFRESH / 5

  // IsMember of each server, at each instant: member(asking, asked about, when).
  type Membership = (Id, Id, Time) -> bool

  // A held guard's revision and lastOK fields.
  datatype Lease = Lease(rev: nat, lastOK: Time)

  // Whether the key is taken with createGuardKey or, in a round of takeGuardKey, by an HA server.
  datatype Mode = Plain | HA(round: nat)

  // Where a server is in guard.go while it waits for the reply to a request.
  datatype Point =
    | Creating(mode: Mode)
    | Reading(mode: Mode)
    | Overwriting(mode: Mode, rev: nat)
    | Polling(mode: Mode, rev: nat, start: Time)
    | Rechecking(mode: Mode, rev: nat)
    | Recreating(mode: Mode)
    | Retaking(mode: Mode, rev: nat)
    | Refreshing(lease: Lease)
    | Reconciling(lease: Lease)
    | Counting(lease: Lease)
    | Recovering(lease: Lease)
    | Deleting(rev: nat)
    | Rereading
    | Redeleting(rev: nat)

  /** A server at rest, or waiting for the reply to request k. `since` is when the
      context that bounds the request to guardOpTimeout was made. */
  datatype Phase =
    | Idle
    | Starting(mode: Mode)
    | Watching(mode: Mode, rev: nat, start: Time)
    | Holding(lease: Lease)
    | Lost(lease: Lease)
    | Waiting(k: nat, since: Time, at: Point)

  // What a server does with a reply: rest, or send the next request, under the same context or a new one.
  datatype Next = Rest(phase: Phase) | Ask(at: Point, renew: bool)

  predicate OwnedBy(owner: Id, id: Id) {
    owner != "" && owner == id
  }

  predicate IsGuardMember(m: Membership, id: Id, owner: Id, now: Time) {
    owner != "" && m(id, owner, now)
  }

  function RequestAt(id: Id, p: Point): Request {
    match p
    case Creating(_) => Create(id)
    case Reading(_) => Get(id)
    case Overwriting(_, rev) => Update(id, rev)
    case Polling(_, _, _) => Get(id)
    case Rechecking(_, _) => Get(id)
    case Recreating(_) => Create(id)
    case Retaking(_, rev) => Update(id, rev)
    case Refreshing(l) => Update(id, l.rev)
    case Reconciling(_) => Get(id)
    case Counting(_) => LastSeq(id)
    case Recovering(_) => Create(id)
    case Deleting(rev) => Remove(id, rev)
    case Rereading => Get(id)
    case Redeleting(rev) => Remove(id, rev)
  }

  // The next of takeGuardKey's rounds, or giving the attempt up.
  function NextRound(mode: Mode): Phase {
    if mode.HA? && mode.round + 1 < GUARD_TAKE_ROUNDS then Starting(HA(mode.round + 1)) else Idle
  }

  // A request that failed, or whose reply did not come in time.
  function Abandon(p: Point): Phase {
    match p
    case Creating(m) => Starting(m)
    case Reading(m) => Starting(m)
    case Overwriting(m, _) => Starting(m)
    case Polling(m, rev, start) => Watching(m, rev, start)
    case Refreshing(l) => Holding(l)
    case Reconciling(l) => Holding(l)
    case Counting(l) => Holding(l)
    case Recovering(l) => Holding(l)
    case _ => Idle
  }

  function Resume(m: Membership, id: Id, now: Time, p: Point, a: Reply): Next {
    match (p, a)
    // createGuardKey and probeGuardKey
    case (Creating(_), Done(r)) => Rest(Holding(Lease(r, now)))
    case (Creating(mode), Refused) => Ask(Reading(mode), false)
    case (Reading(mode), Found(r, o)) =>
      if OwnedBy(o, id) then Rest(Holding(Lease(r, now)))
      else if mode.Plain? then Rest(Idle)
      else if IsGuardMember(m, id, o, now) then Ask(Overwriting(mode, r), false)
      else Ask(Polling(mode, r, now), true)
    case (Reading(mode), Missing) => Rest(Starting(mode))
    case (Overwriting(_, _), Done(r)) => Rest(Holding(Lease(r, now)))
    case (Overwriting(mode, _), Refused) => Rest(NextRound(mode))
    // watchGuardKey
    case (Polling(mode, rev, _), Missing) => Ask(Rechecking(mode, rev), true)
    case (Polling(mode, rev, start), Found(r, o)) =>
      if r == rev then Rest(Watching(mode, rev, start))
      else if o == "" || (o != id && !m(id, o, now)) then Rest(Idle)
      else Rest(NextRound(mode))
    // retakeStaleGuardKey
    case (Rechecking(mode, _), Missing) => Ask(Recreating(mode), false)
    case (Rechecking(mode, rev), Found(r, _)) =>
      if r == rev then Ask(Retaking(mode, rev), false) else Rest(NextRound(mode))
    case (Recreating(_), Done(r)) => Rest(Holding(Lease(r, now)))
    case (Recreating(mode), Refused) => Rest(NextRound(mode))
    case (Retaking(_, _), Done(r)) => Rest(Holding(Lease(r, now)))
    case (Retaking(mode, _), Refused) => Rest(NextRound(mode))
    // refreshOnce, reconcile and retakeExpired
    case (Refreshing(_), Done(r)) => Rest(Holding(Lease(r, now)))
    case (Refreshing(l), Refused) => Ask(Reconciling(l), false)
    case (Reconciling(l), Missing) => Ask(Counting(l), false)
    case (Reconciling(l), Found(r, o)) =>
      if OwnedBy(o, id) then Rest(Holding(Lease(r, now))) else Rest(Lost(l))
    case (Counting(l), Last(n)) =>
      if n == l.rev then Ask(Recovering(l), false) else Rest(Lost(l))
    case (Recovering(_), Done(r)) => Rest(Holding(Lease(r, now)))
    // deleteOwnKey
    case (Deleting(_), Refused) => Ask(Rereading, false)
    case (Rereading, Found(r, o)) => if OwnedBy(o, id) then Ask(Redeleting(r), false) else Rest(Idle)
    case _ => Rest(Abandon(p))
  }

  /** `named` is a history variable: for each instance, the last instant at which the
      broker's key named it. */
  datatype World = World(now: Time, bucket: Bucket,
                         net: map<nat, Request>, replies: map<nat, Reply>, nextKey: nat,
                         phases: map<Id, Phase>, named: map<Id, Time>) {
    function Phase(id: Id): Phase {
      if id in phases then phases[id] else Idle
    }

    function Log(): seq<Write> {
      bucket.log
    }

    // The sender of request k is still waiting for its reply.
    predicate Awaited(k: nat, who: Id) {
      Phase(who).Waiting? && Phase(who).k == k
    }

    // Nothing was written since the last-sequence read that request k's create follows.
    predicate Prompt(k: nat, who: Id) {
      Awaited(k, who) && Phase(who).at.Recovering? ==> |bucket.log| == Phase(who).at.lease.rev
    }
  }

  function Init(): World {
    World(0, Bucket([], false), map[], map[], 0, map[], map[])
  }

  datatype Action =
    | Tick(d: nat)              // time passes
    | Expire                    // the broker drops a message older than the TTL
    | Handle(k: nat)            // the broker handles a request
    | Deliver(id: Id)           // a reply reaches its sender in time
    | GiveUp(id: Id)            // a sender stops waiting: its context ended, or the request failed
    | Start(id: Id, ha: bool)   // acquireGuard
    | Retry(id: Id)             // the next attempt of retryUntil, or round of takeGuardKey
    | Quit(id: Id)              // an acquisition fails
    | Poll(id: Id)              // the next poll of watchGuardKey
    | EndWatch(id: Id)          // watchGuardKey's TTL is over
    | Refresh(id: Id)           // a tick of refreshLoop
    | Release(id: Id)

  function With(w: World, id: Id, ph: Phase): World {
    w.(phases := w.phases[id := ph])
  }

  function Send(w: World, id: Id, since: Time, p: Point): World {
    With(w, id, Waiting(w.nextKey, since, p)).(net := w.net[w.nextKey := RequestAt(id, p)], nextKey := w.nextKey + 1)
  }

  function Stamp(w: World): World {
    if w.bucket.Live() then w.(named := w.named[w.bucket.Owner() := w.now]) else w
  }

  predicate Enabled(w: World, a: Action) {
    match a
    case Tick(_) => true
    case Expire => w.bucket.Stored() && w.Log()[|w.Log()| - 1].at + GUARD_TTL <= w.now
    case Handle(k) => k in w.net
    case Deliver(id) =>
      var ph := w.Phase(id);
      ph.Waiting? && ph.k in w.replies && w.now <= ph.since + GUARD_OP_TIMEOUT
    case GiveUp(id) => w.Phase(id).Waiting?
    case Start(id, _) => id != "" && w.Phase(id).Idle?
    case Retry(id) => w.Phase(id).Starting?
    case Quit(id) => w.Phase(id).Starting? || w.Phase(id).Watching?
    case Poll(id) => w.Phase(id).Watching?
    case EndWatch(id) => w.Phase(id).Watching? && w.Phase(id).start + GUARD_TTL + WATCH_POLL <= w.now
    case Refresh(id) => w.Phase(id).Holding?
    case Release(id) => w.Phase(id).Holding? || w.Phase(id).Lost?
  }

  function HandleEffect(w: World, k: nat): World
    requires k in w.net
  {
    var r := w.net[k];
    w.(bucket := Commit(w.bucket, r, w.now, r.Create? ==> w.Awaited(k, r.who), r.Create? ==> w.Prompt(k, r.who)),
       net := w.net - {k},
       replies := w.replies[k := Answer(w.bucket, r)])
  }

  function DeliverEffect(m: Membership, w: World, id: Id): World
    requires Enabled(w, Deliver(id))
  {
    var ph := w.Phase(id);
    match Resume(m, id, w.now, ph.at, w.replies[ph.k])
    case Rest(q) => With(w, id, q)
    case Ask(p, renew) => Send(w, id, if renew then w.now else ph.since, p)
  }

  function Effect(m: Membership, w: World, a: Action): World
    requires Enabled(w, a)
  {
    match a
    case Tick(d) => w.(now := w.now + d)
    case Expire => w.(bucket := w.bucket.(expired := true))
    case Handle(k) => HandleEffect(w, k)
    case Deliver(id) => DeliverEffect(m, w, id)
    case GiveUp(id) => With(w, id, Abandon(w.Phase(id).at))
    case Start(id, ha) => With(w, id, Starting(if ha then HA(0) else Plain))
    case Retry(id) => Send(w, id, w.now, Creating(w.Phase(id).mode))
    case Quit(id) => With(w, id, Idle)
    case Poll(id) => var ph := w.Phase(id); Send(w, id, w.now, Polling(ph.mode, ph.rev, ph.start))
    case EndWatch(id) => var ph := w.Phase(id); Send(w, id, w.now, Rechecking(ph.mode, ph.rev))
    case Refresh(id) => Send(w, id, w.now, Refreshing(w.Phase(id).lease))
    case Release(id) =>
      if w.Phase(id).Lost? then With(w, id, Idle) else Send(w, id, w.now, Deleting(w.Phase(id).lease.rev))
  }

  function Do(m: Membership, w: World, a: Action): World
    requires Enabled(w, a)
  {
    Stamp(Effect(m, w, a))
  }

  // World i leads to the next by one action.
  ghost predicate Step(m: Membership, ws: seq<World>, i: nat)
    requires i + 1 < |ws|
  {
    exists a :: Enabled(ws[i], a) && ws[i + 1] == Do(m, ws[i], a)
  }

  /** A run of the whole system: the worlds it passes through. */
  ghost predicate Run(m: Membership, ws: seq<World>) {
    && |ws| > 0
    && ws[0] == Init()
    && forall i :: 0 <= i < |ws| - 1 ==> Step(m, ws, i)
  }
}

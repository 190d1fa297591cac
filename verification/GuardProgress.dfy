/**
  What the guard does when nothing disturbs it. From any world of any run, a
  server whose requests are handled and answered at once takes a free key, a member's
  key, or an outsider's that stands still; it keeps what it holds by refreshing, gets
  an expired key back, and leaves the key free when it releases it. And over any
  run, a holder whose refreshes come in time and are accepted stays healthy, and a guard is
  lost only when the broker's answers say so.
 */
module GuardProgress {
  import opened Common
  import opened KvBucket
  import opened GuardProtocol
  import opened GuardCustody
  import opened GuardTenure

  // ---- one request, handled and answered at once ----

  // id waits for the answer to the request of point p, and can still have it in time.
  ghost predicate Asks(w: World, id: Id, since: Time, p: Point) {
    var ph := w.Phase(id);
    && ph.Waiting? && ph.since == since && ph.at == p
    && ph.k in w.net && w.net[ph.k] == RequestAt(id, p)
    && w.now <= since + GUARD_OP_TIMEOUT
  }

  // Where a server's code goes on from: at rest, or with its next request under way.
  ghost predicate GoesOn(w: World, id: Id, since: Time, n: Next) {
    match n
    case Rest(ph) => w.Phase(id) == ph
    case Ask(p, renew) => Asks(w, id, if renew then w.now else since, p)
  }

  // From w to w' the request of point p was handled and its answer delivered.
  ghost predicate Exchanged(m: Membership, w: World, w': World, id: Id, since: Time, p: Point) {
    var q := RequestAt(id, p);
    && w'.now == w.now
    && w'.bucket == Commit(w.bucket, q, w.now, true, p.Recovering? ==> |w.Log()| == p.lease.rev)
    && GoesOn(w', id, since, Resume(m, id, w.now, p, Answer(w.bucket, q)))
  }

  lemma SendAsks(w: World, id: Id, since: Time, p: Point)
    requires w.now <= since + GUARD_OP_TIMEOUT
    ensures var w' := Stamp(Send(w, id, since, p));
            Asks(w', id, since, p) && w'.now == w.now && w'.bucket == w.bucket
  {
  }

  lemma Handled(m: Membership, w: World, id: Id, since: Time, p: Point)
    requires Asks(w, id, since, p)
    ensures var k, q := w.Phase(id).k, RequestAt(id, p);
            && Enabled(w, Handle(k))
            && var h := Do(m, w, Handle(k));
               && h.now == w.now && h.Phase(id) == w.Phase(id) && Enabled(h, Deliver(id))
               && h.replies[k] == Answer(w.bucket, q)
               && h.bucket == Commit(w.bucket, q, w.now, true, p.Recovering? ==> |w.Log()| == p.lease.rev)
  {
    assert RequestAt(id, p).who == id;
  }

  lemma Delivered(m: Membership, w: World, id: Id)
    requires Enabled(w, Deliver(id))
    ensures var w', ph := Do(m, w, Deliver(id)), w.Phase(id);
            && w'.now == w.now && w'.bucket == w.bucket
            && GoesOn(w', id, ph.since, Resume(m, id, w.now, ph.at, w.replies[ph.k]))
  {
    var ph := w.Phase(id);
    match Resume(m, id, w.now, ph.at, w.replies[ph.k])
    case Rest(_) =>
    case Ask(p, renew) => SendAsks(w, id, if renew then w.now else ph.since, p);
  }

  // A run goes on to w'.
  ghost predicate Reaches(m: Membership, ws: seq<World>, ws': seq<World>, w': World) {
    Run(m, ws') && ws <= ws' && w' == ws'[|ws'| - 1]
  }

  lemma Go(m: Membership, ws: seq<World>, a: Action) returns (ws': seq<World>, w': World)
    requires Run(m, ws) && Enabled(ws[|ws| - 1], a)
    ensures Reaches(m, ws, ws', w') && w' == Do(m, ws[|ws| - 1], a)
  {
    RunGrows(m, ws, a);
    w' := Do(m, ws[|ws| - 1], a);
    ws' := ws + [w'];
  }

  lemma Exchange(m: Membership, ws: seq<World>, w: World, id: Id, since: Time, p: Point)
    returns (ws': seq<World>, w': World)
    requires Run(m, ws) && w == ws[|ws| - 1] && Asks(w, id, since, p)
    ensures Reaches(m, ws, ws', w') && Exchanged(m, w, w', id, since, p)
  {
    Handled(m, w, id, since, p);
    var h;
    ws', h := Go(m, ws, Handle(w.Phase(id).k));
    Delivered(m, h, id);
    ws', w' := Go(m, ws', Deliver(id));
  }

  // ---- taking the key ----

  // An acquisition makes its next attempt.
  lemma Attempt(m: Membership, ws: seq<World>, w: World, id: Id) returns (ws': seq<World>, w': World)
    requires Run(m, ws) && w == ws[|ws| - 1] && w.Phase(id).Starting?
    ensures Reaches(m, ws, ws', w') && Asks(w', id, w.now, Creating(w.Phase(id).mode))
    ensures w'.now == w.now && w'.bucket == w.bucket
  {
    SendAsks(w, id, w.now, Creating(w.Phase(id).mode));
    ws', w' := Go(m, ws, Retry(id));
  }

  // id holds the guard at revision rev, which it wrote, and the key names it.
  ghost predicate Leads(w: World, id: Id, rev: nat, at: Time) {
    w.Phase(id) == Holding(Lease(rev, at)) && Names(w, id) && |w.Log()| == rev
  }

  // Whoever attempts to take a key that has no value gets it.
  lemma FreeKeyIsTaken(m: Membership, ws: seq<World>, w: World, id: Id) returns (ws': seq<World>, w': World)
    requires Run(m, ws) && w == ws[|ws| - 1] && w.Phase(id).Starting? && !w.bucket.Live()
    ensures Reaches(m, ws, ws', w') && Leads(w', id, |w.Log()| + 1, w.now)
  {
    var w1;
    ws', w1 := Attempt(m, ws, w, id);
    ws', w' := Exchange(m, ws', w1, id, w.now, Creating(w.Phase(id).mode));
  }

  // The key has another's value: the create is refused, and the key read.
  lemma TakenKeyIsRead(m: Membership, ws: seq<World>, w: World, id: Id) returns (ws': seq<World>, w': World)
    requires Run(m, ws) && w == ws[|ws| - 1] && w.Phase(id).Starting? && w.bucket.Live()
    ensures Reaches(m, ws, ws', w') && w'.now == w.now && w'.bucket == w.bucket
    ensures GoesOn(w', id, w.now,
                   Resume(m, id, w.now, Reading(w.Phase(id).mode), Found(|w.Log()|, w.bucket.Owner())))
  {
    var w1, w2;
    ws', w1 := Attempt(m, ws, w, id);
    ws', w2 := Exchange(m, ws', w1, id, w.now, Creating(w.Phase(id).mode));
    ws', w' := Exchange(m, ws', w2, id, w.now, Reading(w.Phase(id).mode));
  }

  // A server that starts again under its own id finds the key to be its own.
  lemma OwnKeyIsAdopted(m: Membership, ws: seq<World>, w: World, id: Id) returns (ws': seq<World>, w': World)
    requires Run(m, ws) && w == ws[|ws| - 1] && w.Phase(id).Starting? && Names(w, id) && id != ""
    ensures Reaches(m, ws, ws', w') && Leads(w', id, |w.Log()|, w.now)
  {
    ws', w' := TakenKeyIsRead(m, ws, w, id);
  }

  // Without members, a key that is another's is not touched.
  lemma OtherKeyIsLeft(m: Membership, ws: seq<World>, w: World, id: Id) returns (ws': seq<World>, w': World)
    requires Run(m, ws) && w == ws[|ws| - 1] && w.Phase(id) == Starting(Plain)
    requires w.bucket.Live() && w.bucket.Owner() != id
    ensures Reaches(m, ws, ws', w') && w'.Phase(id).Idle? && w'.bucket == w.bucket
  {
    ws', w' := TakenKeyIsRead(m, ws, w, id);
  }

  /** An HA server takes over a live key that names a member: its three requests undisturbed, it
      holds the guard at the next revision and the key names it. */
  lemma MemberKeyIsTaken(m: Membership, ws: seq<World>, w: World, id: Id) returns (ws': seq<World>, w': World)
    requires Run(m, ws) && w == ws[|ws| - 1] && w.Phase(id).Starting? && w.Phase(id).mode.HA? && w.bucket.Live()
    requires var o := w.bucket.Owner(); o != id && o != "" && m(id, o, w.now)
    ensures Reaches(m, ws, ws', w') && Leads(w', id, |w.Log()| + 1, w.now)
  {
    var w1;
    ws', w1 := TakenKeyIsRead(m, ws, w, id);
    ws', w' := Exchange(m, ws', w1, id, w.now, Overwriting(w.Phase(id).mode, |w.Log()|));
  }

  // The watch of a key found at time w.now, with its first poll answered.
  lemma OutsiderKeyIsWatched(m: Membership, ws: seq<World>, w: World, id: Id) returns (ws': seq<World>, w': World)
    requires Run(m, ws) && w == ws[|ws| - 1] && w.Phase(id).Starting? && w.Phase(id).mode.HA? && w.bucket.Live()
    requires var o := w.bucket.Owner(); o == "" || (o != id && !m(id, o, w.now))
    ensures Reaches(m, ws, ws', w') && w'.now == w.now && w'.bucket == w.bucket
    ensures w'.Phase(id) == Watching(w.Phase(id).mode, |w.Log()|, w.now)
  {
    var w1;
    ws', w1 := TakenKeyIsRead(m, ws, w, id);
    ws', w' := Exchange(m, ws', w1, id, w.now, Polling(w.Phase(id).mode, |w.Log()|, w.now));
  }

  // A watch that is over finds the key unchanged, and takes it.
  lemma WatchedKeyIsTaken(m: Membership, ws: seq<World>, w: World, id: Id) returns (ws': seq<World>, w': World)
    requires Run(m, ws) && w == ws[|ws| - 1] && w.Phase(id).Watching? && w.Phase(id).start + 32 * SECOND <= w.now
    requires w.bucket.Live() && w.Phase(id).rev == |w.Log()|
    ensures Reaches(m, ws, ws', w') && Leads(w', id, |w.Log()| + 1, w.now)
  {
    var w1, w2;
    var mode, rev := w.Phase(id).mode, w.Phase(id).rev;
    SendAsks(w, id, w.now, Rechecking(mode, rev));
    ws', w1 := Go(m, ws, EndWatch(id));
    ws', w2 := Exchange(m, ws', w1, id, w.now, Rechecking(mode, rev));
    ws', w' := Exchange(m, ws', w2, id, w.now, Retaking(mode, rev));
  }

  /** An HA server takes over a live key of anyone else's that stands still for 32 seconds, a TTL
      and a poll. */
  lemma StaleKeyIsTaken(m: Membership, ws: seq<World>, w: World, id: Id) returns (ws': seq<World>, w': World)
    requires Run(m, ws) && w == ws[|ws| - 1] && w.Phase(id).Starting? && w.Phase(id).mode.HA? && w.bucket.Live()
    requires var o := w.bucket.Owner(); o == "" || (o != id && !m(id, o, w.now))
    ensures Reaches(m, ws, ws', w') && Leads(w', id, |w.Log()| + 1, w.now + 32 * SECOND)
  {
    var w1, w2;
    ws', w1 := OutsiderKeyIsWatched(m, ws, w, id);
    ws', w2 := Go(m, ws', Tick(32 * SECOND));
    ws', w' := WatchedKeyIsTaken(m, ws', w2, id);
  }

  // ---- keeping and releasing it ----

  // A refresh at the key's revision renews the guard.
  lemma RefreshRenews(m: Membership, ws: seq<World>, w: World, id: Id) returns (ws': seq<World>, w': World)
    requires Run(m, ws) && w == ws[|ws| - 1] && w.Phase(id).Holding? && w.bucket.LastOnKey() == w.Phase(id).lease.rev
    ensures Reaches(m, ws, ws', w') && Leads(w', id, |w.Log()| + 1, w.now)
  {
    var l := w.Phase(id).lease;
    var w1;
    SendAsks(w, id, w.now, Refreshing(l));
    ws', w1 := Go(m, ws, Refresh(id));
    ws', w' := Exchange(m, ws', w1, id, w.now, Refreshing(l));
  }

  // A refresh of a key that expired, with nothing written since, gets the key back.
  lemma ExpiredKeyIsRetaken(m: Membership, ws: seq<World>, w: World, id: Id) returns (ws': seq<World>, w': World)
    requires Run(m, ws) && w == ws[|ws| - 1] && w.Phase(id).Holding? && w.bucket.expired
    requires |w.Log()| == w.Phase(id).lease.rev
    ensures Reaches(m, ws, ws', w') && Leads(w', id, |w.Log()| + 1, w.now)
  {
    var l := w.Phase(id).lease;
    var w1, w2, w3, w4;
    RunKeeps(m, ws, |ws| - 1);
    assert PhaseOk(m, w, id, w.Phase(id));
    SendAsks(w, id, w.now, Refreshing(l));
    ws', w1 := Go(m, ws, Refresh(id));
    ws', w2 := Exchange(m, ws', w1, id, w.now, Refreshing(l));
    ws', w3 := Exchange(m, ws', w2, id, w.now, Reconciling(l));
    ws', w4 := Exchange(m, ws', w3, id, w.now, Counting(l));
    ws', w' := Exchange(m, ws', w4, id, w.now, Recovering(l));
  }

  // A release at the key's revision leaves the key free.
  lemma ReleaseFreesKey(m: Membership, ws: seq<World>, w: World, id: Id) returns (ws': seq<World>, w': World)
    requires Run(m, ws) && w == ws[|ws| - 1] && w.Phase(id).Holding? && w.bucket.LastOnKey() == w.Phase(id).lease.rev
    ensures Reaches(m, ws, ws', w') && w'.Phase(id).Idle? && !w'.bucket.Live() && |w'.Log()| == |w.Log()| + 1
  {
    var rev := w.Phase(id).lease.rev;
    var w1;
    SendAsks(w, id, w.now, Deleting(rev));
    ws', w1 := Go(m, ws, Release(id));
    ws', w' := Exchange(m, ws', w1, id, w.now, Deleting(rev));
  }

  // A release at an older revision of its own value looks again, and leaves the key free too.
  lemma ReleaseFindsKey(m: Membership, ws: seq<World>, w: World, id: Id) returns (ws': seq<World>, w': World)
    requires Run(m, ws) && w == ws[|ws| - 1] && w.Phase(id).Holding? && w.bucket.LastOnKey() != w.Phase(id).lease.rev
    requires Names(w, id) && id != ""
    ensures Reaches(m, ws, ws', w') && w'.Phase(id).Idle? && !w'.bucket.Live() && |w'.Log()| == |w.Log()| + 1
  {
    var rev := w.Phase(id).lease.rev;
    var w1, w2, w3;
    SendAsks(w, id, w.now, Deleting(rev));
    ws', w1 := Go(m, ws, Release(id));
    ws', w2 := Exchange(m, ws', w1, id, w.now, Deleting(rev));
    ws', w3 := Exchange(m, ws', w2, id, w.now, Rereading);
    ws', w' := Exchange(m, ws', w3, id, w.now, Redeleting(|w.Log()|));
  }

  // ---- over whole runs ----

  // What the broker's answer says when it ends a tenure: another's key, or more written since.
  ghost predicate Deposing(w: World, id: Id) {
    var ph := w.Phase(id);
    && ph.Waiting? && ph.k in w.replies
    && var a := w.replies[ph.k];
       || (ph.at.Reconciling? && a.Found? && (a.owner == "" || a.owner != id))
       || (ph.at.Counting? && a.Last? && a.seqno != ph.at.lease.rev)
  }

  /** A guard becomes lost exactly when an answer that says so is delivered. */
  lemma LostIff(m: Membership, w: World, a: Action, id: Id)
    requires Enabled(w, a) && !w.Phase(id).Lost?
    ensures Do(m, w, a).Phase(id).Lost? <==> a == Deliver(id) && Deposing(w, id)
  {
    StampFrame(Effect(m, w, a));
  }

  /** A holder kept up: its refreshes start within a refresh interval of the last success, are
      answered within the operation timeout and accepted; and it does not release the guard. */
  ghost predicate KeptUp(w: World, id: Id) {
    match w.Phase(id)
    case Holding(l) => w.now <= l.lastOK + GUARD_REFRESH
    case Waiting(k, since, Refreshing(l)) =>
      w.now <= since + GUARD_OP_TIMEOUT && (k in w.replies ==> w.replies[k].Done?)
    case Waiting(_, _, Deleting(_)) => false
    case _ => true
  }

  // It holds the guard, and its last success is recent.
  ghost predicate Fresh(w: World, id: Id) {
    match w.Phase(id)
    case Holding(l) => w.now <= l.lastOK + GUARD_REFRESH
    case Waiting(_, since, Refreshing(l)) =>
      since <= l.lastOK + GUARD_REFRESH && w.now <= since + GUARD_OP_TIMEOUT
    case _ => false
  }

  lemma FreshNext(m: Membership, w: World, a: Action, id: Id)
    requires Enabled(w, a) && Fresh(w, id) && KeptUp(w, id) && KeptUp(Do(m, w, a), id)
    ensures Fresh(Do(m, w, a), id)
  {
    StampFrame(Effect(m, w, a));
  }

  /** A holder that is kept up from world i to world j still holds the guard there, and is
      healthy: its last success is at most 15 seconds ago. */
  lemma {:induction false} KeptUpStaysHealthy(m: Membership, ws: seq<World>, i: nat, j: nat, id: Id)
    requires Run(m, ws) && i <= j < |ws| && ws[i].Phase(id).Holding?
    requires forall k :: i <= k <= j ==> KeptUp(ws[k], id)
    ensures Fresh(ws[j], id)
    ensures exists l :: Held(ws[j], id, l) && ws[j].now <= l.lastOK + 15 * SECOND && Healthy(ws[j].now, false, l)
    decreases j
  {
    if i < j {
      KeptUpStaysHealthy(m, ws, i, j - 1, id);
      var a := TakenStep(m, ws, j - 1);
      FreshNext(m, ws[j - 1], a, id);
    }
    var l := HeldLease(ws[j].Phase(id))[0];
    assert Held(ws[j], id, l);
  }
}

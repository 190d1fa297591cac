/**
  The arithmetic of the lease: a holder whose refresh commits at least every
  second tick keeps its key, so nobody outside its database takes it. A restore
  holds the account that way, under an id no database knows.
 */
module GuardLease {
  import opened Common
  import opened KvBucket
  import opened GuardProtocol
  import opened GuardCustody
  import opened GuardTenure

  ghost predicate Ordered(w: World) {
    forall i, j :: 0 <= i <= j < |w.Log()| ==> w.Log()[i].at <= w.Log()[j].at
  }

  lemma OrderedStep(m: Membership, w: World, w': World)
    requires Clocks(w) && Ordered(w) && Custody(m, w, w')
    ensures Ordered(w')
  {
    assert forall x :: 0 <= x < |w.Log()| ==> w'.Log()[x] == w.Log()[x] && w'.Log()[x].at <= w.now;
  }

  lemma {:induction false} RunOrdered(m: Membership, ws: seq<World>, i: nat)
    requires Run(m, ws) && i < |ws|
    ensures Ordered(ws[i])
  {
    if i > 0 {
      RunKeeps(m, ws, i - 1);
      RunOrdered(m, ws, i - 1);
      ChainOfCustody(m, ws, i - 1);
      OrderedStep(m, ws[i - 1], ws[i]);
    }
  }

  ghost predicate CommitsIn(w: World, id: Id, from: int, to: int) {
    exists x :: 1 <= x <= |w.Log()| && Author(w, x) == id && from <= w.Log()[x - 1].at <= to
  }

  // The n-th tick of a refresh loop that started at t0; the first comes one period after the start.
  function TickTime(t0: Time, n: nat): Time {
    t0 + n * GUARD_REFRESH
  }

  /** The holder's refresh loop started at t0, at most one operation timeout after the write
      that took the key, and of every two consecutive ticks whose requests are over, one has
      committed its update. */
  ghost predicate KeepsRefreshing(w: World, id: Id, t0: Time) {
    && t0 <= w.now
    && CommitsIn(w, id, t0 - GUARD_OP_TIMEOUT, w.now)
    && forall n :: n >= 1 && TickTime(t0, n) + GUARD_REFRESH + GUARD_OP_TIMEOUT <= w.now ==>
         CommitsIn(w, id, TickTime(t0, n), TickTime(t0, n) + GUARD_REFRESH + GUARD_OP_TIMEOUT)
  }

  // Successive commits are less than the TTL apart.
  lemma FreshCommit(w: World, id: Id, t0: Time)
    requires KeepsRefreshing(w, id, t0)
    ensures CommitsIn(w, id, w.now - GUARD_TTL + 1, w.now)
  {
    if t0 + 2 * GUARD_REFRESH + GUARD_OP_TIMEOUT <= w.now {
      var n := (w.now - t0 - GUARD_REFRESH - GUARD_OP_TIMEOUT) / GUARD_REFRESH;
      var over := TickTime(t0, n) + GUARD_REFRESH + GUARD_OP_TIMEOUT;
      assert n >= 1 && over <= w.now < over + GUARD_REFRESH;
    }
  }

  // No other server's database has id as a member.
  ghost predicate Outsider(m: Membership, id: Id) {
    forall y, t :: y != id ==> !IsGuardMember(m, y, id, t)
  }

  // After the first n writes, id has not released the guard.
  ghost predicate NeverDeletes(w: World, id: Id, n: nat) {
    forall x :: n <= x < |w.Log()| && w.Log()[x].who == id ==> w.Log()[x].act.Put?
  }

  lemma NeverDeletedBefore(m: Membership, ws: seq<World>, k: nat, j: nat, id: Id, n: nat)
    requires Run(m, ws) && k <= j < |ws| && NeverDeletes(ws[j], id, n)
    ensures NeverDeletes(ws[k], id, n)
  {
    RunExtends(m, ws, k, j);
    assert forall x :: 0 <= x < |ws[k].Log()| ==> ws[j].Log()[x] == ws[k].Log()[x];
  }

  // A key that names a refreshing holder was written less than a TTL ago.
  lemma FreshKey(w: World, id: Id, t0: Time)
    requires KeepsRefreshing(w, id, t0) && Names(w, id) && Ordered(w)
    ensures w.now < w.Log()[|w.Log()| - 1].at + GUARD_TTL
  {
    FreshCommit(w, id, t0);
    var x :| 1 <= x <= |w.Log()| && Author(w, x) == id && w.now - GUARD_TTL + 1 <= w.Log()[x - 1].at <= w.now;
    assert w.Log()[x - 1].at <= w.Log()[|w.Log()| - 1].at;
  }

  /** The lease's arithmetic: while a holder commits one of every two refreshes its key does not
      expire, and the only step that takes it from the holder is its own release or the overwrite of a server
      that found the holder a member of its database. */
  lemma OnlyMembersTake(m: Membership, ws: seq<World>, i: nat, id: Id, t0: Time)
    requires Run(m, ws) && i + 1 < |ws| && Names(ws[i], id) && KeepsRefreshing(ws[i], id, t0)
    ensures var n, log := |ws[i].Log()|, ws[i + 1].Log();
            || Names(ws[i + 1], id)
            || (|log| == n + 1 && log[n].who == id && log[n].act.Delete?)
            || (|log| == n + 1 && log[n].who != id && log[n].act.Put? && WasMember(m, ws[i], log[n].who, id))
  {
    RunOrdered(m, ws, i);
    FreshKey(ws[i], id, t0);
    ChainOfCustody(m, ws, i);
  }

  lemma KeptStep(m: Membership, w: World, w': World, id: Id, t0: Time)
    requires Custody(m, w, w') && Names(w, id) && Ordered(w) && KeepsRefreshing(w, id, t0)
    requires Outsider(m, id) && NeverDeletes(w', id, |w.Log()|)
    ensures Names(w', id)
    ensures forall x :: |w.Log()| <= x < |w'.Log()| ==> w'.Log()[x].who == id
  {
    FreshKey(w, id, t0);
  }

  lemma {:induction false} KeptChain(m: Membership, ws: seq<World>, i: nat, j: nat, id: Id, t0: Time)
    requires i <= j < |ws| && Names(ws[i], id) && Outsider(m, id)
    requires forall k :: i <= k <= j ==> KeepsRefreshing(ws[k], id, t0) && NeverDeletes(ws[k], id, |ws[i].Log()|)
    requires forall k :: i <= k < j ==> Ordered(ws[k]) && Custody(m, ws[k], ws[k + 1])
    ensures Kept(ws[i], ws[j], id)
  {
    if i < j {
      KeptChain(m, ws, i, j - 1, id, t0);
      var w, w' := ws[j - 1], ws[j - 1 + 1];
      KeptStep(m, w, w', id, t0);
      KeptOn(m, ws[i], w, w', id);
    }
  }

  // The key names id, and every write since w was its own.
  ghost predicate Kept(w: World, w': World, id: Id) {
    && Names(w', id) && |w.Log()| <= |w'.Log()|
    && forall x :: |w.Log()| <= x < |w'.Log()| ==> w'.Log()[x].who == id
  }

  lemma KeptOn(m: Membership, w0: World, w: World, w': World, id: Id)
    requires Kept(w0, w, id) && Custody(m, w, w') && Names(w', id)
    requires forall x :: |w.Log()| <= x < |w'.Log()| ==> w'.Log()[x].who == id
    ensures Kept(w0, w', id)
  {
    assert forall x :: 0 <= x < |w.Log()| ==> w'.Log()[x] == w.Log()[x];
  }

  /** While a holder outside every other server's database commits one of every two refreshes and
      does not release the guard, its key neither expires nor changes hands: every write to the
      bucket is its own. */
  lemma RefreshedKeyIsKept(m: Membership, ws: seq<World>, i: nat, j: nat, id: Id, t0: Time)
    requires Run(m, ws) && i <= j < |ws| && Names(ws[i], id) && Outsider(m, id)
    requires NeverDeletes(ws[j], id, |ws[i].Log()|)
    requires forall k :: i <= k <= j ==> KeepsRefreshing(ws[k], id, t0)
    ensures Names(ws[j], id)
    ensures forall x :: |ws[i].Log()| <= x < |ws[j].Log()| ==> ws[j].Log()[x].who == id
  {
    forall k | i <= k < j ensures Ordered(ws[k]) && Custody(m, ws[k], ws[k + 1]) {
      RunOrdered(m, ws, k);
      ChainOfCustody(m, ws, k);
    }
    forall k | i <= k <= j ensures NeverDeletes(ws[k], id, |ws[i].Log()|) {
      NeverDeletedBefore(m, ws, k, j, id, |ws[i].Log()|);
    }
    KeptChain(m, ws, i, j, id, t0);
  }

  // A server that holds no guard, and has no answer in hand that gives it one.
  ghost predicate ShutOut(w: World, y: Id) {
    var ph := w.Phase(y);
    && HeldLease(ph) == []
    && (ph.Waiting? && ph.k in w.replies ==> !Gives(y, ph.at, w.replies[ph.k]))
  }

  // The answers that give an acquisition the key.
  predicate Gives(y: Id, p: Point, a: Reply) {
    || ((p.Creating? || p.Overwriting? || p.Recreating? || p.Retaking?) && a.Done?)
    || (p.Reading? && a.Found? && OwnedBy(a.owner, y))
  }

  // A server without a guard gets one from an answer exactly when it is one of those.
  lemma AnswerGives(m: Membership, w: World, y: Id)
    requires Enabled(w, Deliver(y)) && HeldLease(w.Phase(y)) == []
    ensures HeldLease(Do(m, w, Deliver(y)).Phase(y)) != [] <==> !ShutOut(w, y)
  {
    DeliverPhase(m, w, y);
  }

  lemma ShutOutHandle(m: Membership, w: World, k: nat, id: Id, y: Id)
    requires Inv(m, w) && k in w.net && y != id && ShutOut(w, y)
    requires Names(w, id) && Names(Do(m, w, Handle(k)), id)
    ensures ShutOut(Do(m, w, Handle(k)), y)
  {
    HandleLog(m, w, k);
    var w', ph := Do(m, w, Handle(k)), w.Phase(y);
    assert PhaseOk(m, w, y, ph);
    assert Author(w', |w'.Log()|) == id;
  }

  lemma ShutOutDeliver(m: Membership, w: World, y: Id)
    requires Inv(m, w) && Enabled(w, Deliver(y)) && ShutOut(w, y)
    ensures ShutOut(Do(m, w, Deliver(y)), y)
  {
    QuietStep(m, w, Deliver(y));
    DeliverPhase(m, w, y);
    AnswerGives(m, w, y);
  }

  lemma ShutOutStep(m: Membership, w: World, a: Action, id: Id, y: Id)
    requires Inv(m, w) && Enabled(w, a) && y != id && ShutOut(w, y)
    requires Names(w, id) && Names(Do(m, w, a), id)
    ensures ShutOut(Do(m, w, a), y)
  {
    if a.Handle? {
      ShutOutHandle(m, w, a.k, id, y);
    } else if a.Deliver? && a.id == y {
      ShutOutDeliver(m, w, y);
    } else {
      QuietStep(m, w, a);
      QuietPhase(m, w, a, y);
    }
  }

  lemma ShutOutNext(m: Membership, ws: seq<World>, k: nat, id: Id, y: Id)
    requires Run(m, ws) && k + 1 < |ws| && y != id && ShutOut(ws[k], y)
    requires Names(ws[k], id) && Names(ws[k + 1], id)
    ensures ShutOut(ws[k + 1], y)
  {
    RunKeeps(m, ws, k);
    var a := TakenStep(m, ws, k);
    ShutOutStep(m, ws[k], a, id, y);
  }

  lemma {:induction false} ShutOutChain(ws: seq<World>, i: nat, j: nat, y: Id)
    requires i <= j < |ws| && ShutOut(ws[i], y)
    requires forall k :: i <= k < j && ShutOut(ws[k], y) ==> ShutOut(ws[k + 1], y)
    ensures ShutOut(ws[j], y)
  {
    if i < j {
      ShutOutChain(ws, i, j - 1, y);
      assert ShutOut(ws[j - 1 + 1], y);
    }
  }

  /** Restore exclusion: while a restore holds the account under an id no database knows and
      keeps refreshing, no other server comes to hold the guard, plain or HA, whether it starts
      meanwhile or was already on its way, unless it had the answer that gives it the key in hand
      before. */
  lemma RestoreExclusion(m: Membership, ws: seq<World>, i: nat, j: nat, id: Id, t0: Time, y: Id)
    requires Run(m, ws) && i <= j < |ws| && Names(ws[i], id) && Outsider(m, id)
    requires NeverDeletes(ws[j], id, |ws[i].Log()|)
    requires forall k :: i <= k <= j ==> KeepsRefreshing(ws[k], id, t0)
    requires y != id && ShutOut(ws[i], y)
    ensures HeldLease(ws[j].Phase(y)) == [] && Names(ws[j], id)
  {
    forall k | i <= k <= j ensures Names(ws[k], id) {
      NeverDeletedBefore(m, ws, k, j, id, |ws[i].Log()|);
      RefreshedKeyIsKept(m, ws, i, k, id, t0);
    }
    forall k | i <= k < j && ShutOut(ws[k], y) ensures ShutOut(ws[k + 1], y) {
      ShutOutNext(m, ws, k, id, y);
    }
    ShutOutChain(ws, i, j, y);
  }
}
